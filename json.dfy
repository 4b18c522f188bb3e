/** Decoded JSON values and the handful of Python operations the parser applies
    to them: truthiness, `dict.get`, `str.lower`/`str.upper`, substring and list
    membership, and what a `for` loop visits. */
module Json {
  import opened Wrappers
  import opened Errors

  /** What `json.loads` returns: objects are dicts keyed by strings, and
      numbers (int or float) are reals. */
  datatype JSON =
    | Null
    | Bool(b: bool)
    | Num(n: real)
    | Str(s: string)
    | Arr(items: seq<JSON>)
    | Obj(fields: map<string, JSON>)

  /** The outcome of `json.loads` on the model's reply. */
  datatype Decoded = Decoded(value: JSON) | DecodeError

  /** Python truthiness: `None`, `False`, zero, `""`, `[]` and `{}` are false. */
  predicate Truthy(v: JSON) {
    match v
    case Null => false
    case Bool(b) => b
    case Num(n) => n != 0.0
    case Str(s) => s != ""
    case Arr(a) => a != []
    case Obj(o) => o != map[]
  }

  /** `o.get(key, default)`. */
  function Get(o: map<string, JSON>, key: string, default: JSON): JSON {
    if key in o then o[key] else default
  }

  /** `o.get(key, default) or default`: the default also replaces a present
      value that is falsy. */
  function GetOr(o: map<string, JSON>, key: string, default: JSON): (r: JSON)
    ensures Truthy(default) ==> Truthy(r)
    ensures Truthy(Get(o, key, default)) ==> r == Get(o, key, default)
    ensures !Truthy(Get(o, key, default)) ==> r == default
  {
    var v := Get(o, key, default);
    if Truthy(v) then v else default
  }

  function LowerChar(c: char): char {
    if 'A' <= c <= 'Z' then (c as int + 32) as char else c
  }

  function UpperChar(c: char): char {
    if 'a' <= c <= 'z' then (c as int - 32) as char else c
  }

  /** `str.lower()` on the ASCII letters. */
  function Lower(s: string): string {
    seq(|s|, i requires 0 <= i < |s| => LowerChar(s[i]))
  }

  /** `str.upper()` on the ASCII letters. */
  function Upper(s: string): string {
    seq(|s|, i requires 0 <= i < |s| => UpperChar(s[i]))
  }

  /** Lower-casing forgets whether the string was upper-cased first, and the
      other way round: the two case maps see the same letters. */
  lemma CaseMapsAgree(s: string)
    ensures Lower(Upper(s)) == Lower(s)
    ensures Upper(Lower(s)) == Upper(s)
  {
    forall i | 0 <= i < |s|
      ensures LowerChar(UpperChar(s[i])) == LowerChar(s[i])
      ensures UpperChar(LowerChar(s[i])) == UpperChar(s[i])
    {
    }
  }

  /** `sub` starts at position `i` of `s`. */
  predicate OccursAt(s: string, sub: string, i: int) {
    0 <= i <= |s| - |sub| && s[i..i + |sub|] == sub
  }

  /** Python's `sub in s` on strings. */
  predicate Contains(s: string, sub: string) {
    exists i :: 0 <= i <= |s| - |sub| && OccursAt(s, sub, i)
  }

  /** The one-character strings a loop over `s` visits. */
  function Chars(s: string): (r: seq<JSON>)
    ensures |r| == |s|
    ensures forall i :: 0 <= i < |s| ==> r[i] == Str([s[i]])
  {
    seq(|s|, i requires 0 <= i < |s| => Str([s[i]]))
  }

  /** A list of strings as JSON. */
  function StrList(ss: seq<string>): (r: JSON)
    ensures r.Arr? && |r.items| == |ss|
    ensures forall i :: 0 <= i < |ss| ==> r.items[i] == Str(ss[i])
  {
    Arr(seq(|ss|, i requires 0 <= i < |ss| => Str(ss[i])))
  }

  /** What `for x in v` visits: a list's items, a string's characters, and
      a dict's keys, whose order is known here only when there are none.
      Other values are not iterable. */
  function Elements(v: JSON): (r: Result<seq<JSON>, Error>)
    ensures r.Err? ==> r.error == (if v.Obj? then NotModelled else TypeError)
  {
    match v
    case Arr(a) => Ok(a)
    case Str(s) => Ok(Chars(s))
    case Obj(o) => if o == map[] then Ok([]) else Err(NotModelled)
    case _ => Err(TypeError)
  }

  /** What `for x in v` visits when the loop body raises TypeError or
      AttributeError on every string (it calls `x.get`, or indexes `x` by a
      key): a dict's keys are strings, so a non-empty dict fails at its first
      key whichever it is, exactly as if that key had been visited. */
  function LoopItems(v: JSON): (r: Result<seq<JSON>, Error>)
    ensures r.Err? ==> r.error == TypeError
    ensures v.Arr? ==> r == Ok(v.items)
    ensures !Truthy(v) && (v.Str? || v.Obj? || v.Arr?) ==> r == Ok([])
  {
    match v
    case Obj(o) => if o == map[] then Ok([]) else Err(TypeError)
    case _ => Elements(v)
  }
}
