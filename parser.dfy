/** The normalization pipeline: the decoded model reply, a JSON value of no
    fixed shape, becomes the keyword arguments of the sign-data record, and
    then the record. Each step is a function that specifies it; the steps the
    source writes as loops and key-by-key dict updates are also methods proved
    equal to those functions. The clock is a parameter: `clock(k)` is the
    epoch-millisecond value of the `k`-th reading after the reply decodes. */
module Parser {
  import opened Wrappers
  import opened Errors
  import opened Json
  import opened DataModels
  import opened Providers
  import opened ImageProcessing

  // Days.

  /** The canonical day codes, Monday first. */
  const AllDays: seq<string> := ["mon", "tue", "wed", "thu", "fri", "sat", "sun"]

  /** The day-name table: upper-case full names, upper-case codes and
      lower-case full names, each to its code. */
  const DayMapping: map<string, string> := map[
    "MONDAY" := "mon", "MON" := "mon", "monday" := "mon",
    "TUESDAY" := "tue", "TUE" := "tue", "tuesday" := "tue",
    "WEDNESDAY" := "wed", "WED" := "wed", "wednesday" := "wed",
    "THURSDAY" := "thu", "THU" := "thu", "thursday" := "thu",
    "FRIDAY" := "fri", "FRI" := "fri", "friday" := "fri",
    "SATURDAY" := "sat", "SAT" := "sat", "saturday" := "sat",
    "SUNDAY" := "sun", "SUN" := "sun", "sunday" := "sun"]

  /** One day name through the table; a name the table lacks is lower-cased. */
  function DayCode(d: string): (r: string)
    ensures d in DayMapping ==> r in AllDays
    ensures d !in DayMapping ==> r == Lower(d) && |r| == |d|
  {
    if d in DayMapping then DayMapping[d] else Lower(d)
  }

  /** One entry of a day list. The lower-casing default is computed before the
      table is consulted, so an entry that is not a string fails even when it
      would not be looked up. */
  function NormalizeDay(d: JSON): (r: Result<string, Error>)
    ensures r.Ok? <==> d.Str?
    ensures r.Ok? ==> r.value == DayCode(d.s)
    ensures r.Err? ==> r.error == TypeError
  {
    if d.Str? then Ok(DayCode(d.s)) else Err(TypeError)
  }

  /** `_normalize_days`: a falsy list (absent, null or empty) is all seven
      days; otherwise each entry in turn through the table. */
  function NormalizeDays(days: JSON): (r: Result<seq<string>, Error>)
    ensures !Truthy(days) ==> r == Ok(AllDays)
    ensures Truthy(days) && days.Arr? ==> (r.Ok? <==> forall i :: 0 <= i < |days.items| ==> days.items[i].Str?)
    ensures Truthy(days) && days.Arr? && r.Ok? ==>
      |r.value| == |days.items| && forall i :: 0 <= i < |days.items| ==> r.value[i] == DayCode(days.items[i].s)
    ensures Truthy(days) && days.Str? ==> r == Ok(seq(|days.s|, i requires 0 <= i < |days.s| => DayCode([days.s[i]])))
    ensures r.Err? ==> r.error == TypeError || r.error == NotModelled
  {
    if !Truthy(days) then Ok(AllDays)
    else
      var items :- Elements(days);
      var codes := MapAll(items, NormalizeDay);
      if days.Str? then
        assert codes.Ok?;
        assert codes.value == seq(|days.s|, i requires 0 <= i < |days.s| => DayCode([days.s[i]]));
        codes
      else
        codes
  }

  // Time spans.

  /** One time span, read from the keys `days`, `start_time` and `end_time`;
      a start or end that is missing or falsy takes "00:00" or "23:59". */
  function NormalizedSpan(span: JSON): (r: Result<JSON, Error>)
    ensures r.Err? <==> !span.Obj? || NormalizeDays(Get(span.fields, "days", Arr([]))).Err?
    ensures r.Err? ==> r.error == (if span.Obj? then NormalizeDays(Get(span.fields, "days", Arr([]))).error else TypeError)
    ensures r.Ok? ==> r.value.Obj? && r.value.fields.Keys == {"days_of_week", "time_of_day_start", "time_of_day_end"}
    ensures r.Ok? ==> r.value.fields["days_of_week"] == StrList(NormalizeDays(Get(span.fields, "days", Arr([]))).value)
    ensures r.Ok? ==> r.value.fields["time_of_day_start"] == GetOr(span.fields, "start_time", Str("00:00"))
    ensures r.Ok? ==> r.value.fields["time_of_day_end"] == GetOr(span.fields, "end_time", Str("23:59"))
  {
    if !span.Obj? then Err(TypeError)
    else
      var o := span.fields;
      var days :- NormalizeDays(Get(o, "days", Arr([])));
      Ok(Obj(map[
        "days_of_week" := StrList(days),
        "time_of_day_start" := GetOr(o, "start_time", Str("00:00")),
        "time_of_day_end" := GetOr(o, "end_time", Str("23:59"))]))
  }

  /** `_normalize_time_spans`: a falsy value is no spans; a list gives one
      span per item, in order; any other truthy value fails, since its items
      (characters, keys) are strings, which have no `get`. */
  function NormalizedTimeSpans(ts: JSON): (r: Result<seq<JSON>, Error>)
    ensures !Truthy(ts) ==> r == Ok([])
    ensures Truthy(ts) && !ts.Arr? ==> r == Err(TypeError)
    ensures ts.Arr? ==> r == MapAll(ts.items, NormalizedSpan)
  {
    if !Truthy(ts) then Ok([])
    else
      var items :- LoopItems(ts);
      if ts.Str? then
        NonObjectsFail(items, NormalizedSpan);
        MapAll(items, NormalizedSpan)
      else
        MapAll(items, NormalizedSpan)
  }

  /** A loop whose body fails with TypeError on every item that is not an
      object fails with TypeError on a non-empty list of strings. */
  lemma NonObjectsFail(items: seq<JSON>, f: JSON -> Result<JSON, Error>)
    requires |items| > 0 && items[0].Str?
    requires forall v: JSON :: !v.Obj? ==> f(v) == Err(TypeError)
    ensures MapAll(items, f) == Err(TypeError)
  {
    MapAllFirstFailure(items, f, 0);
  }

  method NormalizeTimeSpans(timeSpans: JSON) returns (r: Result<seq<JSON>, Error>)
    ensures r == NormalizedTimeSpans(timeSpans)
  {
    if !Truthy(timeSpans) {
      return Ok([]);
    }
    var spans := LoopItems(timeSpans);
    if spans.Err? {
      return Err(spans.error);
    }
    var items := spans.value;
    var normalized: seq<JSON> := [];
    var i := 0;
    while i < |items|
      invariant 0 <= i <= |items|
      invariant MapAll(items[..i], NormalizedSpan) == Ok(normalized)
    {
      var span := NormalizedSpan(items[i]);
      MapAllStep(items, i, NormalizedSpan, normalized);
      if span.Err? {
        return Err(span.error);
      }
      normalized := normalized + [span.value];
      i := i + 1;
    }
    assert items[..i] == items;
    return Ok(normalized);
  }

  // Rules.

  /** `float(x)` of a number or a boolean. `float` of a string depends on the
      text and is not modelled; of null, a list or a dict it is a TypeError. */
  function Float(v: JSON): (r: Result<real, Error>)
    ensures v.Num? ==> r == Ok(v.n)
    ensures v.Bool? ==> r == Ok(if v.b then 1.0 else 0.0)
    ensures (v.Null? || v.Arr? || v.Obj?) ==> r == Err(TypeError)
  {
    match v
    case Num(n) => Ok(n)
    case Bool(b) => Ok(if b then 1.0 else 0.0)
    case Str(_) => Err(NotModelled)
    case _ => Err(TypeError)
  }

  /** The keys a normalized rule may have. */
  const RuleKeys: set<string> := {"activity", "max_stay", "rate", "user_classes"}

  /** The `rate` dict built from a `payment` dict: the rate as a float,
      by default 0, the unit by default "hour" and the period by default
      "rolling". */
  function RateDict(rate: real, payment: map<string, JSON>): JSON {
    Obj(map[
      "rate" := Num(rate),
      "rate_unit" := Get(payment, "rate_unit", Str("hour")),
      "rate_unit_period" := Get(payment, "rate_unit_period", Str("rolling"))])
  }

  /** The payment of a rule, when it is a dict. */
  predicate HasPaymentDict(o: map<string, JSON>) {
    "payment" in o && o["payment"].Obj?
  }

  /** `float` of the rate of a payment dict, 0 when there is none. */
  function PaymentRate(o: map<string, JSON>): Result<real, Error>
    requires HasPaymentDict(o)
  {
    Float(Get(o["payment"].fields, "rate", Num(0.0)))
  }

  /** `_normalize_rules` on one rule. */
  function NormalizedRule(rule: JSON): (r: Result<JSON, Error>)
    ensures r.Err? <==> !rule.Obj? || (HasPaymentDict(rule.fields) && PaymentRate(rule.fields).Err?)
    ensures r.Err? ==> r.error == (if rule.Obj? then PaymentRate(rule.fields).error else TypeError)
    ensures r.Ok? ==> r.value.Obj? && r.value.fields.Keys <= RuleKeys
    ensures r.Ok? ==> "activity" in r.value.fields && r.value.fields["activity"] == Get(rule.fields, "activity", Str("parking"))
    ensures r.Ok? ==> ("max_stay" in r.value.fields <==> "max_stay" in rule.fields)
    ensures r.Ok? && "max_stay" in rule.fields ==> r.value.fields["max_stay"] == rule.fields["max_stay"]
    ensures r.Ok? ==> ("user_classes" in r.value.fields <==> "user_classes" in rule.fields)
    ensures r.Ok? && "user_classes" in rule.fields ==> r.value.fields["user_classes"] == rule.fields["user_classes"]
    ensures r.Ok? ==> ("rate" in r.value.fields <==> HasPaymentDict(rule.fields))
    ensures r.Ok? && HasPaymentDict(rule.fields) ==>
      r.value.fields["rate"] == RateDict(PaymentRate(rule.fields).value, rule.fields["payment"].fields)
  {
    if !rule.Obj? then Err(TypeError)
    else
      var o := rule.fields;
      var withActivity := map["activity" := Get(o, "activity", Str("parking"))];
      var withMaxStay := if "max_stay" in o then withActivity["max_stay" := o["max_stay"]] else withActivity;
      var withRate :-
        if HasPaymentDict(o) then
          var rate :- PaymentRate(o);
          Ok(withMaxStay["rate" := RateDict(rate, o["payment"].fields)])
        else
          Ok(withMaxStay);
      var withUserClasses := if "user_classes" in o then withRate["user_classes" := o["user_classes"]] else withRate;
      Ok(Obj(withUserClasses))
  }

  method NormalizeRule(rule: JSON) returns (r: Result<JSON, Error>)
    ensures r == NormalizedRule(rule)
  {
    if !rule.Obj? {
      return Err(TypeError);
    }
    var o := rule.fields;
    var normalized := map["activity" := Get(o, "activity", Str("parking"))];
    if "max_stay" in o {
      normalized := normalized["max_stay" := o["max_stay"]];
    }
    if "payment" in o {
      var payment := o["payment"];
      if payment.Obj? {
        var rate := Float(Get(payment.fields, "rate", Num(0.0)));
        if rate.Err? {
          return Err(rate.error);
        }
        normalized := normalized["rate" := RateDict(rate.value, payment.fields)];
      }
    }
    if "user_classes" in o {
      normalized := normalized["user_classes" := o["user_classes"]];
    }
    return Ok(Obj(normalized));
  }

  /** The rules list of a policy, one rule at a time. */
  method NormalizeRules(rules: seq<JSON>) returns (r: Result<seq<JSON>, Error>)
    ensures r == MapAll(rules, NormalizedRule)
  {
    var normalized: seq<JSON> := [];
    var i := 0;
    while i < |rules|
      invariant 0 <= i <= |rules|
      invariant MapAll(rules[..i], NormalizedRule) == Ok(normalized)
    {
      var rule := NormalizeRule(rules[i]);
      MapAllStep(rules, i, NormalizedRule, normalized);
      if rule.Err? {
        return Err(rule.error);
      }
      normalized := normalized + [rule.value];
      i := i + 1;
    }
    assert rules[..i] == rules;
    return Ok(normalized);
  }

  // Policies.

  function DigitChar(d: nat): char
    requires d < 10
  {
    ('0' as int + d) as char
  }

  /** `str(n)` of a natural number: its decimal digits. */
  function NatToString(n: nat): (r: string)
    ensures |r| >= 1
    ensures n < 10 <==> |r| == 1
    ensures r[|r| - 1] == DigitChar(n % 10)
  {
    if n < 10 then [DigitChar(n)] else NatToString(n / 10) + [DigitChar(n % 10)]
  }

  /** The source list: `regulations` if the decoded value has it, else
      `policies`, else none. On a list, `in` tests membership and on a string
      it tests for a substring; either way the value cannot then be indexed by
      the key. Numbers, booleans and null do not support `in`. */
  function SourcePolicies(data: JSON): (r: Result<JSON, Error>)
    ensures data.Obj? ==> r.Ok?
    ensures data.Obj? && "regulations" in data.fields ==> r == Ok(data.fields["regulations"])
    ensures data.Obj? && "regulations" !in data.fields && "policies" in data.fields ==> r == Ok(data.fields["policies"])
    ensures data.Obj? && "regulations" !in data.fields && "policies" !in data.fields ==> r == Ok(Arr([]))
    ensures data.Arr? ==> (r.Ok? <==> Str("regulations") !in data.items && Str("policies") !in data.items)
    ensures data.Str? ==> (r.Ok? <==> !Contains(data.s, "regulations") && !Contains(data.s, "policies"))
    ensures !data.Obj? && !data.Arr? && !data.Str? ==> r == Err(TypeError)
    ensures !data.Obj? && r.Ok? ==> r.value == Arr([])
    ensures r.Err? ==> r.error == TypeError
  {
    match data
    case Obj(o) =>
      if "regulations" in o then Ok(o["regulations"])
      else if "policies" in o then Ok(o["policies"])
      else Ok(Arr([]))
    case Arr(a) =>
      if Str("regulations") in a || Str("policies") in a then Err(TypeError) else Ok(Arr([]))
    case Str(s) =>
      if Contains(s, "regulations") || Contains(s, "policies") then Err(TypeError) else Ok(Arr([]))
    case _ => Err(TypeError)
  }

  /** The rules of a source policy: its `rules` list normalized item by item
      when it has one, else the item itself as the one rule. */
  function PolicyRules(o: map<string, JSON>): (r: Result<seq<JSON>, Error>)
    ensures "rules" !in o ==> r == (var rule :- NormalizedRule(Obj(o)); Ok([rule]))
    ensures "rules" in o && o["rules"].Arr? ==> r == MapAll(o["rules"].items, NormalizedRule)
  {
    if "rules" in o then
      var items :- LoopItems(o["rules"]);
      MapAll(items, NormalizedRule)
    else
      var rule :- NormalizedRule(Obj(o));
      Ok([rule])
  }

  /** The time spans a policy ends up with: the normalized `time_spans` of the
      item, which are none when the item has none. */
  function PolicySpans(o: map<string, JSON>): (r: Result<seq<JSON>, Error>)
    ensures "time_spans" !in o ==> r == Ok([])
    ensures "time_spans" in o ==> r == NormalizedTimeSpans(o["time_spans"])
  {
    NormalizedTimeSpans(Get(o, "time_spans", Arr([])))
  }

  /** One policy dict from the source item at position `idx`: the positional
      id, the timestamp, the time spans and the rules. Anything but a dict
      fails: a string or a list cannot be indexed by a key or asked for `get`,
      and the other values do not support `in`. When the item has time spans
      they are normalized before its rules, as the source does; when it has
      none they cannot fail, so the spans can always be taken first. */
  function PolicyDict(idx: nat, item: JSON, stamp: int): (r: Result<JSON, Error>)
    ensures !item.Obj? ==> r == Err(TypeError)
  {
    if !item.Obj? then Err(TypeError)
    else
      var spans :- PolicySpans(item.fields);
      var rules :- PolicyRules(item.fields);
      Ok(Obj(map[
        "curb_policy_id" := Str(NatToString(idx)),
        "published_date" := IntToJson(stamp),
        "time_spans" := Arr(spans),
        "rules" := Arr(rules)]))
  }

  /** One policy dict, built key by key as the source does: the id and the
      timestamp, the normalized `time_spans` when the item has them, the
      rules, and then the time spans again when they are still missing. */
  method BuildPolicy(idx: nat, sourcePolicy: JSON, stamp: int) returns (r: Result<JSON, Error>)
    ensures r == PolicyDict(idx, sourcePolicy, stamp)
  {
    if !sourcePolicy.Obj? {
      return Err(TypeError);
    }
    var o := sourcePolicy.fields;
    var policy := map["curb_policy_id" := Str(NatToString(idx)), "published_date" := IntToJson(stamp)];
    if "time_spans" in o {
      var spans := NormalizeTimeSpans(o["time_spans"]);
      if spans.Err? {
        return Err(spans.error);
      }
      policy := policy["time_spans" := Arr(spans.value)];
    }
    if "rules" in o {
      var items := LoopItems(o["rules"]);
      if items.Err? {
        return Err(items.error);
      }
      var rules := NormalizeRules(items.value);
      if rules.Err? {
        return Err(rules.error);
      }
      policy := policy["rules" := Arr(rules.value)];
    } else {
      var rule := NormalizeRule(sourcePolicy);
      if rule.Err? {
        return Err(rule.error);
      }
      policy := policy["rules" := Arr([rule.value])];
    }
    if "time_spans" !in policy {
      var spans := NormalizeTimeSpans(Get(o, "time_spans", Arr([])));
      // The item has no `time_spans` here, so this normalizes the empty default.
      assert spans == Ok([]);
      PolicyKeyOrder(Str(NatToString(idx)), IntToJson(stamp), Arr(spans.value), policy["rules"]);
      policy := policy["time_spans" := Arr(spans.value)];
    }
    return Ok(Obj(policy));
  }

  /** The two orders in which the source can add the time spans and the
      rules build the same policy dict. */
  lemma PolicyKeyOrder(id: JSON, date: JSON, spans: JSON, rules: JSON)
    ensures map["curb_policy_id" := id, "published_date" := date]["rules" := rules]["time_spans" := spans]
      == map["curb_policy_id" := id, "published_date" := date, "time_spans" := spans, "rules" := rules]
  {
  }

  /** `enumerate(items)`: each item with its position. */
  function Enumerate(items: seq<JSON>): (r: seq<(nat, JSON)>)
    ensures |r| == |items|
    ensures forall i :: 0 <= i < |items| ==> r[i] == (i, items[i])
  {
    seq(|items|, i requires 0 <= i < |items| => (i, items[i]))
  }

  /** The loop body over `enumerate`: the policy for position `p.0`, stamped
      with clock reading `p.0 + 1`. */
  function PolicyStep(clock: nat -> int): ((nat, JSON)) -> Result<JSON, Error> {
    (p: (nat, JSON)) => PolicyDict(p.0, p.1, clock(p.0 + 1))
  }

  /** The policy dicts for the source items, the `k`-th stamped with clock
      reading `k + 1`; the first failure ends the run. */
  function PolicyDicts(items: seq<JSON>, clock: nat -> int): (r: Result<seq<JSON>, Error>)
    ensures r.Ok? <==> forall i :: 0 <= i < |items| ==> PolicyDict(i, items[i], clock(i + 1)).Ok?
    ensures r.Ok? ==> |r.value| == |items|
    ensures r.Ok? ==> forall i :: 0 <= i < |items| ==> r.value[i] == PolicyDict(i, items[i], clock(i + 1)).value
    ensures r.Err? ==>
      exists k :: 0 <= k < |items| && PolicyDict(k, items[k], clock(k + 1)).Err?
        && r.error == PolicyDict(k, items[k], clock(k + 1)).error
        && forall j :: 0 <= j < k ==> PolicyDict(j, items[j], clock(j + 1)).Ok?
  {
    PolicyRun(items, clock);
    PolicyRunFails(items, clock);
    MapAll(Enumerate(items), PolicyStep(clock))
  }

  /** The loop body at position `i` of `enumerate(items)` makes the `i`-th
      policy dict. */
  lemma PolicyStepAt(items: seq<JSON>, clock: nat -> int)
    ensures forall i :: 0 <= i < |items| ==>
      PolicyStep(clock)(Enumerate(items)[i]) == PolicyDict(i, items[i], clock(i + 1))
  {
  }

  /** The run of the loop body over `enumerate(items)` makes the `k`-th
      policy dict at position `k`. */
  lemma PolicyRun(items: seq<JSON>, clock: nat -> int)
    ensures var r := MapAll(Enumerate(items), PolicyStep(clock));
      (r.Ok? <==> forall i :: 0 <= i < |items| ==> PolicyDict(i, items[i], clock(i + 1)).Ok?)
      && (r.Ok? ==> |r.value| == |items|)
      && (r.Ok? ==> forall i :: 0 <= i < |items| ==> r.value[i] == PolicyDict(i, items[i], clock(i + 1)).value)
  {
    PolicyStepAt(items, clock);
  }

  /** A failing run of the loop body over `enumerate(items)` fails with the
      first failing policy dict. */
  lemma PolicyRunFails(items: seq<JSON>, clock: nat -> int)
    ensures var r := MapAll(Enumerate(items), PolicyStep(clock));
      r.Err? ==>
        exists k :: 0 <= k < |items| && PolicyDict(k, items[k], clock(k + 1)).Err?
          && r.error == PolicyDict(k, items[k], clock(k + 1)).error
          && forall j :: 0 <= j < k ==> PolicyDict(j, items[j], clock(j + 1)).Ok?
  {
    var pairs := Enumerate(items);
    var step := PolicyStep(clock);
    var r := MapAll(pairs, step);
    PolicyStepAt(items, clock);
    if r.Err? {
      var k :| 0 <= k < |pairs| && step(pairs[k]).Err? && r.error == step(pairs[k]).error
        && forall j :: 0 <= j < k ==> step(pairs[j]).Ok?;
      assert PolicyDict(k, items[k], clock(k + 1)).Err?;
    }
  }

  /** The record's keyword arguments for a reply that decoded: the envelope
      with the first clock reading, the location when it is truthy, and the
      policies. The source fills in the envelope before the loop; nothing in
      it can fail, so here it is built last. */
  function Envelope(data: JSON, location: JSON, clock: nat -> int): (r: Result<map<string, JSON>, Error>)
    ensures r.Ok? ==> r.value.Keys == {"version", "currency", "last_updated", "policies"} + (if Truthy(location) then {"location"} else {})
    ensures r.Ok? ==> r.value["version"] == Str("1.0") && r.value["currency"] == Str("USD")
    ensures r.Ok? ==> r.value["last_updated"] == IntToJson(clock(0))
    ensures r.Ok? && Truthy(location) ==> r.value["location"] == location
    ensures r.Ok? <==>
      SourcePolicies(data).Ok? && LoopItems(SourcePolicies(data).value).Ok?
      && PolicyDicts(LoopItems(SourcePolicies(data).value).value, clock).Ok?
    ensures r.Ok? ==> r.value["policies"] == Arr(PolicyDicts(LoopItems(SourcePolicies(data).value).value, clock).value)
  {
    var source :- SourcePolicies(data);
    var items :- LoopItems(source);
    var policies :- PolicyDicts(items, clock);
    var args := map[
      "version" := Str("1.0"),
      "currency" := Str("USD"),
      "last_updated" := IntToJson(clock(0)),
      "policies" := Arr(policies)];
    Ok(if Truthy(location) then args["location" := location] else args)
  }

  /** The keyword arguments of the record returned when the reply is not
      JSON: no policies, no location, and the first clock reading. */
  function FallbackArgs(clock: nat -> int): (r: map<string, JSON>)
    ensures r.Keys == {"version", "currency", "policies", "last_updated"}
    ensures r["policies"] == Arr([]) && r["last_updated"] == IntToJson(clock(0))
  {
    map[
      "version" := Str("1.0"),
      "currency" := Str("USD"),
      "policies" := Arr([]),
      "last_updated" := IntToJson(clock(0))]
  }

  /** The JSON-to-record part of `parse_sign`: a decode failure is the one
      failure turned into a result; every other failure propagates. */
  function ParsedResponse(decoded: Decoded, location: JSON, clock: nat -> int, f: Factories): (r: Result<SignData, Error>)
    ensures decoded.DecodeError? ==> r.Ok? && r.value.policies == [] && r.value.location == None
    ensures decoded.Decoded? && r.Ok? ==> Envelope(decoded.value, location, clock).Ok?
    ensures decoded.Decoded? && Envelope(decoded.value, location, clock).Err? ==> r == Err(Envelope(decoded.value, location, clock).error)
  {
    match decoded
    case DecodeError => SignDataFromJson(FallbackArgs(clock), f)
    case Decoded(data) =>
      var args :- Envelope(data, location, clock);
      SignDataFromJson(args, f)
  }

  /** The JSON-to-record part of `parse_sign`, as the source writes it: the
      envelope first, then one policy per source item, appended in order. */
  method ParseResponse(decoded: Decoded, location: JSON, clock: nat -> int, f: Factories) returns (r: Result<SignData, Error>)
    ensures r == ParsedResponse(decoded, location, clock, f)
  {
    if decoded.DecodeError? {
      return SignDataFromJson(FallbackArgs(clock), f);
    }
    var data := decoded.value;
    var cdsData := map[
      "version" := Str("1.0"),
      "currency" := Str("USD"),
      "last_updated" := IntToJson(clock(0)),
      "policies" := Arr([])];
    if Truthy(location) {
      cdsData := cdsData["location" := location];
    }
    var source := SourcePolicies(data);
    if source.Err? {
      return Err(source.error);
    }
    var sourceItems := LoopItems(source.value);
    if sourceItems.Err? {
      return Err(sourceItems.error);
    }
    var items := sourceItems.value;
    var policies := BuildPolicies(items, clock);
    if policies.Err? {
      return Err(policies.error);
    }
    EnvelopeKeyOrder(location, IntToJson(clock(0)), Arr(policies.value));
    cdsData := cdsData["policies" := Arr(policies.value)];
    return SignDataFromJson(cdsData, f);
  }

  /** Filling in the envelope before the policies, as the source does, builds
      the same arguments as filling it in after. */
  lemma EnvelopeKeyOrder(location: JSON, stamp: JSON, policies: JSON)
    ensures
      var base := map["version" := Str("1.0"), "currency" := Str("USD"), "last_updated" := stamp, "policies" := Arr([])];
      var args := map["version" := Str("1.0"), "currency" := Str("USD"), "last_updated" := stamp, "policies" := policies];
      (if Truthy(location) then base["location" := location] else base)["policies" := policies]
        == (if Truthy(location) then args["location" := location] else args)
  {
  }

  /** The `enumerate` loop of `parse_sign`: one policy per source item,
      appended in order. */
  method BuildPolicies(items: seq<JSON>, clock: nat -> int) returns (r: Result<seq<JSON>, Error>)
    ensures r == PolicyDicts(items, clock)
  {
    var pairs := Enumerate(items);
    var policies: seq<JSON> := [];
    var idx := 0;
    while idx < |pairs|
      invariant 0 <= idx <= |pairs|
      invariant MapAll(pairs[..idx], PolicyStep(clock)) == Ok(policies)
    {
      var sourcePolicy := pairs[idx].1;
      var policy := BuildPolicy(idx, sourcePolicy, clock(idx + 1));
      assert policy == PolicyStep(clock)(pairs[idx]);
      MapAllStep(pairs, idx, PolicyStep(clock), policies);
      if policy.Err? {
        return Err(policy.error);
      }
      policies := policies + [policy.value];
      idx := idx + 1;
    }
    assert pairs[..idx] == pairs;
    return Ok(policies);
  }

  // The orchestrator.

  /** `parse_sign` end to end: the image, then the backend's reply, then the
      normalization of its decoding; a failure of the image step or of the
      backend propagates unchanged. */
  function SignOutcome(codec: Codec, maxSize: int, reply: seq<bv8> -> Result<string, Error>,
                       loads: string -> Decoded, clock: nat -> int, f: Factories): (r: Result<SignData, Error>)
    ensures Prepared(codec, maxSize).Err? ==> r == Err(Prepared(codec, maxSize).error)
    ensures Prepared(codec, maxSize).Ok? && reply(codec.bytes).Err? ==> r == Err(reply(codec.bytes).error)
    ensures Prepared(codec, maxSize).Ok? && reply(codec.bytes).Ok? ==>
      r == ParsedResponse(loads(reply(codec.bytes).value), codec.location, clock, f)
  {
    var prepared :- Prepared(codec, maxSize);
    var response :- reply(prepared.0);
    ParsedResponse(loads(response), prepared.1, clock, f)
  }

  class CurbSignParser {
    var provider: Provider
    var imageProcessor: ImageProcessor

    /** The parser for a registered backend: the backend, and an image
        processor whose limit is the backend's. */
    constructor (apiKey: string, kind: ProviderKind)
      ensures provider == Provider(kind, apiKey)
      ensures fresh(imageProcessor) && imageProcessor.maxSize == MaxImageSize(kind)
    {
      provider := Provider(kind, apiKey);
      var processor := new ImageProcessor(Some(MaxImageSize(kind)));
      imageProcessor := processor;
    }

    /** `parse_sign`: the codec's work on the image, the backend's reply to
        the bytes and `json.loads` are the parameters `codec`, `reply` and
        `loads`. */
    method ParseSign(codec: Codec, reply: seq<bv8> -> Result<string, Error>, loads: string -> Decoded,
                     clock: nat -> int, f: Factories) returns (r: Result<SignData, Error>)
      ensures r == SignOutcome(codec, imageProcessor.maxSize, reply, loads, clock, f)
    {
      var processed := imageProcessor.ProcessImage(codec);
      if processed.Err? {
        return Err(processed.error);
      }
      var imageBytes := processed.value.0;
      var locationData := processed.value.1;
      var llmResponse := reply(imageBytes);
      if llmResponse.Err? {
        return Err(llmResponse.error);
      }
      r := ParseResponse(loads(llmResponse.value), locationData, clock, f);
    }
  }

  /** `CurbSignParser(api_key, provider)`: the provider name is checked
      before anything is built, and an unknown name is a ValueError. */
  method NewCurbSignParser(apiKey: string, name: string := "claude") returns (r: Result<CurbSignParser, Error>)
    ensures r.Err? <==> name !in Registry
    ensures r.Err? ==> r.error == ValueError
    ensures r.Ok? ==> fresh(r.value) && fresh(r.value.imageProcessor)
    ensures r.Ok? ==> r.value.provider == Provider(Registry[name], apiKey)
    ensures r.Ok? ==> r.value.imageProcessor.maxSize == MaxImageSize(Registry[name])
  {
    if name !in Registry {
      return Err(ValueError);
    }
    var parser := new CurbSignParser(apiKey, Registry[name]);
    return Ok(parser);
  }

  /** A parser made with only a key uses the default backend, `claude`,
      with its 5 MiB image limit. */
  method NewDefaultCurbSignParser(apiKey: string) returns (r: Result<CurbSignParser, Error>)
    ensures r.Ok? && r.value.provider == Provider(Claude, apiKey)
    ensures r.Ok? && r.value.imageProcessor.maxSize == 5_242_880
  {
    r := NewCurbSignParser(apiKey);
  }
}
