/** What the normalization pipeline promises, stated over the functions that
    specify it: the day table, the defaults of spans and rules, the choice of
    the source list, positional ids, the policy shape, the decode-failure
    result and the independence from the default factories. */
module ParserProperties {
  import opened Wrappers
  import opened Errors
  import opened Json
  import opened DataModels
  import opened Validators
  import opened Parser

  // Days.

  /** The lower-case full day names, Monday first. */
  const FullNames: seq<string> := ["monday", "tuesday", "wednesday", "thursday", "friday", "saturday", "sunday"]

  /** A non-empty list of strings maps entry by entry through the table. */
  lemma NormalizeDaysOfStrings(ss: seq<string>)
    requires ss != []
    ensures NormalizeDays(StrList(ss)) == Ok(seq(|ss|, i requires 0 <= i < |ss| => DayCode(ss[i])))
  {
    var r := NormalizeDays(StrList(ss));
    assert Truthy(StrList(ss));
    assert r.Ok?;
    assert r.value == seq(|ss|, i requires 0 <= i < |ss| => DayCode(ss[i]));
  }

  /** The upper-case full day names, Monday first. */
  const UpperFullNames: seq<string> := ["MONDAY", "TUESDAY", "WEDNESDAY", "THURSDAY", "FRIDAY", "SATURDAY", "SUNDAY"]

  /** The upper-case day codes, Monday first. */
  const UpperDayCodes: seq<string> := ["MON", "TUE", "WED", "THU", "FRI", "SAT", "SUN"]

  /** The upper-case names are the full names and the codes upper-cased. */
  lemma UpperNamesOfDays()
    ensures forall i :: 0 <= i < |FullNames| ==> Upper(FullNames[i]) == UpperFullNames[i]
    ensures forall i :: 0 <= i < |AllDays| ==> Upper(AllDays[i]) == UpperDayCodes[i]
  {
    assert Upper("monday") == "MONDAY" && Upper("tuesday") == "TUESDAY" && Upper("wednesday") == "WEDNESDAY";
    assert Upper("thursday") == "THURSDAY" && Upper("friday") == "FRIDAY";
    assert Upper("saturday") == "SATURDAY" && Upper("sunday") == "SUNDAY";
    assert Upper("mon") == "MON" && Upper("tue") == "TUE" && Upper("wed") == "WED" && Upper("thu") == "THU";
    assert Upper("fri") == "FRI" && Upper("sat") == "SAT" && Upper("sun") == "SUN";
  }

  /** Each upper-case full name maps to the code of its day. */
  lemma UpperFullNamesMapped()
    ensures forall i :: 0 <= i < |FullNames| ==> DayCode(Upper(FullNames[i])) == AllDays[i]
  {
    UpperNamesOfDays();
  }

  /** Each upper-case code maps to the code of its day. */
  lemma UpperCodesMapped()
    ensures forall i :: 0 <= i < |AllDays| ==> DayCode(Upper(AllDays[i])) == AllDays[i]
  {
    UpperNamesOfDays();
  }

  lemma TitleCaseCodesLowered()
    ensures DayCode("Mon") == "mon" && DayCode("Fri") == "fri"
  {
    assert Lower("Mon") == "mon" && Lower("Fri") == "fri";
  }

  lemma TitleCaseNamesLowered()
    ensures DayCode("Monday") == "monday" && DayCode("Holiday") == "holiday"
  {
    assert Lower("Monday") == "monday" && Lower("Holiday") == "holiday";
  }

  /** A two-entry list of strings normalizes to the two entries' codes. */
  lemma NormalizeTwoDays(ss: seq<string>, a: string, b: string)
    requires |ss| == 2 && DayCode(ss[0]) == a && DayCode(ss[1]) == b
    ensures NormalizeDays(StrList(ss)) == Ok([a, b])
  {
    NormalizeDaysOfStrings(ss);
    var out := seq(|ss|, i requires 0 <= i < |ss| => DayCode(ss[i]));
    assert out == [a, b];
  }

  /** The examples of the parser tests. */
  lemma NormalizeDaysExamples()
    ensures NormalizeDays(StrList(["MONDAY", "FRIDAY"])) == Ok(["mon", "fri"])
    ensures NormalizeDays(StrList([])) == Ok(AllDays)
    ensures NormalizeDays(Null) == Ok(AllDays)
  {
    NormalizeTwoDays(["MONDAY", "FRIDAY"], "mon", "fri");
  }

  lemma NormalizeTitleCaseCodes()
    ensures NormalizeDays(StrList(["Mon", "Fri"])) == Ok(["mon", "fri"])
  {
    TitleCaseCodesLowered();
    NormalizeTwoDays(["Mon", "Fri"], "mon", "fri");
  }

  /** A title-case full name and an unknown token pass through lower-cased. */
  lemma NormalizeTitleCaseNames()
    ensures NormalizeDays(StrList(["Monday", "Holiday"])) == Ok(["monday", "holiday"])
  {
    TitleCaseNamesLowered();
    NormalizeTwoDays(["Monday", "Holiday"], "monday", "holiday");
  }

  /** The table is not idempotent: a title-case full name is lower-cased on
      the first pass and becomes a code only on the second. */
  lemma DayCodeNotIdempotent()
    ensures DayCode("Monday") == "monday"
    ensures DayCode(DayCode("Monday")) == "mon"
    ensures DayCode(DayCode("Monday")) != DayCode("Monday")
  {
    TitleCaseNamesLowered();
  }

  /** Every value of the table is a code. */
  lemma TableValuesAreCodes()
    ensures forall key :: key in DayMapping ==> DayMapping[key] in AllDays
  {
  }

  /** Every key of the table is at least six characters long or starts
      with a capital letter. */
  lemma TableKeyLengths()
    ensures forall key :: key in DayMapping ==> |key| >= 6 || (|key| == 3 && 'A' <= key[0] <= 'Z')
  {
  }

  /** The keys of the table are exactly the lower-case full names, the
      upper-case full names and the upper-case codes. */
  lemma TableKeysShape()
    ensures forall key :: key in DayMapping <==> key in FullNames || key in UpperFullNames || key in UpperDayCodes
    ensures forall i :: 0 <= i < 7 ==> Upper(FullNames[i]) == UpperFullNames[i] && Upper(AllDays[i]) == UpperDayCodes[i]
  {
    UpperNamesOfDays();
  }

  /** A code is not a key of the table, so it maps to itself. */
  lemma CodesAreFixed()
    ensures forall c :: c in AllDays ==> DayCode(c) == c && Upper(c) in ValidDayNames
  {
    forall c | c in AllDays
      ensures c !in DayMapping
    {
      assert |c| == 3 && 'a' <= c[0] <= 'z';
      TableKeyLengths();
    }
    LowerCodes();
    UpperCodes();
  }

  lemma LowerCodes()
    ensures forall c :: c in AllDays ==> Lower(c) == c
  {
    assert Lower("mon") == "mon" && Lower("tue") == "tue" && Lower("wed") == "wed" && Lower("thu") == "thu";
    assert Lower("fri") == "fri" && Lower("sat") == "sat" && Lower("sun") == "sun";
  }

  lemma UpperCodes()
    ensures forall c :: c in AllDays ==> Upper(c) in ValidDayNames
  {
    assert Upper("mon") == "MON" && Upper("tue") == "TUE" && Upper("wed") == "WED" && Upper("thu") == "THU";
    assert Upper("fri") == "FRI" && Upper("sat") == "SAT" && Upper("sun") == "SUN";
  }

  /** Each lower-case full name is a key of the table mapping to the code
      of its day, and upper-cased it is a valid day name. */
  lemma FullNamesAreKeys()
    ensures forall i :: 0 <= i < |FullNames| ==>
      FullNames[i] in DayMapping && DayCode(FullNames[i]) == AllDays[i] && Upper(FullNames[i]) in ValidDayNames
  {
    UpperNamesOfDays();
  }

  /** The valid names lower-case to a code or a full name. */
  lemma ValidNamesLowered()
    ensures forall u :: u in ValidDayNames ==> Lower(u) in AllDays || Lower(u) in FullNames
  {
    assert Lower("MON") == "mon" && Lower("TUE") == "tue" && Lower("WED") == "wed" && Lower("THU") == "thu";
    assert Lower("FRI") == "fri" && Lower("SAT") == "sat" && Lower("SUN") == "sun";
    assert Lower("MONDAY") == "monday" && Lower("TUESDAY") == "tuesday" && Lower("WEDNESDAY") == "wednesday";
    assert Lower("THURSDAY") == "thursday" && Lower("FRIDAY") == "friday";
    assert Lower("SATURDAY") == "saturday" && Lower("SUNDAY") == "sunday";
  }

  /** Every valid day name, in any letter case, becomes a code or a
      lower-case full name, and a second pass always gives the code. */
  lemma DayCodeOfValidName(d: string)
    requires Upper(d) in ValidDayNames
    ensures DayCode(d) in AllDays || DayCode(d) in FullNames
    ensures DayCode(DayCode(d)) in AllDays
    ensures Upper(DayCode(d)) in ValidDayNames
  {
    CodesAreFixed();
    FullNamesAreKeys();
    if d in DayMapping {
      TableValuesAreCodes();
    } else {
      CaseMapsAgree(d);
      ValidNamesLowered();
      assert DayCode(d) == Lower(Upper(d));
    }
  }

  /** The days of a valid day list normalize to a valid day list. */
  lemma NormalizedDaysValid(days: JSON)
    requires days.Arr? && forall i :: 0 <= i < |days.items| ==> days.items[i].Str?
    requires ValidateDays(seq(|days.items|, i requires 0 <= i < |days.items| => days.items[i].s))
    ensures NormalizeDays(days).Ok? && ValidateDays(NormalizeDays(days).value)
  {
    var r := NormalizeDays(days);
    if Truthy(days) {
      forall i | 0 <= i < |r.value|
        ensures Upper(r.value[i]) in ValidDayNames
      {
        var names := seq(|days.items|, i requires 0 <= i < |days.items| => days.items[i].s);
        assert Upper(names[i]) in ValidDayNames;
        DayCodeOfValidName(days.items[i].s);
      }
    } else {
      CodesAreFixed();
    }
  }

  // Time spans.

  /** The span every missing piece defaults to: all seven days, all day. */
  const DefaultSpan: JSON := Obj(map[
    "days_of_week" := StrList(AllDays),
    "time_of_day_start" := Str("00:00"),
    "time_of_day_end" := Str("23:59")])

  /** Keys other than `days`, `start_time` and `end_time` make no difference. */
  lemma SpanIgnoresOtherKeys(o: map<string, JSON>, k: string, v: JSON)
    requires k != "days" && k != "start_time" && k != "end_time"
    ensures NormalizedSpan(Obj(o[k := v])) == NormalizedSpan(Obj(o))
  {
    var o' := o[k := v];
    assert Get(o', "days", Arr([])) == Get(o, "days", Arr([]));
    assert Get(o', "start_time", Str("00:00")) == Get(o, "start_time", Str("00:00"));
    assert Get(o', "end_time", Str("23:59")) == Get(o, "end_time", Str("23:59"));
  }

  /** A span with none of the keys the normalizer reads is the default span. */
  lemma SpanWithoutSourceKeys(o: map<string, JSON>)
    requires "days" !in o && "start_time" !in o && "end_time" !in o
    ensures NormalizedSpan(Obj(o)) == Ok(DefaultSpan)
  {
  }

  /** A span written in the record's own keys, as the test fixtures and the
      backends' example format write it, is read as the default span: its days
      and times are lost. */
  lemma RecordKeyedSpanIgnored(t: TimeSpan)
    ensures NormalizedSpan(TimeSpanToJson(t)) == Ok(DefaultSpan)
  {
    SpanWithoutSourceKeys(TimeSpanToJson(t).fields);
  }

  /** A start or end that is present but null or empty also takes its
      default. */
  lemma FalsyTimesDefault()
    ensures NormalizedSpan(Obj(map["days" := StrList(["SAT"]), "start_time" := Null, "end_time" := Str("")]))
      == Ok(Obj(map["days_of_week" := StrList(["sat"]), "time_of_day_start" := Str("00:00"), "time_of_day_end" := Str("23:59")]))
  {
    var ss := ["SAT"];
    NormalizeDaysOfStrings(ss);
    var out := seq(|ss|, i requires 0 <= i < |ss| => DayCode(ss[i]));
    assert out[0] == "sat";
    assert out == ["sat"];
  }

  /** The default span is a valid time span record, and passes the span
      validator. */
  lemma DefaultSpanValid()
    ensures TimeSpanFromJson(DefaultSpan) == Ok(TimeSpan(AllDays, "00:00", "23:59"))
    ensures ValidateTimeSpan(AllDays, "00:00", "23:59")
  {
    TimeSpanRoundTrip(TimeSpan(AllDays, "00:00", "23:59"));
    assert TimeSpanToJson(TimeSpan(AllDays, "00:00", "23:59")) == DefaultSpan;
    CodesAreFixed();
    StrptimeTwoDigits("00:00");
    StrptimeTwoDigits("23:59");
  }

  // Rules.

  /** An empty rule is a parking rule and nothing else. */
  lemma EmptyRuleIsParking()
    ensures NormalizedRule(Obj(map[])) == Ok(Obj(map["activity" := Str("parking")]))
  {
  }

  /** A `rate` key of the source is dropped: only `payment` makes a rate. */
  lemma SourceRateDropped(o: map<string, JSON>)
    requires "payment" !in o
    ensures NormalizedRule(Obj(o)).Ok? && "rate" !in NormalizedRule(Obj(o)).value.fields
  {
  }

  /** A present `activity` is kept even when it is null, and a null activity
      then fails construction of the rule. */
  lemma NullActivityKept()
    ensures NormalizedRule(Obj(map["activity" := Null])) == Ok(Obj(map["activity" := Null]))
    ensures RuleFromJson(Obj(map["activity" := Null])) == Err(ValidationError)
  {
  }

  /** An empty payment becomes the default rate: 0 per hour, rolling. */
  lemma EmptyPaymentDefaults()
    ensures NormalizedRule(Obj(map["payment" := Obj(map[])]))
      == Ok(Obj(map["activity" := Str("parking"), "rate" := Obj(map["rate" := Num(0.0), "rate_unit" := Str("hour"), "rate_unit_period" := Str("rolling")])]))
  {
  }

  /** A payment that is not a dict is ignored. */
  lemma NonDictPaymentIgnored(o: map<string, JSON>)
    requires "payment" in o && !o["payment"].Obj?
    ensures NormalizedRule(Obj(o)).Ok? && "rate" !in NormalizedRule(Obj(o)).value.fields
  {
  }

  /** A payment rate that is a string has no modelled outcome, and one that
      is null fails. */
  lemma PaymentRateKinds()
    ensures NormalizedRule(Obj(map["payment" := Obj(map["rate" := Str("2.50")])])) == Err(NotModelled)
    ensures NormalizedRule(Obj(map["payment" := Obj(map["rate" := Null])])) == Err(TypeError)
    ensures NormalizedRule(Obj(map["payment" := Obj(map["rate" := Bool(true)])])).Ok?
  {
  }

  // Policies.

  /** The rate of a flat source item with a payment and no rules: one rule,
      the parking activity, and the payment with its period defaulted. */
  lemma FlatItemWithPayment()
    ensures PolicyRules(map["payment" := Obj(map["rate" := Num(2.5), "rate_unit" := Str("hour")])])
      == Ok([Obj(map["activity" := Str("parking"), "rate" := Obj(map["rate" := Num(2.5), "rate_unit" := Str("hour"), "rate_unit_period" := Str("rolling")])])])
  {
  }

  /** The rules of a policy: one per member of a `rules` list, in order and
      possibly none, or exactly one when there is no `rules` key. */
  lemma PolicyRulesCount(o: map<string, JSON>)
    requires PolicyRules(o).Ok?
    ensures "rules" !in o ==> |PolicyRules(o).value| == 1 && PolicyRules(o).value[0] == NormalizedRule(Obj(o)).value
    ensures "rules" in o && o["rules"].Arr? ==>
      |PolicyRules(o).value| == |o["rules"].items|
      && forall i :: 0 <= i < |o["rules"].items| ==> PolicyRules(o).value[i] == NormalizedRule(o["rules"].items[i]).value
  {
  }

  /** A policy dict has exactly the id, the timestamp, the time spans and the
      rules; the id is the position, the time spans are always there. */
  lemma PolicyDictShape(idx: nat, o: map<string, JSON>, stamp: int)
    ensures PolicyDict(idx, Obj(o), stamp).Ok? <==> PolicySpans(o).Ok? && PolicyRules(o).Ok?
    ensures PolicyDict(idx, Obj(o), stamp).Ok? ==>
      var p := PolicyDict(idx, Obj(o), stamp).value;
      p.Obj? && p.fields.Keys == {"curb_policy_id", "published_date", "time_spans", "rules"}
      && p.fields["curb_policy_id"] == Str(NatToString(idx))
      && p.fields["published_date"] == IntToJson(stamp)
      && p.fields["time_spans"] == Arr(PolicySpans(o).value)
      && p.fields["rules"] == Arr(PolicyRules(o).value)
    ensures "time_spans" !in o && PolicyDict(idx, Obj(o), stamp).Ok? ==>
      PolicyDict(idx, Obj(o), stamp).value.fields["time_spans"] == Arr([])
  {
    if PolicySpans(o).Ok? && PolicyRules(o).Ok? {
      var m := map[
        "curb_policy_id" := Str(NatToString(idx)),
        "published_date" := IntToJson(stamp),
        "time_spans" := Arr(PolicySpans(o).value),
        "rules" := Arr(PolicyRules(o).value)];
      assert PolicyDict(idx, Obj(o), stamp) == Ok(Obj(m));
    }
  }

  /** Decimal notation is injective, so positional ids are distinct. */
  lemma {:induction false} NatToStringInjective(a: nat, b: nat)
    requires NatToString(a) == NatToString(b)
    ensures a == b
    decreases a
  {
    if a >= 10 && b >= 10 {
      var sa, sb := NatToString(a), NatToString(b);
      assert sa[..|sa| - 1] == NatToString(a / 10);
      assert sb[..|sb| - 1] == NatToString(b / 10);
      NatToStringInjective(a / 10, b / 10);
      assert DigitChar(a % 10) == DigitChar(b % 10);
    }
  }

  // The envelope and the record.

  /** A policy dict that was built came from a dict, and gives its id and
      timestamp. */
  lemma PolicyDictStamps(idx: nat, item: JSON, stamp: int)
    requires PolicyDict(idx, item, stamp).Ok?
    ensures item.Obj?
    ensures var p := PolicyDict(idx, item, stamp).value;
      GivesIdAndDate(p)
      && p.fields["curb_policy_id"] == Str(NatToString(idx))
      && p.fields["published_date"] == IntToJson(stamp)
  {
    PolicyDictShape(idx, item.fields, stamp);
  }

  /** The policies of a successful envelope: one per source item, in order,
      each the policy dict of its position with its own clock reading. */
  lemma EnvelopePolicies(data: JSON, location: JSON, clock: nat -> int)
    requires Envelope(data, location, clock).Ok?
    ensures SourcePolicies(data).Ok? && LoopItems(SourcePolicies(data).value).Ok?
    ensures var items, ps := LoopItems(SourcePolicies(data).value).value, Envelope(data, location, clock).value["policies"];
      ps.Arr? && |ps.items| == |items|
      && forall i :: 0 <= i < |items| ==>
        items[i].Obj? && PolicyDict(i, items[i], clock(i + 1)) == Ok(ps.items[i])
        && GivesIdAndDate(ps.items[i])
        && ps.items[i].fields["curb_policy_id"] == Str(NatToString(i))
        && ps.items[i].fields["published_date"] == IntToJson(clock(i + 1))
  {
    var items := LoopItems(SourcePolicies(data).value).value;
    var pd := PolicyDicts(items, clock).value;
    assert Envelope(data, location, clock).value["policies"] == Arr(pd);
    forall i | 0 <= i < |items|
      ensures items[i].Obj? && PolicyDict(i, items[i], clock(i + 1)) == Ok(pd[i])
        && GivesIdAndDate(pd[i])
        && pd[i].fields["curb_policy_id"] == Str(NatToString(i))
        && pd[i].fields["published_date"] == IntToJson(clock(i + 1))
    {
      PolicyDictStamps(i, items[i], clock(i + 1));
    }
  }

  /** A reply that is not JSON gives the empty record: no policies, no
      location, the default version and currency, and the first clock
      reading. */
  lemma DecodeFailureResult(location: JSON, clock: nat -> int, f: Factories)
    ensures ParsedResponse(DecodeError, location, clock, f)
      == Ok(SignData("1.0", None, clock(0), "USD", None, [], None, None))
  {
    var o := FallbackArgs(clock);
    assert AsInt(o["last_updated"]) == Ok(clock(0));
  }

  /** The typed policy built from a policy dict: its id is its position,
      its timestamp its clock reading, its time spans always present, and its
      spans and rules those normalized from the source item. */
  predicate PolicyRecordOf(p: CurbPolicy, idx: nat, o: map<string, JSON>, stamp: int) {
    p.curbPolicyId == NatToString(idx) && p.publishedDate == stamp
    && p.priority == None && p.dataSourceOperatorId == None
    && PolicySpans(o).Ok? && p.timeSpans != None
    && TimeSpansFromJson(Arr(PolicySpans(o).value)) == Ok(p.timeSpans.value)
    && PolicyRules(o).Ok? && RulesFromJson(Arr(PolicyRules(o).value)) == Ok(p.rules)
  }

  lemma PolicyRecordShape(idx: nat, o: map<string, JSON>, stamp: int, f: Factories)
    requires PolicyDict(idx, Obj(o), stamp).Ok?
    requires CurbPolicyFromJson(PolicyDict(idx, Obj(o), stamp).value, f).Ok?
    ensures PolicyRecordOf(CurbPolicyFromJson(PolicyDict(idx, Obj(o), stamp).value, f).value, idx, o, stamp)
  {
    var pd := PolicyDict(idx, Obj(o), stamp).value;
    var p := CurbPolicyFromJson(pd, f).value;
    PolicyDictShape(idx, o, stamp);
    CurbPolicyFieldsOf(pd, f);
    assert IntToJson(stamp) == IntToJson(p.publishedDate);
  }

  /** The envelope fields of the record of a decoded reply: the fixed
      version and currency, the first clock reading, and the location exactly
      when it is truthy. */
  lemma ParsedEnvelopeShape(data: JSON, location: JSON, clock: nat -> int, f: Factories)
    requires ParsedResponse(Decoded(data), location, clock, f).Ok?
    ensures var d := ParsedResponse(Decoded(data), location, clock, f).value;
      d.version == "1.0" && d.currency == "USD" && d.lastUpdated == clock(0)
      && d.timeZone == None && d.author == None && d.licenseUrl == None
      && (d.location != None <==> Truthy(location))
      && (d.location != None ==> LocationFromJson(location) == Ok(d.location.value))
  {
    EnvelopeRecord(Envelope(data, location, clock).value, location, clock(0), f);
  }

  /** The record made from envelope arguments with the fixed version and
      currency, a timestamp, and a location exactly when it is truthy. */
  lemma EnvelopeRecord(env: map<string, JSON>, location: JSON, stamp: int, f: Factories)
    requires env.Keys == {"version", "currency", "last_updated", "policies"} + (if Truthy(location) then {"location"} else {})
    requires env["version"] == Str("1.0") && env["currency"] == Str("USD")
    requires env["last_updated"] == IntToJson(stamp)
    requires Truthy(location) ==> env["location"] == location
    requires SignDataFromJson(env, f).Ok?
    ensures var d := SignDataFromJson(env, f).value;
      d.version == "1.0" && d.currency == "USD" && d.lastUpdated == stamp
      && d.timeZone == None && d.author == None && d.licenseUrl == None
      && (d.location != None <==> Truthy(location))
      && (d.location != None ==> LocationFromJson(location) == Ok(d.location.value))
  {
    var d := SignDataFromJson(env, f).value;
    SignDataFieldsOf(env, f);
    assert IntToJson(stamp) == IntToJson(d.lastUpdated);
  }

  /** The policies of the record of a decoded reply: one per source item,
      each the record of that item's policy dict. */
  lemma ParsedPoliciesShape(data: JSON, location: JSON, clock: nat -> int, f: Factories)
    requires ParsedResponse(Decoded(data), location, clock, f).Ok?
    ensures SourcePolicies(data).Ok? && LoopItems(SourcePolicies(data).value).Ok?
    ensures var d, items := ParsedResponse(Decoded(data), location, clock, f).value, LoopItems(SourcePolicies(data).value).value;
      |d.policies| == |items|
      && forall i :: 0 <= i < |items| ==>
        items[i].Obj? && PolicyRecordOf(d.policies[i], i, items[i].fields, clock(i + 1))
  {
    var env := Envelope(data, location, clock).value;
    var d := SignDataFromJson(env, f).value;
    EnvelopePolicies(data, location, clock);
    SignDataFieldsOf(env, f);
    var items := LoopItems(SourcePolicies(data).value).value;
    var ps := env["policies"].items;
    forall i | 0 <= i < |items|
      ensures PolicyRecordOf(d.policies[i], i, items[i].fields, clock(i + 1))
    {
      assert CurbPolicyFromJson(ps[i], f) == Ok(d.policies[i]);
      PolicyRecordShape(i, items[i].fields, clock(i + 1), f);
    }
  }

  /** What the record of a decoded reply holds: the fixed envelope, the
      location exactly when it is truthy, and one policy per source item. */
  lemma ParsedRecordShape(data: JSON, location: JSON, clock: nat -> int, f: Factories)
    requires ParsedResponse(Decoded(data), location, clock, f).Ok?
    ensures SourcePolicies(data).Ok? && LoopItems(SourcePolicies(data).value).Ok?
    ensures var d := ParsedResponse(Decoded(data), location, clock, f).value;
      d.version == "1.0" && d.currency == "USD" && d.lastUpdated == clock(0)
      && d.timeZone == None && d.author == None && d.licenseUrl == None
      && (d.location != None <==> Truthy(location))
      && (d.location != None ==> LocationFromJson(location) == Ok(d.location.value))
    ensures var d, items := ParsedResponse(Decoded(data), location, clock, f).value, LoopItems(SourcePolicies(data).value).value;
      |d.policies| == |items|
      && forall i :: 0 <= i < |items| ==>
        items[i].Obj? && PolicyRecordOf(d.policies[i], i, items[i].fields, clock(i + 1))
  {
    ParsedEnvelopeShape(data, location, clock, f);
    ParsedPoliciesShape(data, location, clock, f);
  }

  /** The default id and timestamp factories are never used: the parser
      gives every id and timestamp itself. */
  lemma ParsedResponseIgnoresFactories(decoded: Decoded, location: JSON, clock: nat -> int, f1: Factories, f2: Factories)
    ensures ParsedResponse(decoded, location, clock, f1) == ParsedResponse(decoded, location, clock, f2)
  {
    if decoded.Decoded? && Envelope(decoded.value, location, clock).Ok? {
      EnvelopePolicies(decoded.value, location, clock);
      SignDataIgnoresFactories(Envelope(decoded.value, location, clock).value, f1, f2);
    } else if decoded.DecodeError? {
      SignDataIgnoresFactories(FallbackArgs(clock), f1, f2);
    }
  }

  // Only the timestamps depend on the clock.

  /** Whether a policy dict is made does not depend on its timestamp, and
      neither does the error when it is not. */
  lemma PolicyDictOutcomeStampFree(idx: nat, item: JSON, s1: int, s2: int)
    ensures PolicyDict(idx, item, s1).Ok? == PolicyDict(idx, item, s2).Ok?
    ensures PolicyDict(idx, item, s1).Err? ==> PolicyDict(idx, item, s1).error == PolicyDict(idx, item, s2).error
  {
    if item.Obj? {
      PolicyDictShape(idx, item.fields, s1);
      PolicyDictShape(idx, item.fields, s2);
    }
  }

  lemma PolicyDictsOutcomeClockFree(items: seq<JSON>, c1: nat -> int, c2: nat -> int)
    ensures PolicyDicts(items, c1).Ok? == PolicyDicts(items, c2).Ok?
    ensures PolicyDicts(items, c1).Err? ==> PolicyDicts(items, c1).error == PolicyDicts(items, c2).error
  {
    var pairs := Enumerate(items);
    forall i | 0 <= i < |pairs|
      ensures PolicyStep(c1)(pairs[i]).Ok? == PolicyStep(c2)(pairs[i]).Ok?
      ensures PolicyStep(c1)(pairs[i]).Err? ==> PolicyStep(c1)(pairs[i]).error == PolicyStep(c2)(pairs[i]).error
    {
      PolicyDictOutcomeStampFree(i, items[i], c1(i + 1), c2(i + 1));
    }
    MapAllSameOutcome(pairs, PolicyStep(c1), PolicyStep(c2));
    assert PolicyDicts(items, c1) == MapAll(pairs, PolicyStep(c1));
    assert PolicyDicts(items, c2) == MapAll(pairs, PolicyStep(c2));
  }

  lemma EnvelopeOutcomeClockFree(data: JSON, location: JSON, c1: nat -> int, c2: nat -> int)
    ensures Envelope(data, location, c1).Ok? == Envelope(data, location, c2).Ok?
    ensures Envelope(data, location, c1).Err? ==> Envelope(data, location, c1).error == Envelope(data, location, c2).error
  {
    if SourcePolicies(data).Ok? && LoopItems(SourcePolicies(data).value).Ok? {
      PolicyDictsOutcomeClockFree(LoopItems(SourcePolicies(data).value).value, c1, c2);
    }
  }

  /** A source item that makes a valid policy: a dict whose normalized time
      spans and rules are valid records. Nothing here depends on the clock. */
  predicate PolicyBuildable(item: JSON) {
    item.Obj? && PolicySpans(item.fields).Ok? && PolicyRules(item.fields).Ok?
    && TimeSpansFromJson(Arr(PolicySpans(item.fields).value)).Ok?
    && RulesFromJson(Arr(PolicyRules(item.fields).value)).Ok?
  }

  /** A decoded reply that makes a record: its source list can be iterated,
      every item makes a valid policy, and a truthy location is a valid
      location. */
  predicate ReplyBuildable(data: JSON, location: JSON) {
    SourcePolicies(data).Ok? && LoopItems(SourcePolicies(data).value).Ok?
    && (forall item | item in LoopItems(SourcePolicies(data).value).value :: PolicyBuildable(item))
    && (Truthy(location) ==> LocationFromJson(location).Ok?)
  }

  lemma PolicyBuilds(idx: nat, item: JSON, stamp: int, f: Factories)
    requires PolicyBuildable(item)
    ensures PolicyDict(idx, item, stamp).Ok?
    ensures CurbPolicyFromJson(PolicyDict(idx, item, stamp).value, f).Ok?
  {
    PolicyDictShape(idx, item.fields, stamp);
    var pd := PolicyDict(idx, item, stamp).value.fields;
    assert AsInt(IntToJson(stamp)) == Ok(stamp);
    CurbPolicyBuilds(pd, f);
  }

  /** A record is made only from a buildable reply. */
  lemma ParsedOnlyIfBuildable(data: JSON, location: JSON, clock: nat -> int, f: Factories)
    requires ParsedResponse(Decoded(data), location, clock, f).Ok?
    ensures ReplyBuildable(data, location)
  {
    ParsedRecordShape(data, location, clock, f);
    var d := ParsedResponse(Decoded(data), location, clock, f).value;
    var items := LoopItems(SourcePolicies(data).value).value;
    forall item | item in items
      ensures PolicyBuildable(item)
    {
      var i :| 0 <= i < |items| && items[i] == item;
      assert PolicyRecordOf(d.policies[i], i, items[i].fields, clock(i + 1));
    }
  }

  /** A buildable reply makes the record's arguments, and every policy dict
      in them makes a policy. */
  lemma BuildableEnvelope(data: JSON, location: JSON, clock: nat -> int, f: Factories)
    requires ReplyBuildable(data, location)
    ensures Envelope(data, location, clock).Ok?
    ensures PoliciesFromJson(Envelope(data, location, clock).value["policies"], f).Ok?
  {
    var items := LoopItems(SourcePolicies(data).value).value;
    forall i | 0 <= i < |items|
      ensures PolicyDict(i, items[i], clock(i + 1)).Ok?
      ensures CurbPolicyFromJson(PolicyDict(i, items[i], clock(i + 1)).value, f).Ok?
    {
      assert items[i] in items;
      PolicyBuilds(i, items[i], clock(i + 1), f);
    }
    assert Envelope(data, location, clock).Ok?;
    EnvelopePolicies(data, location, clock);
  }

  /** Envelope arguments with the fixed version and currency, a timestamp,
      a valid location when it is truthy, and valid policies make a record. */
  lemma EnvelopeBuilds(env: map<string, JSON>, location: JSON, stamp: int, f: Factories)
    requires env.Keys == {"version", "currency", "last_updated", "policies"} + (if Truthy(location) then {"location"} else {})
    requires env["version"] == Str("1.0") && env["currency"] == Str("USD")
    requires env["last_updated"] == IntToJson(stamp)
    requires Truthy(location) ==> env["location"] == location && LocationFromJson(location).Ok?
    requires PoliciesFromJson(env["policies"], f).Ok?
    ensures SignDataFromJson(env, f).Ok?
  {
    assert AsInt(IntToJson(stamp)) == Ok(stamp);
    SignDataBuilds(env, f);
  }

  /** A buildable reply makes a record. */
  lemma BuildableParses(data: JSON, location: JSON, clock: nat -> int, f: Factories)
    requires ReplyBuildable(data, location)
    ensures ParsedResponse(Decoded(data), location, clock, f).Ok?
  {
    BuildableEnvelope(data, location, clock, f);
    EnvelopeBuilds(Envelope(data, location, clock).value, location, clock(0), f);
  }

  /** A decoded reply makes a record exactly when it is buildable, whatever
      the clock and the factories. */
  lemma ParsedSucceedsIff(data: JSON, location: JSON, clock: nat -> int, f: Factories)
    ensures ParsedResponse(Decoded(data), location, clock, f).Ok? <==> ReplyBuildable(data, location)
  {
    if ParsedResponse(Decoded(data), location, clock, f).Ok? {
      ParsedOnlyIfBuildable(data, location, clock, f);
    }
    if ReplyBuildable(data, location) {
      BuildableParses(data, location, clock, f);
    }
  }

  /** An outcome with its timestamps taken out. */
  function Unstamped(r: Result<SignData, Error>): Result<SignData, Error> {
    match r
    case Err(e) => Err(e)
    case Ok(d) =>
      Ok(d.(lastUpdated := 0,
            policies := seq(|d.policies|, i requires 0 <= i < |d.policies| => d.policies[i].(publishedDate := 0))))
  }

  /** Two policies made from the same item at the same position agree but
      for their timestamps. */
  lemma PolicyRecordsAgree(p1: CurbPolicy, p2: CurbPolicy, idx: nat, o: map<string, JSON>, s1: int, s2: int)
    requires PolicyRecordOf(p1, idx, o, s1) && PolicyRecordOf(p2, idx, o, s2)
    ensures p1.(publishedDate := 0) == p2.(publishedDate := 0)
  {
  }

  /** Two records that agree but for their timestamps have the same
      unstamped outcome. */
  lemma UnstampedAgree(d1: SignData, d2: SignData)
    requires d1.(lastUpdated := 0, policies := []) == d2.(lastUpdated := 0, policies := [])
    requires |d1.policies| == |d2.policies|
    requires forall i :: 0 <= i < |d1.policies| ==> d1.policies[i].(publishedDate := 0) == d2.policies[i].(publishedDate := 0)
    ensures Unstamped(Ok(d1)) == Unstamped(Ok(d2))
  {
    var u1, u2 := Unstamped(Ok(d1)).value, Unstamped(Ok(d2)).value;
    assert u1.policies == u2.policies;
  }

  /** Two records made from the same reply at different times agree but for
      their timestamps. */
  lemma RecordsAgreeButStamps(data: JSON, location: JSON, c1: nat -> int, c2: nat -> int, f: Factories)
    requires ParsedResponse(Decoded(data), location, c1, f).Ok?
    requires ParsedResponse(Decoded(data), location, c2, f).Ok?
    ensures Unstamped(ParsedResponse(Decoded(data), location, c1, f)) == Unstamped(ParsedResponse(Decoded(data), location, c2, f))
  {
    var d1, d2 := ParsedResponse(Decoded(data), location, c1, f).value, ParsedResponse(Decoded(data), location, c2, f).value;
    ParsedEnvelopeShape(data, location, c1, f);
    ParsedEnvelopeShape(data, location, c2, f);
    ParsedPoliciesShape(data, location, c1, f);
    ParsedPoliciesShape(data, location, c2, f);
    var items := LoopItems(SourcePolicies(data).value).value;
    forall i | 0 <= i < |d1.policies|
      ensures d1.policies[i].(publishedDate := 0) == d2.policies[i].(publishedDate := 0)
    {
      PolicyRecordsAgree(d1.policies[i], d2.policies[i], i, items[i].fields, c1(i + 1), c2(i + 1));
    }
    UnstampedAgree(d1, d2);
  }

  /** Parsing the same reply at two different times gives the same outcome
      but for the timestamps. */
  lemma OnlyTimestampsDiffer(decoded: Decoded, location: JSON, c1: nat -> int, c2: nat -> int, f: Factories)
    ensures Unstamped(ParsedResponse(decoded, location, c1, f)) == Unstamped(ParsedResponse(decoded, location, c2, f))
  {
    match decoded
    case DecodeError =>
      DecodeFailureResult(location, c1, f);
      DecodeFailureResult(location, c2, f);
    case Decoded(data) =>
      ParsedSucceedsIff(data, location, c1, f);
      ParsedSucceedsIff(data, location, c2, f);
      if ParsedResponse(decoded, location, c1, f).Ok? {
        RecordsAgreeButStamps(data, location, c1, c2, f);
      } else {
        EnvelopeOutcomeClockFree(data, location, c1, c2);
      }
  }

  /** A reply whose envelope is made but one of whose items does not make a
      valid policy fails with a validation error. */
  lemma UnbuildableItemRejectsReply(data: JSON, location: JSON, clock: nat -> int, f: Factories, item: JSON)
    requires Envelope(data, location, clock).Ok?
    requires item in LoopItems(SourcePolicies(data).value).value && !PolicyBuildable(item)
    ensures ParsedResponse(Decoded(data), location, clock, f) == Err(ValidationError)
  {
    ParsedSucceedsIff(data, location, clock, f);
  }

  const WeeklyPayment: JSON := Obj(map["payment" := Obj(map["rate" := Num(1.0), "rate_unit_period" := Str("weekly")])])

  /** The rule of a payment with the period `weekly`, which no rate accepts. */
  lemma WeeklyPaymentRule()
    ensures PolicyRules(WeeklyPayment.fields).Ok?
    ensures !RulesFromJson(Arr(PolicyRules(WeeklyPayment.fields).value)).Ok?
  {
    var rule := Obj(map["activity" := Str("parking"),
      "rate" := Obj(map["rate" := Num(1.0), "rate_unit" := Str("hour"), "rate_unit_period" := Str("weekly")])]);
    assert NormalizedRule(WeeklyPayment) == Ok(rule);
    assert PolicyRules(WeeklyPayment.fields) == Ok([rule]);
    assert RuleFromJson(rule).Err?;
    assert !RulesFromJson(Arr([rule])).Ok?;
  }

  const WeeklyReply: JSON := Obj(map["policies" := Arr([WeeklyPayment])])

  /** The reply whose one policy is the weekly payment gives that one item
      and a policy dict for it. */
  lemma WeeklyReplyEnvelope(location: JSON, clock: nat -> int)
    ensures LoopItems(SourcePolicies(WeeklyReply).value) == Ok([WeeklyPayment])
    ensures Envelope(WeeklyReply, location, clock).Ok?
  {
    assert SourcePolicies(WeeklyReply) == Ok(Arr([WeeklyPayment]));
    WeeklyPolicyDict(clock(1));
    assert PolicyDicts([WeeklyPayment], clock).Ok?;
  }

  /** The weekly payment item makes a policy dict. */
  lemma WeeklyPolicyDict(stamp: int)
    ensures PolicyDict(0, WeeklyPayment, stamp).Ok?
  {
    WeeklyPaymentRule();
    assert PolicySpans(WeeklyPayment.fields) == Ok([]);
  }

  /** A payment with a rate period outside the closed set makes the whole
      parse fail with a validation error. */
  lemma UnknownPeriodRejectsReply(location: JSON, clock: nat -> int, f: Factories)
    ensures ParsedResponse(Decoded(WeeklyReply), location, clock, f) == Err(ValidationError)
  {
    WeeklyPaymentRule();
    WeeklyReplyEnvelope(location, clock);
    UnbuildableItemRejectsReply(WeeklyReply, location, clock, f, WeeklyPayment);
  }
}
