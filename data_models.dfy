/** The CDS-style record types the parser builds, and their construction from
    keyword arguments the way the record classes validate them: a required field
    that is missing fails, a field with a default takes it when missing, an
    optional field accepts null, a field of the wrong type fails, and keys the
    record does not declare are ignored. Every construction failure is one
    ValidationError. `ToJson` functions give each record's serialised form with
    its canonical field names, and construction reads that form back. */
module DataModels {
  import opened Wrappers
  import opened Errors
  import opened Json

  /** The activity tags of the CDS vocabulary. No record field has this type:
      `Rule.activity` is free text. */
  datatype RegulationType =
    | NoParking | NoStopping | Parking | Loading
    | PaidParking | TimeLimited | PassengerLoading | CommercialLoading

  function RegulationTag(t: RegulationType): string {
    match t
    case NoParking => "no_parking"
    case NoStopping => "no_stopping"
    case Parking => "parking"
    case Loading => "loading"
    case PaidParking => "paid_parking"
    case TimeLimited => "time_limited"
    case PassengerLoading => "passenger_loading"
    case CommercialLoading => "commercial_loading"
  }

  /** `RegulationType(s)`: the member whose value is `s`, if any. */
  function RegulationTypeOf(s: string): (r: Option<RegulationType>)
    ensures r.Some? ==> RegulationTag(r.value) == s
    ensures r.None? ==> forall t :: RegulationTag(t) != s
  {
    if s == "no_parking" then Some(NoParking)
    else if s == "no_stopping" then Some(NoStopping)
    else if s == "parking" then Some(Parking)
    else if s == "loading" then Some(Loading)
    else if s == "paid_parking" then Some(PaidParking)
    else if s == "time_limited" then Some(TimeLimited)
    else if s == "passenger_loading" then Some(PassengerLoading)
    else if s == "commercial_loading" then Some(CommercialLoading)
    else None
  }

  /** The closed set of rate periods. */
  datatype RateUnitPeriod = Rolling | Calendar

  function PeriodTag(p: RateUnitPeriod): string {
    match p
    case Rolling => "rolling"
    case Calendar => "calendar"
  }

  /** A `rate_unit_period` value: one of the two tags, nothing else. */
  function PeriodFromJson(v: JSON): (r: Result<RateUnitPeriod, Error>)
    ensures r.Ok? <==> v == Str("rolling") || v == Str("calendar")
    ensures r.Ok? ==> v == Str(PeriodTag(r.value))
    ensures r.Err? ==> r.error == ValidationError
  {
    if v == Str("rolling") then Ok(Rolling)
    else if v == Str("calendar") then Ok(Calendar)
    else Err(ValidationError)
  }

  datatype Rate = Rate(rate: real, rateUnit: string, rateUnitPeriod: RateUnitPeriod)

  datatype TimeSpan = TimeSpan(daysOfWeek: seq<string>, timeOfDayStart: string, timeOfDayEnd: string)

  datatype Rule = Rule(
    activity: string,
    maxStay: Option<int>,
    userClasses: Option<seq<string>>,
    rate: Option<Rate>)

  datatype CurbPolicy = CurbPolicy(
    curbPolicyId: string,
    publishedDate: int,
    priority: Option<int>,
    timeSpans: Option<seq<TimeSpan>>,
    rules: seq<Rule>,
    dataSourceOperatorId: Option<seq<string>>)

  /** `typeName` is the record's `type` field. */
  datatype Location = Location(typeName: string, coordinates: seq<real>)

  datatype SignData = SignData(
    version: string,
    timeZone: Option<string>,
    lastUpdated: int,
    currency: string,
    location: Option<Location>,
    policies: seq<CurbPolicy>,
    author: Option<string>,
    licenseUrl: Option<string>)

  /** What the default factories return: a fresh uuid string for a policy id
      and the current time in epoch milliseconds. */
  datatype Factories = Factories(uuid: string, nowMillis: int)

  // Field conversions.

  function AsStr(v: JSON): (r: Result<string, Error>)
    ensures r.Ok? <==> v.Str?
    ensures r.Ok? ==> v == Str(r.value)
    ensures r.Err? ==> r.error == ValidationError
  {
    if v.Str? then Ok(v.s) else Err(ValidationError)
  }

  /** An `int` field takes a number without a fractional part. */
  function AsInt(v: JSON): (r: Result<int, Error>)
    ensures r.Ok? <==> v.Num? && v.n == v.n.Floor as real
    ensures r.Ok? ==> v == Num(r.value as real)
    ensures r.Err? ==> r.error == ValidationError
  {
    if v.Num? && v.n == v.n.Floor as real then Ok(v.n.Floor) else Err(ValidationError)
  }

  function AsReal(v: JSON): (r: Result<real, Error>)
    ensures r.Ok? <==> v.Num?
    ensures r.Ok? ==> v == Num(r.value)
    ensures r.Err? ==> r.error == ValidationError
  {
    if v.Num? then Ok(v.n) else Err(ValidationError)
  }

  function AsStrs(v: JSON): (r: Result<seq<string>, Error>)
    ensures r.Ok? <==> v.Arr? && forall i :: 0 <= i < |v.items| ==> v.items[i].Str?
    ensures r.Ok? ==> v == StrList(r.value)
    ensures r.Err? ==> r.error == ValidationError
  {
    if v.Arr? && forall i :: 0 <= i < |v.items| ==> v.items[i].Str? then
      Ok(seq(|v.items|, i requires 0 <= i < |v.items| => v.items[i].s))
    else
      Err(ValidationError)
  }

  function AsReals(v: JSON): (r: Result<seq<real>, Error>)
    ensures r.Ok? <==> v.Arr? && forall i :: 0 <= i < |v.items| ==> v.items[i].Num?
    ensures r.Ok? ==> v == RealList(r.value)
    ensures r.Err? ==> r.error == ValidationError
  {
    if v.Arr? && forall i :: 0 <= i < |v.items| ==> v.items[i].Num? then
      Ok(seq(|v.items|, i requires 0 <= i < |v.items| => v.items[i].n))
    else
      Err(ValidationError)
  }

  function RealList(xs: seq<real>): JSON {
    Arr(seq(|xs|, i requires 0 <= i < |xs| => Num(xs[i])))
  }

  /** A field with no default: missing is a failure. */
  function Required<T>(o: map<string, JSON>, key: string, convert: JSON -> Result<T, Error>): Result<T, Error> {
    if key in o then convert(o[key]) else Err(ValidationError)
  }

  /** A field with a default, which a missing key takes; a present null is
      converted like any other value. */
  function Defaulted<T>(o: map<string, JSON>, key: string, default: T, convert: JSON -> Result<T, Error>): Result<T, Error> {
    if key in o then convert(o[key]) else Ok(default)
  }

  /** An `Optional[...] = None` field: missing or null is None. */
  function Optional<T>(o: map<string, JSON>, key: string, convert: JSON -> Result<T, Error>): (r: Result<Option<T>, Error>)
    ensures key !in o || o[key] == Null ==> r == Ok(None)
    ensures key in o && o[key] != Null ==> (r.Ok? <==> convert(o[key]).Ok?)
    ensures key in o && o[key] != Null && r.Ok? ==> r.value == Some(convert(o[key]).value)
    ensures r.Err? ==> key in o && o[key] != Null && r.error == convert(o[key]).error
  {
    if key !in o || o[key] == Null then Ok(None)
    else
      var x :- convert(o[key]);
      Ok(Some(x))
  }

  /** A `List[...]` field: a list whose every item converts; any failure is
      reported as the one ValidationError of the construction. */
  function ListOf<T>(v: JSON, convert: JSON -> Result<T, Error>): (r: Result<seq<T>, Error>)
    ensures r.Ok? <==> v.Arr? && forall i :: 0 <= i < |v.items| ==> convert(v.items[i]).Ok?
    ensures r.Ok? ==> |r.value| == |v.items| && forall i :: 0 <= i < |v.items| ==> r.value[i] == convert(v.items[i]).value
    ensures r.Err? ==> r.error == ValidationError
  {
    if !v.Arr? then Err(ValidationError)
    else
      var all := MapAll(v.items, convert);
      if all.Err? then Err(ValidationError) else all
  }

  // Record construction.

  function RateFromJson(v: JSON): (r: Result<Rate, Error>)
    ensures r.Err? ==> r.error == ValidationError
  {
    if !v.Obj? then Err(ValidationError)
    else
      var o := v.fields;
      var rate :- Required(o, "rate", AsReal);
      var rateUnit :- Required(o, "rate_unit", AsStr);
      var period :- Required(o, "rate_unit_period", PeriodFromJson);
      Ok(Rate(rate, rateUnit, period))
  }

  function TimeSpanFromJson(v: JSON): (r: Result<TimeSpan, Error>)
    ensures r.Err? ==> r.error == ValidationError
  {
    if !v.Obj? then Err(ValidationError)
    else
      var o := v.fields;
      var days :- Required(o, "days_of_week", AsStrs);
      var start :- Required(o, "time_of_day_start", AsStr);
      var end :- Required(o, "time_of_day_end", AsStr);
      Ok(TimeSpan(days, start, end))
  }

  function RuleFromJson(v: JSON): (r: Result<Rule, Error>)
    ensures r.Err? ==> r.error == ValidationError
  {
    if !v.Obj? then Err(ValidationError)
    else
      var o := v.fields;
      var activity :- Required(o, "activity", AsStr);
      var maxStay :- Optional(o, "max_stay", AsInt);
      var userClasses :- Optional(o, "user_classes", AsStrs);
      var rate :- Optional(o, "rate", RateFromJson);
      Ok(Rule(activity, maxStay, userClasses, rate))
  }

  function TimeSpansFromJson(v: JSON): (r: Result<seq<TimeSpan>, Error>)
    ensures r.Err? ==> r.error == ValidationError
  {
    ListOf(v, TimeSpanFromJson)
  }

  function RulesFromJson(v: JSON): (r: Result<seq<Rule>, Error>)
    ensures r.Err? ==> r.error == ValidationError
  {
    ListOf(v, RuleFromJson)
  }

  function CurbPolicyFromJson(v: JSON, f: Factories): (r: Result<CurbPolicy, Error>)
    ensures r.Err? ==> r.error == ValidationError
  {
    if !v.Obj? then Err(ValidationError)
    else
      var o := v.fields;
      var id :- Defaulted(o, "curb_policy_id", f.uuid, AsStr);
      var published :- Defaulted(o, "published_date", f.nowMillis, AsInt);
      var priority :- Optional(o, "priority", AsInt);
      var spans :- Optional(o, "time_spans", TimeSpansFromJson);
      var rules :- Required(o, "rules", RulesFromJson);
      var operators :- Optional(o, "data_source_operator_id", AsStrs);
      Ok(CurbPolicy(id, published, priority, spans, rules, operators))
  }

  function PoliciesFromJson(v: JSON, f: Factories): (r: Result<seq<CurbPolicy>, Error>)
    ensures r.Err? ==> r.error == ValidationError
  {
    ListOf(v, p => CurbPolicyFromJson(p, f))
  }

  function LocationFromJson(v: JSON): (r: Result<Location, Error>)
    ensures r.Err? ==> r.error == ValidationError
  {
    if !v.Obj? then Err(ValidationError)
    else
      var o := v.fields;
      var typeName :- Defaulted(o, "type", "Point", AsStr);
      var coordinates :- Required(o, "coordinates", AsReals);
      Ok(Location(typeName, coordinates))
  }

  /** `SignData(**kwargs)`. */
  function SignDataFromJson(o: map<string, JSON>, f: Factories): (r: Result<SignData, Error>)
    ensures r.Err? ==> r.error == ValidationError
  {
    var version :- Defaulted(o, "version", "1.0", AsStr);
    var timeZone :- Optional(o, "time_zone", AsStr);
    var lastUpdated :- Defaulted(o, "last_updated", f.nowMillis, AsInt);
    var currency :- Defaulted(o, "currency", "USD", AsStr);
    var location :- Optional(o, "location", LocationFromJson);
    var policies :- Required(o, "policies", v => PoliciesFromJson(v, f));
    var author :- Optional(o, "author", AsStr);
    var licenseUrl :- Optional(o, "license_url", AsStr);
    Ok(SignData(version, timeZone, lastUpdated, currency, location, policies, author, licenseUrl))
  }

  // Serialised forms: every field under its canonical name, None as null.

  function OptionToJson<T>(x: Option<T>, dump: T -> JSON): (r: JSON)
    ensures x.None? ==> r == Null
    ensures x.Some? ==> r == dump(x.value)
  {
    match x
    case None => Null
    case Some(v) => dump(v)
  }

  function IntToJson(n: int): (r: JSON)
    ensures r.Num? && r.n == n as real
  {
    Num(n as real)
  }

  function RateToJson(r: Rate): (v: JSON)
    ensures v.Obj? && v.fields.Keys == {"rate", "rate_unit", "rate_unit_period"}
  {
    Obj(map[
      "rate" := Num(r.rate),
      "rate_unit" := Str(r.rateUnit),
      "rate_unit_period" := Str(PeriodTag(r.rateUnitPeriod))])
  }

  function TimeSpanToJson(t: TimeSpan): (v: JSON)
    ensures v.Obj? && v.fields.Keys == {"days_of_week", "time_of_day_start", "time_of_day_end"}
  {
    Obj(map[
      "days_of_week" := StrList(t.daysOfWeek),
      "time_of_day_start" := Str(t.timeOfDayStart),
      "time_of_day_end" := Str(t.timeOfDayEnd)])
  }

  function RuleToJson(r: Rule): (v: JSON)
    ensures v.Obj? && v.fields.Keys == {"activity", "max_stay", "user_classes", "rate"}
    ensures r.maxStay.None? ==> v.fields["max_stay"] == Null
    ensures r.rate.None? ==> v.fields["rate"] == Null
  {
    Obj(map[
      "activity" := Str(r.activity),
      "max_stay" := OptionToJson(r.maxStay, IntToJson),
      "user_classes" := OptionToJson(r.userClasses, StrList),
      "rate" := OptionToJson(r.rate, RateToJson)])
  }

  function ListToJson<T>(xs: seq<T>, dump: T -> JSON): (v: JSON)
    ensures v.Arr? && |v.items| == |xs|
    ensures forall i :: 0 <= i < |xs| ==> v.items[i] == dump(xs[i])
  {
    Arr(seq(|xs|, i requires 0 <= i < |xs| => dump(xs[i])))
  }

  function CurbPolicyToJson(p: CurbPolicy): (v: JSON)
    ensures v.Obj? && v.fields.Keys == {"curb_policy_id", "published_date", "priority", "time_spans", "rules", "data_source_operator_id"}
    ensures v.fields["rules"].Arr? && |v.fields["rules"].items| == |p.rules|
  {
    Obj(map[
      "curb_policy_id" := Str(p.curbPolicyId),
      "published_date" := IntToJson(p.publishedDate),
      "priority" := OptionToJson(p.priority, IntToJson),
      "time_spans" := OptionToJson(p.timeSpans, (ts: seq<TimeSpan>) => ListToJson(ts, TimeSpanToJson)),
      "rules" := ListToJson(p.rules, RuleToJson),
      "data_source_operator_id" := OptionToJson(p.dataSourceOperatorId, StrList)])
  }

  function LocationToJson(l: Location): (v: JSON)
    ensures v.Obj? && v.fields.Keys == {"type", "coordinates"}
    ensures v.fields["coordinates"].Arr? && |v.fields["coordinates"].items| == |l.coordinates|
  {
    Obj(map["type" := Str(l.typeName), "coordinates" := RealList(l.coordinates)])
  }

  function SignDataToJson(d: SignData): (o: map<string, JSON>)
    ensures o.Keys == {"version", "time_zone", "last_updated", "currency", "location", "policies", "author", "license_url"}
    ensures o["policies"].Arr? && |o["policies"].items| == |d.policies|
    ensures d.location.None? ==> o["location"] == Null
  {
    map[
      "version" := Str(d.version),
      "time_zone" := OptionToJson(d.timeZone, s => Str(s)),
      "last_updated" := IntToJson(d.lastUpdated),
      "currency" := Str(d.currency),
      "location" := OptionToJson(d.location, LocationToJson),
      "policies" := ListToJson(d.policies, CurbPolicyToJson),
      "author" := OptionToJson(d.author, s => Str(s)),
      "license_url" := OptionToJson(d.licenseUrl, s => Str(s))]
  }

  // Construction reads back every serialised record.

  lemma StrListRoundTrip(ss: seq<string>)
    ensures AsStrs(StrList(ss)) == Ok(ss)
  {
    assert AsStrs(StrList(ss)).Ok?;
    assert AsStrs(StrList(ss)).value == ss;
  }

  lemma RealListRoundTrip(xs: seq<real>)
    ensures AsReals(RealList(xs)) == Ok(xs)
  {
    assert AsReals(RealList(xs)).Ok?;
    assert AsReals(RealList(xs)).value == xs;
  }

  lemma RateRoundTrip(r: Rate)
    ensures RateFromJson(RateToJson(r)) == Ok(r)
  {
  }

  lemma TimeSpanRoundTrip(t: TimeSpan)
    ensures TimeSpanFromJson(TimeSpanToJson(t)) == Ok(t)
  {
    StrListRoundTrip(t.daysOfWeek);
  }

  lemma RuleRoundTrip(r: Rule)
    ensures RuleFromJson(RuleToJson(r)) == Ok(r)
  {
    if r.userClasses.Some? {
      StrListRoundTrip(r.userClasses.value);
    }
    if r.rate.Some? {
      RateRoundTrip(r.rate.value);
    }
  }

  /** A list field reads back the list it was serialised from. */
  lemma ListRoundTrip<T>(xs: seq<T>, dump: T -> JSON, parse: JSON -> Result<T, Error>)
    requires forall x :: parse(dump(x)) == Ok(x)
    ensures ListOf(ListToJson(xs, dump), parse) == Ok(xs)
  {
    var dumped := ListToJson(xs, dump).items;
    forall i | 0 <= i < |xs|
      ensures parse(dumped[i]) == Ok(xs[i])
    {
      assert parse(dump(xs[i])) == Ok(xs[i]);
    }
    MapAllInverse(dumped, xs, parse);
  }

  lemma CurbPolicyRoundTrip(p: CurbPolicy, f: Factories)
    ensures CurbPolicyFromJson(CurbPolicyToJson(p), f) == Ok(p)
  {
    var o := CurbPolicyToJson(p).fields;
    assert Defaulted(o, "curb_policy_id", f.uuid, AsStr) == Ok(p.curbPolicyId);
    assert Defaulted(o, "published_date", f.nowMillis, AsInt) == Ok(p.publishedDate);
    assert Optional(o, "priority", AsInt) == Ok(p.priority);
    assert Optional(o, "time_spans", TimeSpansFromJson) == Ok(p.timeSpans) by {
      if p.timeSpans.Some? {
        TimeSpanListRoundTrip(p.timeSpans.value);
      }
    }
    forall r: Rule
      ensures RuleFromJson(RuleToJson(r)) == Ok(r)
    {
      RuleRoundTrip(r);
    }
    ListRoundTrip(p.rules, RuleToJson, RuleFromJson);
    assert Required(o, "rules", RulesFromJson) == Ok(p.rules);
    assert Optional(o, "data_source_operator_id", AsStrs) == Ok(p.dataSourceOperatorId) by {
      if p.dataSourceOperatorId.Some? {
        StrListRoundTrip(p.dataSourceOperatorId.value);
      }
    }
  }

  lemma TimeSpanListRoundTrip(ts: seq<TimeSpan>)
    ensures TimeSpansFromJson(ListToJson(ts, TimeSpanToJson)) == Ok(ts)
  {
    forall t: TimeSpan
      ensures TimeSpanFromJson(TimeSpanToJson(t)) == Ok(t)
    {
      TimeSpanRoundTrip(t);
    }
    ListRoundTrip(ts, TimeSpanToJson, TimeSpanFromJson);
  }

  lemma LocationRoundTrip(l: Location)
    ensures LocationFromJson(LocationToJson(l)) == Ok(l)
  {
    RealListRoundTrip(l.coordinates);
  }

  lemma SignDataRoundTrip(d: SignData, f: Factories)
    ensures SignDataFromJson(SignDataToJson(d), f) == Ok(d)
  {
    SignDataScalarsRoundTrip(d, f);
    SignDataLocationRoundTrip(d);
    SignDataPoliciesRoundTrip(d, f);
    SignDataFromFields(SignDataToJson(d), f, d);
  }

  lemma SignDataScalarsRoundTrip(d: SignData, f: Factories)
    ensures Defaulted(SignDataToJson(d), "version", "1.0", AsStr) == Ok(d.version)
    ensures Optional(SignDataToJson(d), "time_zone", AsStr) == Ok(d.timeZone)
    ensures Defaulted(SignDataToJson(d), "last_updated", f.nowMillis, AsInt) == Ok(d.lastUpdated)
    ensures Defaulted(SignDataToJson(d), "currency", "USD", AsStr) == Ok(d.currency)
    ensures Optional(SignDataToJson(d), "author", AsStr) == Ok(d.author)
    ensures Optional(SignDataToJson(d), "license_url", AsStr) == Ok(d.licenseUrl)
  {
  }

  lemma SignDataLocationRoundTrip(d: SignData)
    ensures Optional(SignDataToJson(d), "location", LocationFromJson) == Ok(d.location)
  {
    if d.location.Some? {
      LocationRoundTrip(d.location.value);
    }
  }

  lemma SignDataPoliciesRoundTrip(d: SignData, f: Factories)
    ensures Required(SignDataToJson(d), "policies", v => PoliciesFromJson(v, f)) == Ok(d.policies)
  {
    PolicyListRoundTrip(d.policies, f);
  }

  /** Construction succeeds with `d` when every field converts to `d`'s. */
  lemma SignDataFromFields(o: map<string, JSON>, f: Factories, d: SignData)
    requires Defaulted(o, "version", "1.0", AsStr) == Ok(d.version)
    requires Optional(o, "time_zone", AsStr) == Ok(d.timeZone)
    requires Defaulted(o, "last_updated", f.nowMillis, AsInt) == Ok(d.lastUpdated)
    requires Defaulted(o, "currency", "USD", AsStr) == Ok(d.currency)
    requires Optional(o, "location", LocationFromJson) == Ok(d.location)
    requires Required(o, "policies", v => PoliciesFromJson(v, f)) == Ok(d.policies)
    requires Optional(o, "author", AsStr) == Ok(d.author)
    requires Optional(o, "license_url", AsStr) == Ok(d.licenseUrl)
    ensures SignDataFromJson(o, f) == Ok(d)
  {
  }

  lemma PolicyListRoundTrip(ps: seq<CurbPolicy>, f: Factories)
    ensures PoliciesFromJson(ListToJson(ps, CurbPolicyToJson), f) == Ok(ps)
  {
    forall p: CurbPolicy
      ensures CurbPolicyFromJson(CurbPolicyToJson(p), f) == Ok(p)
    {
      CurbPolicyRoundTrip(p, f);
    }
    ListRoundTrip(ps, CurbPolicyToJson, p => CurbPolicyFromJson(p, f));
  }

  // Construction constraints, as the record classes declare them.

  /** A rate period outside the closed set fails construction of the rate. */
  lemma UnknownPeriodRejected(o: map<string, JSON>)
    requires "rate_unit_period" in o
    requires o["rate_unit_period"] != Str("rolling") && o["rate_unit_period"] != Str("calendar")
    ensures RateFromJson(Obj(o)) == Err(ValidationError)
  {
  }

  /** `activity` is free text: any string builds a rule, including one that
      is none of the activity tags. */
  lemma ActivityIsFreeText(s: string)
    ensures RuleFromJson(Obj(map["activity" := Str(s)])) == Ok(Rule(s, None, None, None))
    ensures RegulationTypeOf("street_sweeping").None?
  {
  }

  /** `max_stay` takes every integer, zero and negatives included. */
  lemma MaxStayUnchecked(n: int)
    ensures RuleFromJson(Obj(map["activity" := Str("parking"), "max_stay" := IntToJson(n)]))
      == Ok(Rule("parking", Some(n), None, None))
  {
  }

  /** A rule needs its `activity`. */
  lemma RuleRequiresActivity(o: map<string, JSON>)
    requires "activity" !in o
    ensures RuleFromJson(Obj(o)) == Err(ValidationError)
  {
  }

  /** Keys a rule does not declare make no difference. */
  lemma RuleIgnoresUndeclared(o: map<string, JSON>, k: string, v: JSON)
    requires k !in {"activity", "max_stay", "user_classes", "rate"}
    ensures RuleFromJson(Obj(o[k := v])) == RuleFromJson(Obj(o))
  {
    var o' := o[k := v];
    assert Required(o', "activity", AsStr) == Required(o, "activity", AsStr);
    assert Optional(o', "max_stay", AsInt) == Optional(o, "max_stay", AsInt);
    assert Optional(o', "user_classes", AsStrs) == Optional(o, "user_classes", AsStrs);
    assert Optional(o', "rate", RateFromJson) == Optional(o, "rate", RateFromJson);
  }

  /** A policy needs `rules`; the empty list will do, and every other field
      then takes its default: the factories' id and time, and no priority, no
      time spans and no operators. */
  lemma CurbPolicyDefaults(f: Factories)
    ensures CurbPolicyFromJson(Obj(map["rules" := Arr([])]), f) == Ok(CurbPolicy(f.uuid, f.nowMillis, None, None, [], None))
  {
  }

  lemma CurbPolicyRequiresRules(o: map<string, JSON>, f: Factories)
    requires "rules" !in o
    ensures CurbPolicyFromJson(Obj(o), f) == Err(ValidationError)
  {
  }

  /** A time span checks only that its fields are strings: an unknown day
      code and a time that is not a time are accepted. */
  lemma TimeSpanFieldsUnchecked()
    ensures TimeSpanFromJson(TimeSpanToJson(TimeSpan(["invalid_day"], "25:99", "later")))
      == Ok(TimeSpan(["invalid_day"], "25:99", "later"))
  {
    TimeSpanRoundTrip(TimeSpan(["invalid_day"], "25:99", "later"));
  }

  /** A time span needs all three of its fields. */
  lemma TimeSpanRequiresFields(o: map<string, JSON>)
    requires "days_of_week" !in o || "time_of_day_start" !in o || "time_of_day_end" !in o
    ensures TimeSpanFromJson(Obj(o)) == Err(ValidationError)
  {
  }

  /** A location's type defaults to "Point" and its coordinates may be a list
      of any length. */
  lemma LocationAnyLength(xs: seq<real>)
    ensures LocationFromJson(Obj(map["coordinates" := RealList(xs)])) == Ok(Location("Point", xs))
  {
    RealListRoundTrip(xs);
  }

  /** `policies` is the one field of the sign data without a default. */
  lemma SignDataDefaults(f: Factories)
    ensures SignDataFromJson(map["policies" := Arr([])], f) == Ok(SignData("1.0", None, f.nowMillis, "USD", None, [], None, None))
  {
  }

  lemma SignDataRequiresPolicies(o: map<string, JSON>, f: Factories)
    requires "policies" !in o
    ensures SignDataFromJson(o, f) == Err(ValidationError)
  {
  }

  // What a constructed record says about the arguments it was built from.

  /** A record built from keyword arguments carries each given argument, and
      an absent optional argument is None. */
  lemma SignDataFieldsOf(o: map<string, JSON>, f: Factories)
    requires SignDataFromJson(o, f).Ok?
    ensures var d := SignDataFromJson(o, f).value;
      ("version" in o ==> o["version"] == Str(d.version))
      && ("currency" in o ==> o["currency"] == Str(d.currency))
      && ("last_updated" in o ==> o["last_updated"] == IntToJson(d.lastUpdated))
      && ("time_zone" !in o ==> d.timeZone == None)
      && ("author" !in o ==> d.author == None)
      && ("license_url" !in o ==> d.licenseUrl == None)
      && (d.location == None <==> "location" !in o || o["location"] == Null)
      && (d.location != None ==> LocationFromJson(o["location"]) == Ok(d.location.value))
      && "policies" in o && PoliciesFromJson(o["policies"], f) == Ok(d.policies)
  {
  }

  /** A policy built from a dict carries its given id, timestamp, time spans
      and rules, and an absent optional field is None. */
  lemma CurbPolicyFieldsOf(v: JSON, f: Factories)
    requires CurbPolicyFromJson(v, f).Ok?
    ensures v.Obj?
    ensures var p, o := CurbPolicyFromJson(v, f).value, v.fields;
      ("curb_policy_id" in o ==> o["curb_policy_id"] == Str(p.curbPolicyId))
      && ("published_date" in o ==> o["published_date"] == IntToJson(p.publishedDate))
      && ("priority" !in o ==> p.priority == None)
      && ("data_source_operator_id" !in o ==> p.dataSourceOperatorId == None)
      && (p.timeSpans == None <==> "time_spans" !in o || o["time_spans"] == Null)
      && (p.timeSpans != None ==> TimeSpansFromJson(o["time_spans"]) == Ok(p.timeSpans.value))
      && "rules" in o && RulesFromJson(o["rules"]) == Ok(p.rules)
  {
  }

  /** Policies that give their id and timestamp do not depend on the default
      factories. */
  predicate GivesIdAndDate(v: JSON) {
    v.Obj? && "curb_policy_id" in v.fields && "published_date" in v.fields
  }

  lemma PoliciesIgnoreFactories(v: JSON, f1: Factories, f2: Factories)
    requires v.Arr? && forall i :: 0 <= i < |v.items| ==> GivesIdAndDate(v.items[i])
    ensures PoliciesFromJson(v, f1) == PoliciesFromJson(v, f2)
  {
    var p1 := (p: JSON) => CurbPolicyFromJson(p, f1);
    var p2 := (p: JSON) => CurbPolicyFromJson(p, f2);
    forall i | 0 <= i < |v.items|
      ensures p1(v.items[i]) == p2(v.items[i])
    {
      assert GivesIdAndDate(v.items[i]);
    }
    MapAllCongruent(v.items, p1, p2);
  }

  /** A record whose arguments give the update time and policies that give
      their ids and timestamps does not depend on the default factories. */
  lemma SignDataIgnoresFactories(o: map<string, JSON>, f1: Factories, f2: Factories)
    requires "last_updated" in o && "policies" in o && o["policies"].Arr?
    requires forall i :: 0 <= i < |o["policies"].items| ==> GivesIdAndDate(o["policies"].items[i])
    ensures SignDataFromJson(o, f1) == SignDataFromJson(o, f2)
  {
    PoliciesIgnoreFactories(o["policies"], f1, f2);
  }

  /** A policy dict with a string id, an integer timestamp, valid time spans
      and rules, and no priority or operators makes a policy. */
  lemma CurbPolicyBuilds(o: map<string, JSON>, f: Factories)
    requires "curb_policy_id" in o && o["curb_policy_id"].Str?
    requires "published_date" in o && AsInt(o["published_date"]).Ok?
    requires "priority" !in o && "data_source_operator_id" !in o
    requires "time_spans" in o && TimeSpansFromJson(o["time_spans"]).Ok?
    requires "rules" in o && RulesFromJson(o["rules"]).Ok?
    ensures CurbPolicyFromJson(Obj(o), f).Ok?
  {
  }

  /** Arguments with a string version and currency, an integer update time,
      a valid or null location, valid policies and none of the other optional
      fields make a record. */
  lemma SignDataBuilds(o: map<string, JSON>, f: Factories)
    requires "version" in o && o["version"].Str? && "currency" in o && o["currency"].Str?
    requires "last_updated" in o && AsInt(o["last_updated"]).Ok?
    requires "time_zone" !in o && "author" !in o && "license_url" !in o
    requires "location" in o ==> o["location"] == Null || LocationFromJson(o["location"]).Ok?
    requires "policies" in o && PoliciesFromJson(o["policies"], f).Ok?
    ensures SignDataFromJson(o, f).Ok?
  {
  }
}
