# curb-sign-parser, modelled in Dafny

curb-sign-parser reads a photograph of a parking sign. It has a vision model
describe the sign as JSON, then normalizes that JSON into a record tree in
the style of the Curb Data Specification (CDS): sign data holding curb
policies, which hold time spans and rules, which may hold a rate. This
project models that pipeline and proves properties of it:

- **Parser** (`parser.dfy`). The normalization steps of the parser:
  - `_normalize_days`, `_normalize_time_spans` and `_normalize_rules`;
  - the JSON-to-record part of `parse_sign`: the envelope, the choice of
    source list, the enumerate loop building one policy per item, and the
    decode-failure fallback;
  - the `CurbSignParser` class, with its provider registry and its
    image-processor limit.

  The steps the source writes as loops and key-by-key dict updates are
  methods. Each method is proved equal to a function that specifies it.
- **ParserProperties** (`parser_properties.dfy`). The properties of the
  pipeline, as lemmas.
- **DataModels** (`data_models.dfy`). The record types, built from keyword
  arguments the way the record classes validate them:
  - a required field fails when missing;
  - a defaulted field takes its default;
  - an optional field is None when missing or null;
  - undeclared keys are ignored.

  It also gives their serialised form, with round-trip lemmas.
- **Validators** (`validators.dfy`). The six field validators.
- **Providers**, **ImageProcessing**, **Json**, **Errors** and **Wrappers**.
  The backend registry and its two size limits; the image step reduced to
  its size check; the JSON value with Python truthiness; the exception
  kinds; `Result` and a run that stops at the first failure.

Nothing in the model reads a clock or draws an id:

- `clock(k)` is the `k`-th epoch-millisecond reading after the reply
  decodes:
  - reading 0 stamps the record;
  - reading `i + 1` stamps policy `i`.
- `Factories` stands for the record classes' default uuid and time
  factories. `ParsedResponseIgnoresFactories` proves the pipeline never uses
  them.
- The image codec, the backend's reply and `json.loads` are parameters of
  `ParseSign`.

Python behaviour the model writes out explicitly:

- **Truthiness.** A falsy value is null, false, zero, the empty string, the
  empty list or the empty dict.
- **`get` versus `get(...) or default`.** With `get` a present null is kept.
  With `or`, a falsy value takes the default.
- **`in`.** On a dict it tests for a key, on a list for membership and on a
  string for a substring. On anything else it raises.
- **Iteration.** A falsy string, list or dict iterates over nothing. A string
  iterates over its characters.

The decoded reply may be any JSON value, not only an object:

- A list or string that contains "regulations" or "policies" raises when it
  is indexed by that key.
- Any other list or string gives no policies.
- A number, boolean or null raises.

Errors are tags:

- `TypeError` also covers Python's `AttributeError`, which is what calling
  `get` on a non-dict raises.
- `ValidationError` is any failure to construct a record.
- `NotModelled` marks an outcome that depends on behaviour outside the
  model.

## Where the code, its tests and its documentation disagree

The model follows the code:

- `validate_time_format` accepts `"9:00"`. `strptime("%H:%M")` takes a
  one-digit hour, so `Validators.TimeFormatExamples` proves the string
  valid. tests/test_validators.py:10 expects it to be rejected.
- A `TimeSpan` record checks only that its fields are strings, so
  `"invalid_day"` builds. tests/test_llm_models.py:39-45 expects it to be
  rejected. See `DataModels.TimeSpanFieldsUnchecked`.
- `_normalize_time_spans` reads the keys `days`, `start_time` and
  `end_time`. So a span written in the record's own keys
  (`days_of_week`, `time_of_day_*`) becomes all seven days, 00:00 to 23:59.
  The CDS-keyed fixture at tests/conftest.py:48-52 is such a span. See
  `ParserProperties.RecordKeyedSpanIgnored`.
- A title-case full day name stays a full name: `"Monday"` becomes
  `"monday"`, not `"mon"`. Two passes do make it `"mon"`, so day
  normalization is not idempotent. See
  `ParserProperties.NormalizeTitleCaseNames` and
  `ParserProperties.DayCodeNotIdempotent`. The repository's documentation
  describes every name as mapped to its three-letter code.
- A source `rate` key is dropped. Only a `payment` dict makes a rate. See
  `ParserProperties.SourceRateDropped`.

## Model

| member | source | states |
|---|---|---|
| Parser.NormalizeDay | src/curb_sign_parser/parser.py:37-46 | an entry succeeds iff it is a string, then it is its table code or, outside the table, its lower-case form; otherwise TypeError |
| Parser.DayCode | src/curb_sign_parser/parser.py:46 | a table name gives one of the seven codes; any other name is lower-cased, keeping its length |
| Parser.NormalizeDays | src/curb_sign_parser/parser.py:35-46 | a falsy list is exactly the seven codes Monday first; a non-empty list succeeds iff every entry is a string, keeps length and order, and maps each entry through the table; a string goes character by character |
| Parser.NormalizedSpan | src/curb_sign_parser/parser.py:54-59 | a span fails iff it is not a dict or its days fail; it has exactly the keys days_of_week, time_of_day_start and time_of_day_end; its days are the normalized `days`, and start and end are the source values or "00:00"/"23:59" for missing or falsy |
| Parser.NormalizedTimeSpans | src/curb_sign_parser/parser.py:48-61 | a falsy value gives no spans; a list gives one span per item, in order, stopping at the first failure; any other truthy value is a TypeError |
| Parser.NormalizeTimeSpans | src/curb_sign_parser/parser.py:48-61 | the appending loop computes exactly `NormalizedTimeSpans` |
| Parser.NatToString | src/curb_sign_parser/parser.py:127 | `str(idx)` is non-empty, has one digit iff idx < 10, and ends in the last decimal digit |
| Parser.Float | src/curb_sign_parser/parser.py:76 | `float` of a number is that number and of a boolean is 1 or 0; of null, a list or a dict it is a TypeError |
| Parser.NormalizedRule | src/curb_sign_parser/parser.py:63-84 | the rule fails iff it is not a dict or its payment rate is not convertible; its keys are a subset of activity, max_stay, rate and user_classes; activity is the source value when present (even null), else "parking"; max_stay and user_classes are present iff present in the source, and are copied; rate is present iff payment is a dict, with rate (default 0), unit (default "hour") and period (default "rolling") |
| Parser.NormalizeRule | src/curb_sign_parser/parser.py:63-84 | the conditional key assignments compute exactly `NormalizedRule` |
| Parser.NormalizeRules | src/curb_sign_parser/parser.py:137 | the loop over a rules list is the rule-by-rule run of `NormalizedRule`, stopping at the first failure |
| Parser.SourcePolicies | src/curb_sign_parser/parser.py:117-122 | for a dict: `regulations` if present, even beside `policies`, else `policies`, else none; for a list or string without those keys: none; every failure is a TypeError |
| Parser.PolicyRules | src/curb_sign_parser/parser.py:135-140 | with a `rules` list, the normalized rules; without the key, the item itself as the one rule |
| Parser.PolicyDict | src/curb_sign_parser/parser.py:125-146 | an item that is not a dict fails with TypeError |
| Parser.PolicySpans | src/curb_sign_parser/parser.py:132-145 | with a `time_spans` key, the normalized value of that key; without it, no spans |
| Parser.BuildPolicy | src/curb_sign_parser/parser.py:126-145 | the key-by-key building of one policy computes exactly `PolicyDict` |
| Parser.Enumerate | src/curb_sign_parser/parser.py:125 | each item is paired with its position, same length |
| Parser.PolicyDicts | src/curb_sign_parser/parser.py:124-147 | succeeds iff every item's policy does; then one policy per item, in order, the `i`-th stamped with reading `i + 1`; a failure is the first failing item's |
| Parser.BuildPolicies | src/curb_sign_parser/parser.py:124-147 | the enumerate loop computes exactly `PolicyDicts` |
| Parser.Envelope | src/curb_sign_parser/parser.py:105-147 | the keys are version, currency, last_updated and policies, plus location iff it is truthy; version "1.0", currency "USD", last_updated reading 0; it succeeds iff the source list, its iteration and every policy succeed, and then policies is that list |
| Parser.FallbackArgs | src/curb_sign_parser/parser.py:156-161 | exactly version, currency, no policies and reading 0; no location |
| Parser.ParsedResponse | src/curb_sign_parser/parser.py:101-161 | a decode failure always gives a record with no policies and no location; for a decoded reply, a record needs an envelope and an envelope failure is the outcome |
| Parser.ParseResponse | src/curb_sign_parser/parser.py:101-161 | the straight-line body (envelope, location, source list, loop, record) computes the specified outcome for every decode result |
| Parser.SignOutcome | src/curb_sign_parser/parser.py:86-165 | an image failure propagates unchanged; so does a backend failure; otherwise the outcome is that of the decoded reply with the image's location |
| Parser.CurbSignParser.constructor | src/curb_sign_parser/parser.py:32-33 | the provider is the requested backend with the key; the image processor is fresh and its limit is the backend's |
| Parser.CurbSignParser.ParseSign | src/curb_sign_parser/parser.py:86-165 | `parse_sign` computes `SignOutcome` with the processor's limit |
| Parser.NewCurbSignParser | src/curb_sign_parser/parser.py:20-33 | fails iff the name is unregistered, with ValueError and before anything is built; otherwise a fresh parser with the registered backend and its size limit; the name defaults to "claude" |
| Parser.NewDefaultCurbSignParser | src/curb_sign_parser/parser.py:20-33 | a parser made with only a key always succeeds, with the claude backend and its 5 MiB limit |
| ParserProperties.NormalizeDaysOfStrings | src/curb_sign_parser/parser.py:46 | a non-empty list of strings maps element by element through the table |
| ParserProperties.UpperFullNamesMapped | src/curb_sign_parser/parser.py:37-45 | each of the seven full names, upper-cased, maps to the code of its own day |
| ParserProperties.UpperCodesMapped | src/curb_sign_parser/parser.py:37-45 | each of the seven codes, upper-cased, maps back to itself |
| ParserProperties.TitleCaseCodesLowered | src/curb_sign_parser/parser.py:46 | a title-case code such as "Mon" is not in the table and is lowered to the code |
| ParserProperties.TitleCaseNamesLowered | src/curb_sign_parser/parser.py:46 | a title-case full name such as "Monday" is lowered to the full name, not to the code |
| ParserProperties.NormalizeDaysExamples | src/curb_sign_parser/parser.py:46 | ["MONDAY","FRIDAY"] gives ["mon","fri"]; the empty list and null give all seven days |
| ParserProperties.NormalizeTitleCaseCodes | src/curb_sign_parser/parser.py:46 | ["Mon","Fri"] gives ["mon","fri"] |
| ParserProperties.NormalizeTitleCaseNames | src/curb_sign_parser/parser.py:46 | ["Monday","Holiday"] gives ["monday","holiday"] |
| ParserProperties.DayCodeNotIdempotent | src/curb_sign_parser/parser.py:46 | "Monday" becomes "monday" and a second pass makes that "mon" |
| ParserProperties.TableValuesAreCodes | src/curb_sign_parser/parser.py:37-45 | every table value is one of the seven codes |
| ParserProperties.TableKeysShape | src/curb_sign_parser/parser.py:37-45 | the table's keys are exactly the seven lower-case full names, the seven upper-case full names and the seven upper-case codes |
| ParserProperties.CodesAreFixed | src/curb_sign_parser/parser.py:37-46 | each code maps to itself: lower-case codes are not table keys and lower to themselves |
| ParserProperties.LowerCodes | src/curb_sign_parser/parser.py:46 | each code is its own lower-case form |
| ParserProperties.UpperCodes | src/curb_sign_parser/utils/validators.py:37-41 | each code upper-cased is an accepted day name |
| ParserProperties.FullNamesAreKeys | src/curb_sign_parser/parser.py:37-45 | each lower-case full name is a key mapping to the code of its own day, and upper-cased it is a valid day name |
| ParserProperties.ValidNamesLowered | src/curb_sign_parser/utils/validators.py:37-42 | a name the day validator accepts lowers to a code or a lower-case full name |
| ParserProperties.DayCodeOfValidName | src/curb_sign_parser/parser.py:46 | a name the day validator accepts normalizes to a code or full name, two passes give a code, and the result still validates |
| ParserProperties.NormalizedDaysValid | src/curb_sign_parser/parser.py:35-46 | normalizing a valid day list gives a list that still validates |
| ParserProperties.SpanIgnoresOtherKeys | src/curb_sign_parser/parser.py:55-59 | keys other than days, start_time and end_time make no difference |
| ParserProperties.SpanWithoutSourceKeys | src/curb_sign_parser/parser.py:55-59 | a span with none of the three keys is all seven days, 00:00 to 23:59 |
| ParserProperties.RecordKeyedSpanIgnored | tests/conftest.py:48-52 | a span written in the record's own keys normalizes to the default span and loses its days and times |
| ParserProperties.FalsyTimesDefault | src/curb_sign_parser/parser.py:57-58 | a null start and an empty end take "00:00" and "23:59" |
| ParserProperties.DefaultSpanValid | src/curb_sign_parser/parser.py:55-59 | the default span builds the record TimeSpan(all days, "00:00", "23:59") and passes the span validator |
| ParserProperties.EmptyRuleIsParking | src/curb_sign_parser/parser.py:65-67 | the empty rule becomes {activity: "parking"} |
| ParserProperties.SourceRateDropped | src/curb_sign_parser/parser.py:72-79 | without a payment the rule has no rate, whatever else it holds |
| ParserProperties.NullActivityKept | src/curb_sign_parser/parser.py:66 | a present null activity is kept, and the rule record then fails to build |
| ParserProperties.EmptyPaymentDefaults | src/curb_sign_parser/parser.py:75-79 | an empty payment gives rate 0, unit "hour", period "rolling" |
| ParserProperties.NonDictPaymentIgnored | src/curb_sign_parser/parser.py:74 | a payment that is not a dict gives no rate |
| ParserProperties.PaymentRateKinds | src/curb_sign_parser/parser.py:76 | a string rate is not modelled, a null rate is a TypeError, a boolean rate converts |
| ParserProperties.FlatItemWithPayment | src/curb_sign_parser/parser.py:138-140 | a flat item with payment {rate 2.5, unit hour} is one parking rule with rate 2.5 per hour, rolling |
| ParserProperties.PolicyRulesCount | src/curb_sign_parser/parser.py:136-140 | with a rules list, as many rules as members, in order and possibly none; without one, exactly one rule, made from the item |
| ParserProperties.PolicyDictShape | src/curb_sign_parser/parser.py:126-145 | a policy is made iff its time spans and rules are; its keys are exactly id, date, time_spans and rules; the id is the position and the date the stamp; time_spans is [] when the item has none |
| ParserProperties.NatToStringInjective | src/curb_sign_parser/parser.py:127 | distinct positions give distinct ids |
| ParserProperties.PolicyDictStamps | src/curb_sign_parser/parser.py:126-129 | a made policy came from a dict and carries its position as id and its stamp as date |
| ParserProperties.EnvelopePolicies | src/curb_sign_parser/parser.py:124-147 | as many policies as source items, in order, the `i`-th with id "i" and reading `i + 1` |
| ParserProperties.DecodeFailureResult | src/curb_sign_parser/parser.py:153-161 | a reply that is not JSON gives version "1.0", currency "USD", no policies, no location even when the image had one, and reading 0 |
| ParserProperties.PolicyRecordShape | src/curb_sign_parser/parser.py:126-151 | the typed policy of a policy dict has its position as id, its stamp as date, no priority or operators, and time spans and rules built from the normalized ones |
| ParserProperties.EnvelopeRecord | src/curb_sign_parser/models/data_models.py:57-66 | arguments with version "1.0", currency "USD", a timestamp and a location only when truthy make a record with those fields and no time zone, author or licence |
| ParserProperties.ParsedEnvelopeShape | src/curb_sign_parser/parser.py:105-151 | the record of a decoded reply has version "1.0", currency "USD", reading 0, no time zone, author or licence, and a location iff the image's is truthy |
| ParserProperties.ParsedPoliciesShape | src/curb_sign_parser/parser.py:124-151 | the record of a decoded reply has one policy per source item, the `i`-th the record of item `i` with id "i" and reading `i + 1` |
| ParserProperties.ParsedRecordShape | src/curb_sign_parser/parser.py:101-151 | the record of a decoded reply has version "1.0", currency "USD", reading 0, no time zone, author or licence, a location iff the image's is truthy, and one policy per source item as in `PolicyRecordShape` |
| ParserProperties.ParsedResponseIgnoresFactories | src/curb_sign_parser/models/data_models.py:45-46 | the default uuid and time factories never affect the outcome |
| ParserProperties.PolicyDictOutcomeStampFree | src/curb_sign_parser/parser.py:128 | whether a policy is made, and its error, do not depend on its timestamp |
| ParserProperties.PolicyDictsOutcomeClockFree | src/curb_sign_parser/parser.py:124-147 | whether the loop succeeds, and its error, do not depend on the clock |
| ParserProperties.EnvelopeOutcomeClockFree | src/curb_sign_parser/parser.py:105-147 | whether the envelope succeeds, and its error, do not depend on the clock |
| ParserProperties.PolicyBuilds | src/curb_sign_parser/parser.py:126-151 | an item with valid spans and rules makes a policy dict that builds a policy record |
| ParserProperties.ParsedOnlyIfBuildable | src/curb_sign_parser/parser.py:101-151 | a record is made only when every source item makes a valid policy and a truthy location is valid |
| ParserProperties.BuildableEnvelope | src/curb_sign_parser/parser.py:124-147 | a buildable reply makes its arguments, and each of their policy dicts makes a policy record |
| ParserProperties.EnvelopeBuilds | src/curb_sign_parser/models/data_models.py:57-66 | arguments with the fixed version and currency, a timestamp, a valid truthy location and valid policies make a record |
| ParserProperties.BuildableParses | src/curb_sign_parser/parser.py:101-151 | conversely, such a reply always makes a record |
| ParserProperties.ParsedSucceedsIff | src/curb_sign_parser/parser.py:101-151 | a decoded reply makes a record iff it is buildable, for every clock and factories |
| ParserProperties.PolicyRecordsAgree | src/curb_sign_parser/parser.py:126-145 | two policies made from the same item at the same position differ at most in their timestamp |
| ParserProperties.RecordsAgreeButStamps | src/curb_sign_parser/parser.py:106-151 | two records from the same reply at different times agree on everything but the timestamps |
| ParserProperties.OnlyTimestampsDiffer | src/curb_sign_parser/parser.py:101-161 | the same reply parsed at two times gives the same outcome, error or record, up to timestamps |
| ParserProperties.UnbuildableItemRejectsReply | src/curb_sign_parser/parser.py:151 | once the envelope is made, an item that makes no valid policy fails the whole parse with a validation error |
| ParserProperties.WeeklyPaymentRule | src/curb_sign_parser/parser.py:75-79 | a payment with period "weekly" normalizes, but its rule is not a valid record |
| ParserProperties.WeeklyReplyEnvelope | src/curb_sign_parser/parser.py:117-147 | the reply whose one policy is the weekly payment has that one item and makes its arguments |
| ParserProperties.UnknownPeriodRejectsReply | src/curb_sign_parser/models/data_models.py:19-28 | a reply whose one payment has period "weekly" fails with a validation error |
| DataModels.RegulationTypeOf | src/curb_sign_parser/models/data_models.py:8-17 | a string is an activity tag iff it is one of the eight values, and the tag's value is that string |
| DataModels.PeriodFromJson | src/curb_sign_parser/models/data_models.py:19-22 | a period is read iff it is "rolling" or "calendar"; anything else is a validation error |
| DataModels.AsInt | src/curb_sign_parser/models/data_models.py:39 | an int field takes exactly the numbers without a fractional part |
| DataModels.Optional | src/curb_sign_parser/models/data_models.py:39-41 | an optional field is None when missing or null; otherwise it is Some of the converted value, and fails exactly when the conversion does, with its error |
| DataModels.ListOf | src/curb_sign_parser/models/data_models.py:32 | a list field succeeds iff every member converts, keeping order; any failure is a validation error |
| DataModels.RateFromJson | src/curb_sign_parser/models/data_models.py:24-28 | every failure is a validation error |
| DataModels.TimeSpanFromJson | src/curb_sign_parser/models/data_models.py:30-34 | every failure is a validation error |
| DataModels.RuleFromJson | src/curb_sign_parser/models/data_models.py:36-41 | every failure is a validation error |
| DataModels.CurbPolicyFromJson | src/curb_sign_parser/models/data_models.py:43-50 | every failure is a validation error |
| DataModels.LocationFromJson | src/curb_sign_parser/models/data_models.py:52-55 | every failure is a validation error |
| DataModels.SignDataFromJson | src/curb_sign_parser/models/data_models.py:57-66 | every failure is a validation error |
| DataModels.OptionToJson | src/curb_sign_parser/models/data_models.py:39-41 | None is written as null, and a value through its own serialiser |
| DataModels.IntToJson | src/curb_sign_parser/models/data_models.py:39 | an int is written as the number of the same value |
| DataModels.RateToJson | src/curb_sign_parser/models/data_models.py:24-28 | a rate is written with exactly its three field names |
| DataModels.TimeSpanToJson | src/curb_sign_parser/models/data_models.py:30-34 | a time span is written with exactly its three field names |
| DataModels.RuleToJson | src/curb_sign_parser/models/data_models.py:36-41 | a rule is written with exactly its four field names, an absent max_stay or rate as null |
| DataModels.ListToJson | src/curb_sign_parser/models/data_models.py:32 | a list is written item by item, same length and order |
| DataModels.CurbPolicyToJson | src/curb_sign_parser/models/data_models.py:43-50 | a policy is written with exactly its six field names, one entry per rule |
| DataModels.LocationToJson | src/curb_sign_parser/models/data_models.py:52-55 | a location is written with its type and coordinates, one number per coordinate |
| DataModels.SignDataToJson | src/curb_sign_parser/models/data_models.py:57-66 | a record is written with exactly its eight field names, one entry per policy, an absent location as null |
| DataModels.StrListRoundTrip | src/curb_sign_parser/models/data_models.py:32 | a string list reads back from its serialised form |
| DataModels.RealListRoundTrip | src/curb_sign_parser/models/data_models.py:55 | a number list reads back from its serialised form |
| DataModels.RateRoundTrip | src/curb_sign_parser/models/data_models.py:24-28 | every rate reads back from its serialised form |
| DataModels.TimeSpanRoundTrip | src/curb_sign_parser/models/data_models.py:30-34 | every time span reads back |
| DataModels.RuleRoundTrip | src/curb_sign_parser/models/data_models.py:36-41 | every rule reads back |
| DataModels.ListRoundTrip | src/curb_sign_parser/models/data_models.py:48-49 | a list of records reads back when each record does |
| DataModels.CurbPolicyRoundTrip | src/curb_sign_parser/models/data_models.py:43-50 | every policy reads back, whatever the factories |
| DataModels.TimeSpanListRoundTrip | src/curb_sign_parser/models/data_models.py:48 | every list of time spans reads back |
| DataModels.LocationRoundTrip | src/curb_sign_parser/models/data_models.py:52-55 | every location reads back |
| DataModels.SignDataRoundTrip | src/curb_sign_parser/models/data_models.py:57-66 | every sign-data record reads back, whatever the factories |
| DataModels.SignDataScalarsRoundTrip | src/curb_sign_parser/models/data_models.py:59-62 | the scalar fields read back |
| DataModels.SignDataLocationRoundTrip | src/curb_sign_parser/models/data_models.py:63 | the location reads back |
| DataModels.SignDataPoliciesRoundTrip | src/curb_sign_parser/models/data_models.py:64 | the policies read back |
| DataModels.SignDataFromFields | src/curb_sign_parser/models/data_models.py:57-66 | a record is built from arguments whose every field reads as the record's |
| DataModels.PolicyListRoundTrip | src/curb_sign_parser/models/data_models.py:64 | every list of policies reads back |
| DataModels.UnknownPeriodRejected | src/curb_sign_parser/models/data_models.py:19-28 | a period other than rolling or calendar fails construction of the rate |
| DataModels.ActivityIsFreeText | src/curb_sign_parser/models/data_models.py:38 | any string is an activity, including one that is not an activity tag |
| DataModels.MaxStayUnchecked | src/curb_sign_parser/models/data_models.py:39 | every integer, zero and negatives included, is a max_stay |
| DataModels.RuleRequiresActivity | src/curb_sign_parser/models/data_models.py:38 | a rule without activity fails |
| DataModels.RuleIgnoresUndeclared | src/curb_sign_parser/models/data_models.py:36-41 | keys a rule does not declare make no difference |
| DataModels.CurbPolicyDefaults | src/curb_sign_parser/models/data_models.py:43-50 | a policy with only an empty rules list takes the factories' id and time and no priority, spans or operators |
| DataModels.CurbPolicyRequiresRules | src/curb_sign_parser/models/data_models.py:49 | a policy without rules fails |
| DataModels.TimeSpanFieldsUnchecked | tests/test_llm_models.py:39-45 | an unknown day code and a non-time are accepted by the record |
| DataModels.TimeSpanRequiresFields | src/curb_sign_parser/models/data_models.py:32-34 | a time span missing any of its three fields fails |
| DataModels.LocationAnyLength | src/curb_sign_parser/models/data_models.py:54-55 | the type defaults to "Point" and coordinates of any length are accepted |
| DataModels.SignDataDefaults | src/curb_sign_parser/models/data_models.py:57-66 | with only policies: version "1.0", currency "USD", the factory time, and no optional field |
| DataModels.SignDataRequiresPolicies | src/curb_sign_parser/models/data_models.py:64 | sign data without policies fails |
| DataModels.SignDataFieldsOf | src/curb_sign_parser/models/data_models.py:57-66 | a built record carries every given argument; an absent optional one is None; the location is None iff absent or null |
| DataModels.CurbPolicyFieldsOf | src/curb_sign_parser/models/data_models.py:43-50 | a built policy carries its given id, date, spans and rules; absent optional fields are None |
| DataModels.PoliciesIgnoreFactories | src/curb_sign_parser/models/data_models.py:45-46 | policies that give their id and date do not depend on the factories |
| DataModels.SignDataIgnoresFactories | src/curb_sign_parser/models/data_models.py:61 | arguments that give the update time and such policies do not depend on the factories |
| DataModels.CurbPolicyBuilds | src/curb_sign_parser/models/data_models.py:43-50 | a dict with a string id, an integer date, valid spans and rules builds a policy |
| DataModels.SignDataBuilds | src/curb_sign_parser/models/data_models.py:57-66 | arguments with valid fields and policies build a record |
| Validators.Number | src/curb_sign_parser/utils/validators.py:21 | a field has a value iff it is one or two digits, and that value is below 10 or 100 |
| Validators.StrptimeHM | src/curb_sign_parser/utils/validators.py:21 | parses iff the string is an hour field matching `%H`, a colon and a minute field matching `%M` using up the rest; the values read are in 0-23 and 0-59 and are the fields' numbers |
| Validators.FormatHMRoundTrip | src/curb_sign_parser/utils/validators.py:20-24 | every time of day written as HH:MM parses back to itself |
| Validators.StrptimeTwoDigits | src/curb_sign_parser/utils/validators.py:21 | a five-character HH:MM string in range reads as its two numbers |
| Validators.ValidateTimeFormat | src/curb_sign_parser/utils/validators.py:10-24 | valid iff an hour field matching `%H`, a colon and a minute field matching `%M` use up the string; a valid time is 3 to 5 characters |
| Validators.TimeFormatExamples | src/curb_sign_parser/utils/validators.py:20-24 | "09:00", "23:59", "9:00" and "0:5" are valid; "25:00", "12:60", "1200" and "09:00 " are not |
| Validators.DaysExamples | src/curb_sign_parser/utils/validators.py:37-42 | the empty list, codes and mixed-case names are valid; "INVALID" is not |
| Validators.ValidateDays | src/curb_sign_parser/utils/validators.py:27-42 | the empty list is valid, and every entry of a valid list is 3 to 9 characters long |
| Validators.ValidateDaysIgnoresCase | src/curb_sign_parser/utils/validators.py:42 | lower-casing every entry does not change validity |
| Validators.ValidateDaysAppend | src/curb_sign_parser/utils/validators.py:42 | a list is valid iff both of its parts are |
| Validators.ValidateTimeSpan | src/curb_sign_parser/utils/validators.py:55-65 | true iff the days are valid, both times parse, and the start is not after the end by hour then minute |
| Validators.OvernightSpanRejected | src/curb_sign_parser/utils/validators.py:63-65 | 22:00 to 06:00 is rejected |
| Validators.EmptySpanAccepted | src/curb_sign_parser/utils/validators.py:65 | equal start and end are accepted |
| Validators.WorkdaySpanAccepted | src/curb_sign_parser/utils/validators.py:55-65 | mon, tue 09:00 to 17:00 is accepted |
| Validators.ValidateLocation | src/curb_sign_parser/utils/validators.py:91-95 | fails with ValueError iff there are not exactly two coordinates; otherwise true iff longitude is in [-180, 180] and latitude in [-90, 90] |
| Validators.LocationExamples | src/curb_sign_parser/utils/validators.py:91-95 | New York is valid, (-200, 100) is not, the corner (180, -90) is, and one coordinate raises |
| Validators.ValidateRateIgnoresCase | src/curb_sign_parser/utils/validators.py:111 | the unit check ignores letter case |
| Validators.RateExamples | src/curb_sign_parser/utils/validators.py:108-113 | rate 0 per hour and 2.5 per "Hour" are valid; per week or negative are not |
| Validators.ValidateTimeSpanRecordAsWritten | src/curb_sign_parser/utils/validators.py:55-64 | the check as written is the span check reading the attributes `days`, `start_time` and `end_time` of the record |
| Validators.Attr | src/curb_sign_parser/models/data_models.py:30-34 | reading an attribute of a time span record succeeds exactly for its three field names, giving their values; any other name raises |
| Validators.ValidateTimeSpanReads | src/curb_sign_parser/utils/validators.py:55-64 | read in the code's order, a missing days attribute raises before anything else is read, and an accepted span has all three attributes |
| Validators.AsWrittenAlwaysRaises | src/curb_sign_parser/utils/validators.py:55 | for every record, the check as written raises AttributeError, because the record has no `days` |
| Validators.CorrectedReadsAgree | src/curb_sign_parser/utils/validators.py:55-64 | reading the record's own attribute names, the check never raises and gives the span check on the record's fields |
| Validators.ValidateTimeSpanRecord | src/curb_sign_parser/utils/validators.py:55-65 | the check through the record's own fields is the span check on them |
| Validators.TimeSpanRecordDiscrepancy | src/curb_sign_parser/utils/validators.py:55-65 | the workday span makes the code as written raise; the corrected check accepts it and still rejects an overnight span |
| Validators.ZeroMaxStayUnvalidated | src/curb_sign_parser/utils/validators.py:78 | a max_stay of 0 builds a rule but is not a valid duration |
| Validators.ValidateDuration | src/curb_sign_parser/utils/validators.py:68-78 | valid iff at least one minute |
| Validators.ValidateRate | src/curb_sign_parser/utils/validators.py:98-113 | valid iff the rate is not negative and the unit, lower-cased, is minute, hour, day, month or year; the period is always a member of its enum |
| Providers.MaxImageSize | src/curb_sign_parser/providers/claude.py:24 | each backend's limit is positive: 5 MiB for claude and 20 MiB for gpt4 |
| Providers.Lookup | src/curb_sign_parser/parser.py:15-30 | a name is found iff it is "claude" or "gpt4", naming those backends; any other is a ValueError |
| Providers.RegistryLimits | src/curb_sign_parser/providers/gpt4.py:24 | the claude limit is 5 MiB, the gpt4 limit 20 MiB, and "invalid" is a ValueError |
| ImageProcessing.EffectiveMaxSize | src/curb_sign_parser/processors/image_processor.py:101 | a given non-zero limit is kept; an absent or zero limit becomes 5 MiB |
| ImageProcessing.Prepared | src/curb_sign_parser/processors/image_processor.py:131-182 | succeeds iff the codec produced bytes no larger than the limit, returning them with the location; a missing file is FileNotFoundError; any other failure is an image-processing error |
| ImageProcessing.ImageProcessor.constructor | src/curb_sign_parser/processors/image_processor.py:99-101 | the limit is `max_size or 5 MiB` |
| ImageProcessing.ImageProcessor.ProcessImage | src/curb_sign_parser/processors/image_processor.py:119-182 | the checks in order compute exactly `Prepared` with the processor's limit |
| Json.GetOr | src/curb_sign_parser/parser.py:57-58 | `get(k, d) or d`: the value when truthy, else the default |
| Json.LoopItems | src/curb_sign_parser/parser.py:54 | a list iterates over its items and a falsy string, list or dict over nothing; every failure is a TypeError |
| Json.Elements | src/curb_sign_parser/parser.py:46 | a failure is not modelled for a dict and a TypeError for anything else |
| Json.CaseMapsAgree | src/curb_sign_parser/utils/validators.py:42 | upper-casing after lower-casing is just upper-casing, and lower-casing after upper-casing is just lower-casing |
| Wrappers.MapAll | src/curb_sign_parser/parser.py:137 | a comprehension succeeds iff every item does, keeping length and order; a failure is the first failing item's |
| Wrappers.MapAllStep | src/curb_sign_parser/parser.py:54-60 | one more loop step either extends the run or ends it with the item's failure |
| Wrappers.MapAllSameOutcome | src/curb_sign_parser/parser.py:125-147 | bodies that fail on the same items with the same errors give loops with one outcome |
| Wrappers.MapAllCongruent | src/curb_sign_parser/parser.py:137 | bodies that agree on every item give the same run |

## Findings

| source | as written | input that shows it | evidently intended | confidence | as-written member | corrected member |
|---|---|---|---|---|---|---|
| src/curb_sign_parser/utils/validators.py:55-64 | `validate_time_span` reads `time_span.days`, `.start_time` and `.end_time`, which the `TimeSpan` record (`days_of_week`, `time_of_day_start`, `time_of_day_end`) does not have; every call raises AttributeError | `TimeSpan(days_of_week=["mon","tue"], time_of_day_start="09:00", time_of_day_end="17:00")` | read the record's own fields: the span is accepted, and an overnight span is rejected | high, not executed | Validators.ValidateTimeSpanRecordAsWritten | Validators.ValidateTimeSpanRecord |

## Left out

- Image decoding, resizing, JPEG re-encoding and reading GPS metadata are
  library work. They are the parameter `codec`. The HEIF setup in the image
  processor's constructor, which may raise ImportError, is not modelled.
- The backends' network clients, base64 encoding and prompt text are not
  modelled. The backend is the parameter `reply`.
- `json.loads` is the parameter `loads`, which returns a decoded value or a
  decode failure. This model has no JSON parser.
- Logging and the `json.dumps` calls that only feed logging are not
  modelled.
- `datetime.now()` and `uuid.uuid4()` are the parameters `clock` and
  `Factories`.
- Python's Unicode `lower` and `upper` are not modelled. Case mapping
  covers ASCII letters only, and other characters are unchanged.
- `strptime` accepts only ASCII digits. Python also accepts other Unicode
  decimal digits.
- Dict key order is not modelled, because JSON objects are maps. Two things
  therefore have no modelled outcome and give `NotModelled`:
  - iterating a non-empty dict of day names, whose result depends on key
    order;
  - `float` of a string rate, which depends on the text.
- Parser.Float: `float` of a string is not modelled, as above.
- The record classes' lax coercions are not modelled. The model treats any
  value of the wrong JSON kind as a validation error, including a boolean or
  numeric string into `int` or `float`.
- Floats are exact reals. Rounding, overflow, NaN and infinity are not
  modelled, nor is the truncation of the millisecond timestamp, which the
  clock parameter supplies as an integer.
- A `location_data` that cannot be serialised would make the logging
  `json.dumps` raise. That is not modelled, because location data is any
  JSON value here.
- The exception classes in src/curb_sign_parser/utils/exceptions.py are
  tags of `Errors.Error`. Their hierarchy and messages are not modelled.
- Validators.ValidateTimeSpan: modelled over the days and the two times it
  reads, not over a record. Its record form is the finding above.
