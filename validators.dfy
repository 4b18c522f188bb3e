/** The field validators: small predicates over time strings, day names,
    durations, coordinates and rates. None of them is called by the parser;
    they are a library for callers that want to check a record. */
module Validators {
  import opened Wrappers
  import opened Errors
  import opened Json
  import opened DataModels

  predicate IsDigit(c: char) {
    '0' <= c <= '9'
  }

  function DigitValue(c: char): nat
    requires IsDigit(c)
  {
    c as int - '0' as int
  }

  /** The value of a field of one or two digits. */
  function Number(f: string): (r: Option<nat>)
    ensures r.Some? <==> (|f| == 1 || |f| == 2) && forall i :: 0 <= i < |f| ==> IsDigit(f[i])
    ensures r.Some? ==> r.value < (if |f| == 1 then 10 else 100)
  {
    if |f| == 1 && IsDigit(f[0]) then Some(DigitValue(f[0]))
    else if |f| == 2 && IsDigit(f[0]) && IsDigit(f[1]) then Some(10 * DigitValue(f[0]) + DigitValue(f[1]))
    else None
  }

  /** The hour directive of `%H`: `2[0-3]`, `[0-1]` and a digit, or one digit. */
  predicate HourPattern(f: string) {
    (|f| == 2 && f[0] == '2' && '0' <= f[1] <= '3')
    || (|f| == 2 && '0' <= f[0] <= '1' && IsDigit(f[1]))
    || (|f| == 1 && IsDigit(f[0]))
  }

  /** The minute directive of `%M`: `[0-5]` and a digit, or one digit. */
  predicate MinutePattern(f: string) {
    (|f| == 2 && '0' <= f[0] <= '5' && IsDigit(f[1]))
    || (|f| == 1 && IsDigit(f[0]))
  }

  /** `datetime.strptime(s, "%H:%M")`, reduced to the hour and minute it
      reads. The hour field ends at the colon (a digit is never a colon, so at
      most one split works); the minute field must use up the rest. */
  function StrptimeHM(s: string): (r: Option<(nat, nat)>)
    ensures r.Some? ==> r.value.0 <= 23 && r.value.1 <= 59
    ensures r.Some? <==> exists k :: 0 <= k < |s| && s[k] == ':' && HourPattern(s[..k]) && MinutePattern(s[k + 1..])
    ensures r.Some? ==> exists k :: 0 <= k < |s| && s[k] == ':' && Number(s[..k]) == Some(r.value.0) && Number(s[k + 1..]) == Some(r.value.1)
  {
    var k := if |s| > 1 && s[1] == ':' then 1 else if |s| > 2 && s[2] == ':' then 2 else 0;
    if k == 0 then
      assert forall j :: 0 <= j < |s| && s[j] == ':' ==> !HourPattern(s[..j]);
      None
    else
      assert forall j :: 0 <= j < |s| && s[j] == ':' && HourPattern(s[..j]) ==> j == k;
      var h := Number(s[..k]);
      var m := Number(s[k + 1..]);
      if h.Some? && m.Some? && h.value <= 23 && m.value <= 59 then
        Some((h.value, m.value))
      else
        None
  }

  /** `validate_time_format`: the string parses as `%H:%M`. */
  predicate ValidateTimeFormat(s: string): (r: bool)
    ensures r <==> exists k :: 0 <= k < |s| && s[k] == ':' && HourPattern(s[..k]) && MinutePattern(s[k + 1..])
    ensures r ==> 3 <= |s| <= 5
  {
    StrptimeHM(s).Some?
  }

  /** A number below 100 as two digits, as `%02d` writes it. */
  function Pad2(n: nat): (r: string)
    requires n < 100
    ensures |r| == 2 && IsDigit(r[0]) && IsDigit(r[1])
  {
    [('0' as int + n / 10) as char, ('0' as int + n % 10) as char]
  }

  /** The canonical `HH:MM` form of a time of day. */
  function FormatHM(h: nat, m: nat): string
    requires h <= 23 && m <= 59
  {
    Pad2(h) + ":" + Pad2(m)
  }

  /** Parsing reads back every time of day written in the canonical form. */
  lemma FormatHMRoundTrip(h: nat, m: nat)
    requires h <= 23 && m <= 59
    ensures StrptimeHM(FormatHM(h, m)) == Some((h, m))
  {
    var s := FormatHM(h, m);
    assert s[..2] == Pad2(h) && s[3..] == Pad2(m);
    assert s[2] == ':';
  }

  /** A five-character `HH:MM` string reads as its two numbers. */
  lemma StrptimeTwoDigits(s: string)
    requires |s| == 5 && s[2] == ':'
    requires IsDigit(s[0]) && IsDigit(s[1]) && IsDigit(s[3]) && IsDigit(s[4])
    requires 10 * DigitValue(s[0]) + DigitValue(s[1]) <= 23 && 10 * DigitValue(s[3]) + DigitValue(s[4]) <= 59
    ensures StrptimeHM(s) == Some((10 * DigitValue(s[0]) + DigitValue(s[1]), 10 * DigitValue(s[3]) + DigitValue(s[4])))
  {
    assert s[..2] == [s[0], s[1]];
    assert s[3..] == [s[3], s[4]];
  }

  lemma TimeFormatExamples()
    ensures ValidateTimeFormat("09:00")
    ensures !ValidateTimeFormat("25:00")
    ensures ValidateTimeFormat("9:00")
    ensures ValidateTimeFormat("23:59") && ValidateTimeFormat("0:5")
    ensures !ValidateTimeFormat("12:60") && !ValidateTimeFormat("1200") && !ValidateTimeFormat("09:00 ")
  {
    assert "09:00"[..2] == "09" && "09:00"[3..] == "00";
    assert "9:00"[..1] == "9" && "9:00"[2..] == "00";
    assert "23:59"[..2] == "23" && "23:59"[3..] == "59";
    assert "0:5"[..1] == "0" && "0:5"[2..] == "5";
    assert "25:00"[..2] == "25";
    assert "12:60"[3..] == "60";
    assert "09:00 "[3..] == "00 ";
  }

  /** The day names `validate_days` accepts once upper-cased. */
  const ValidDayNames: set<string> := {
    "MON", "TUE", "WED", "THU", "FRI", "SAT", "SUN",
    "MONDAY", "TUESDAY", "WEDNESDAY", "THURSDAY", "FRIDAY", "SATURDAY", "SUNDAY"
  }

  /** `validate_days`: every entry, upper-cased, is a day name. */
  predicate ValidateDays(days: seq<string>): (r: bool)
    ensures days == [] ==> r
    ensures r ==> forall i :: 0 <= i < |days| ==> 3 <= |days[i]| <= 9
  {
    forall i :: 0 <= i < |days| ==> Upper(days[i]) in ValidDayNames
  }

  lemma DaysExamples()
    ensures ValidateDays([])
    ensures ValidateDays(["MON", "TUE"])
    ensures ValidateDays(["mon", "Tuesday", "sUn"])
    ensures !ValidateDays(["INVALID"])
  {
    var upper := ["MON", "TUE"];
    assert Upper(upper[0]) == "MON" && Upper(upper[1]) == "TUE";
    var mixed := ["mon", "Tuesday", "sUn"];
    assert Upper(mixed[0]) == "MON" && Upper(mixed[1]) == "TUESDAY" && Upper(mixed[2]) == "SUN";
    var invalid := ["INVALID"];
    assert Upper(invalid[0]) == "INVALID";
    assert "INVALID" !in ValidDayNames;
  }

  /** The check ignores letter case. */
  lemma {:induction false} ValidateDaysIgnoresCase(days: seq<string>)
    ensures ValidateDays(seq(|days|, i requires 0 <= i < |days| => Lower(days[i]))) == ValidateDays(days)
  {
    var lowered := seq(|days|, i requires 0 <= i < |days| => Lower(days[i]));
    forall i | 0 <= i < |days|
      ensures Upper(lowered[i]) == Upper(days[i])
    {
      CaseMapsAgree(days[i]);
    }
  }

  /** A list is valid exactly when both of its parts are. */
  lemma ValidateDaysAppend(a: seq<string>, b: seq<string>)
    ensures ValidateDays(a + b) <==> ValidateDays(a) && ValidateDays(b)
  {
    if ValidateDays(a) && ValidateDays(b) {
      forall i | 0 <= i < |a + b|
        ensures Upper((a + b)[i]) in ValidDayNames
      {
        if i < |a| { assert (a + b)[i] == a[i]; } else { assert (a + b)[i] == b[i - |a|]; }
      }
    }
    if ValidateDays(a + b) {
      forall i | 0 <= i < |a|
        ensures Upper(a[i]) in ValidDayNames
      {
        assert (a + b)[i] == a[i];
      }
      forall i | 0 <= i < |b|
        ensures Upper(b[i]) in ValidDayNames
      {
        assert (a + b)[|a| + i] == b[i];
      }
    }
  }

  /** Minutes since midnight of a time of day read by `StrptimeHM`. */
  function MinuteOfDay(t: (nat, nat)): nat {
    60 * t.0 + t.1
  }

  /** The order of two datetimes on the same day: by hour, then by minute. */
  predicate NotAfter(a: (nat, nat), b: (nat, nat)) {
    a.0 < b.0 || (a.0 == b.0 && a.1 <= b.1)
  }

  /** `validate_time_span` over the day list and the two times it reads:
      the days are valid, both times parse, and the start is not after the
      end, so a span that runs past midnight is rejected. */
  function ValidateTimeSpan(days: seq<string>, start: string, end: string): (r: bool)
    ensures r <==> (ValidateDays(days) && ValidateTimeFormat(start) && ValidateTimeFormat(end)
                    && NotAfter(StrptimeHM(start).value, StrptimeHM(end).value))
  {
    if !ValidateDays(days) then false
    else if !(ValidateTimeFormat(start) && ValidateTimeFormat(end)) then false
    else
      MinuteOfDay(StrptimeHM(start).value) <= MinuteOfDay(StrptimeHM(end).value)
  }

  /** An overnight span such as 22:00 to 06:00 is rejected. */
  lemma OvernightSpanRejected()
    ensures !ValidateTimeSpan(["SAT"], "22:00", "06:00")
  {
    StrptimeTwoDigits("22:00");
    StrptimeTwoDigits("06:00");
  }

  /** A span whose two ends coincide is accepted. */
  lemma EmptySpanAccepted()
    ensures ValidateTimeSpan(["SAT"], "12:30", "12:30")
  {
    StrptimeTwoDigits("12:30");
    assert Upper(["SAT"][0]) == "SAT";
  }

  lemma WorkdaySpanAccepted()
    ensures ValidateTimeSpan(["mon", "tue"], "09:00", "17:00")
  {
    StrptimeTwoDigits("09:00");
    StrptimeTwoDigits("17:00");
    var days := ["mon", "tue"];
    assert Upper(days[0]) == "MON" && Upper(days[1]) == "TUE";
  }

  /** `validate_duration`: a positive number of minutes. */
  predicate ValidateDuration(minutes: int): (r: bool)
    ensures r <==> minutes >= 1
  {
    minutes > 0
  }

  /** In range in the [longitude, latitude] order of RFC 7946, section
      3.1.1, bounds included. */
  predicate InRange(lon: real, lat: real) {
    -180.0 <= lon <= 180.0 && -90.0 <= lat <= 90.0
  }

  /** `validate_location`: unpacking the coordinates into longitude and
      latitude raises ValueError, which the handler (for TypeError and
      IndexError only) lets through, unless there are exactly two. */
  function ValidateLocation(loc: Location): (r: Result<bool, Error>)
    ensures r.Err? <==> |loc.coordinates| != 2
    ensures r.Err? ==> r.error == ValueError
    ensures r.Ok? ==> (r.value <==> InRange(loc.coordinates[0], loc.coordinates[1]))
  {
    if |loc.coordinates| != 2 then Err(ValueError)
    else
      var lon := loc.coordinates[0];
      var lat := loc.coordinates[1];
      Ok(-180.0 <= lon <= 180.0 && -90.0 <= lat <= 90.0)
  }

  lemma LocationExamples()
    ensures ValidateLocation(Location("Point", [-73.9857, 40.7484])) == Ok(true)
    ensures ValidateLocation(Location("Point", [-200.0, 100.0])) == Ok(false)
    ensures ValidateLocation(Location("Point", [180.0, -90.0])) == Ok(true)
    ensures ValidateLocation(Location("Point", [40.7484])) == Err(ValueError)
  {
  }

  /** The rate units `validate_rate` accepts once lower-cased. */
  const ValidUnits: set<string> := {"minute", "hour", "day", "month", "year"}

  /** `validate_rate`: a rate that is not negative, in a known unit. Its
      third test, that the period is a `RateUnitPeriod`, holds of every
      rate record, whose period field has that type. */
  predicate ValidateRate(rate: Rate): (r: bool)
    ensures r ==> rate.rate >= 0.0 && 3 <= |rate.rateUnit| <= 6
    ensures r <==> rate.rate >= 0.0 && Lower(rate.rateUnit) in {"minute", "hour", "day", "month", "year"}
  {
    rate.rate >= 0.0 && Lower(rate.rateUnit) in ValidUnits
  }

  /** The unit test ignores letter case. */
  lemma ValidateRateIgnoresCase(rate: Rate)
    ensures ValidateRate(rate.(rateUnit := Upper(rate.rateUnit))) == ValidateRate(rate)
  {
    CaseMapsAgree(rate.rateUnit);
  }

  lemma RateExamples()
    ensures ValidateRate(Rate(0.0, "hour", Rolling))
    ensures ValidateRate(Rate(2.5, "Hour", Calendar))
    ensures !ValidateRate(Rate(2.5, "week", Rolling))
    ensures !ValidateRate(Rate(-1.0, "hour", Rolling))
  {
    assert Lower("hour") == "hour" && Lower("Hour") == "hour" && Lower("week") == "week";
  }

  /** The attribute names of a time span record. */
  const TimeSpanFields: set<string> := {"days_of_week", "time_of_day_start", "time_of_day_end"}

  /** Reading attribute `name` of a time span record: its three fields, as
      the JSON values they hold; any other name raises AttributeError, which
      stands here as a TypeError. */
  function Attr(t: TimeSpan, name: string): (r: Result<JSON, Error>)
    ensures r.Ok? <==> name in TimeSpanFields
    ensures name == "days_of_week" ==> r == Ok(StrList(t.daysOfWeek))
    ensures name == "time_of_day_start" ==> r == Ok(Str(t.timeOfDayStart))
    ensures name == "time_of_day_end" ==> r == Ok(Str(t.timeOfDayEnd))
    ensures r.Err? ==> r.error == TypeError
  {
    if name == "days_of_week" then Ok(StrList(t.daysOfWeek))
    else if name == "time_of_day_start" then Ok(Str(t.timeOfDayStart))
    else if name == "time_of_day_end" then Ok(Str(t.timeOfDayEnd))
    else Err(TypeError)
  }

  /** The body of `validate_time_span` on a record, reading the days, start
      and end through the attribute names given, in the order the code does:
      the days first, the end only once the start is a valid time. A value of
      a kind the checks do not take is not modelled. */
  function ValidateTimeSpanReads(t: TimeSpan, daysName: string, startName: string, endName: string): (r: Result<bool, Error>)
    ensures Attr(t, daysName).Err? ==> r == Err(Attr(t, daysName).error)
    ensures r.Ok? && r.value ==> Attr(t, daysName).Ok? && Attr(t, startName).Ok? && Attr(t, endName).Ok?
  {
    var days :- Attr(t, daysName);
    var names := AsStrs(days);
    if names.Err? then Err(NotModelled)
    else if !ValidateDays(names.value) then Ok(false)
    else
      var start :- Attr(t, startName);
      if !start.Str? then Err(NotModelled)
      else if !ValidateTimeFormat(start.s) then Ok(false)
      else
        var end :- Attr(t, endName);
        if !end.Str? then Err(NotModelled)
        else if !ValidateTimeFormat(end.s) then Ok(false)
        else Ok(NotAfter(StrptimeHM(start.s).value, StrptimeHM(end.s).value))
  }

  /** `validate_time_span` applied to a time span record, as the code stands:
      it reads the attributes `days`, `start_time` and `end_time`. */
  function ValidateTimeSpanRecordAsWritten(t: TimeSpan): (r: Result<bool, Error>)
    ensures r == ValidateTimeSpanReads(t, "days", "start_time", "end_time")
  {
    ValidateTimeSpanReads(t, "days", "start_time", "end_time")
  }

  /** The record has no attribute `days`, so the code as written raises
      AttributeError whatever the record holds. */
  lemma AsWrittenAlwaysRaises(t: TimeSpan)
    ensures ValidateTimeSpanRecordAsWritten(t) == Err(TypeError)
  {
    assert "days" !in TimeSpanFields;
  }

  /** `validate_time_span` applied to a time span record through the fields
      the record does have. */
  function ValidateTimeSpanRecord(t: TimeSpan): (r: bool)
    ensures r <==> ValidateTimeSpan(t.daysOfWeek, t.timeOfDayStart, t.timeOfDayEnd)
  {
    ValidateTimeSpan(t.daysOfWeek, t.timeOfDayStart, t.timeOfDayEnd)
  }

  /** Reading the record's own attribute names, the body of the check is
      the span check on the record's fields, and never fails. */
  lemma CorrectedReadsAgree(t: TimeSpan)
    ensures ValidateTimeSpanReads(t, "days_of_week", "time_of_day_start", "time_of_day_end") == Ok(ValidateTimeSpanRecord(t))
  {
    StrListRoundTrip(t.daysOfWeek);
  }

  /** The span of the record tests, Monday and Tuesday 09:00 to 17:00, makes
      the code as written raise, while the corrected check accepts it and
      still rejects an overnight span. */
  lemma TimeSpanRecordDiscrepancy()
    ensures ValidateTimeSpanRecordAsWritten(TimeSpan(["mon", "tue"], "09:00", "17:00")).Err?
    ensures ValidateTimeSpanRecord(TimeSpan(["mon", "tue"], "09:00", "17:00"))
    ensures !ValidateTimeSpanRecord(TimeSpan(["SAT"], "22:00", "06:00"))
  {
    AsWrittenAlwaysRaises(TimeSpan(["mon", "tue"], "09:00", "17:00"));
    WorkdaySpanAccepted();
    OvernightSpanRejected();
  }

  /** A rule's `max_stay` of zero is a valid record but not a valid duration. */
  lemma ZeroMaxStayUnvalidated()
    ensures RuleFromJson(Obj(map["activity" := Str("parking"), "max_stay" := IntToJson(0)])).Ok?
    ensures !ValidateDuration(0)
  {
    MaxStayUnchecked(0);
  }
}
