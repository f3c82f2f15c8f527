/**
 * The strict `date-time` grammar of RFC 3339 (section 5.6) with the date-range checks of its
 * section 5.7, standing in for Go's `time.Parse(time.RFC3339, value)`:
 *
 *   date-time = YYYY "-" MM "-" DD "T" hh ":" mm ":" ss [ "." 1*DIGIT ] ( "Z" / ("+" / "-") hh ":" mm )
 *
 * The separators "T" and "Z" must be upper case and a leap second (ss = 60) is rejected, as in
 * Go. Go's parser is more lenient in three places this grammar is not: a one-digit hour, a comma
 * before the fraction, and an offset whose hour is 24 or whose minute is 60. Only the calendar
 * date is returned: it is the date as written, because Go keeps the parsed offset as the value's
 * location and formats in it.
 */
module Rfc3339 {
  import opened Wrappers
  import opened Text

  datatype Date = Date(year: nat, month: nat, day: nat)

  /** time.Parse's error; the model keeps the rejected text. */
  datatype ParseError = ParseError(value: string)

  predicate IsLeapYear(year: nat) {
    year % 4 == 0 && (year % 100 != 0 || year % 400 == 0)
  }

  function DaysIn(month: nat, year: nat): (n: nat)
    requires 1 <= month <= 12
    ensures 28 <= n <= 31
    ensures n == 29 <==> month == 2 && IsLeapYear(year)
  {
    if month == 2 then (if IsLeapYear(year) then 29 else 28)
    else if month == 4 || month == 6 || month == 9 || month == 11 then 30
    else 31
  }

  /** A calendar date a four-digit year can spell. */
  predicate ValidDate(d: Date) {
    d.year <= 9999 && 1 <= d.month <= 12 && 1 <= d.day <= DaysIn(d.month, d.year)
  }

  predicate DigitsAt(s: string, i: nat, n: nat) {
    i + n <= |s| && AllDigits(s[i..i + n])
  }

  function NumberAt(s: string, i: nat, n: nat): nat
    requires DigitsAt(s, i, n)
  {
    DigitsValue(s[i..i + n])
  }

  /** time-offset: "Z", or a sign, two-digit hours 00-23, ":" and two-digit minutes 00-59. */
  predicate IsTimeOffset(z: string) {
    || z == "Z"
    || (&& |z| == 6 && (z[0] == '+' || z[0] == '-')
        && DigitsAt(z, 1, 2) && z[3] == ':' && DigitsAt(z, 4, 2)
        && NumberAt(z, 1, 2) <= 23 && NumberAt(z, 4, 2) <= 59)
  }

  /** The end of the run of digits that starts at `i`. */
  function DigitRunEnd(t: string, i: nat): (j: nat)
    requires i <= |t|
    ensures i <= j <= |t| && AllDigits(t[i..j])
    ensures j < |t| ==> !IsDigit(t[j])
    decreases |t| - i
  {
    if i < |t| && IsDigit(t[i]) then
      var j := DigitRunEnd(t, i + 1);
      assert t[i..j] == [t[i]] + t[i + 1..j];
      j
    else i
  }

  /** What follows the seconds: an optional fraction "." 1*DIGIT, then the offset. */
  predicate IsFractionAndOffset(t: string) {
    || IsTimeOffset(t)
    || (|t| >= 2 && t[0] == '.' && IsDigit(t[1]) && IsTimeOffset(t[DigitRunEnd(t, 1)..]))
  }

  function DateFields(s: string): Date
    requires DigitsAt(s, 0, 4) && DigitsAt(s, 5, 2) && DigitsAt(s, 8, 2)
  {
    Date(NumberAt(s, 0, 4), NumberAt(s, 5, 2), NumberAt(s, 8, 2))
  }

  predicate IsDateTime(s: string) {
    && |s| >= 20
    && DigitsAt(s, 0, 4) && s[4] == '-' && DigitsAt(s, 5, 2) && s[7] == '-' && DigitsAt(s, 8, 2)
    && s[10] == 'T'
    && DigitsAt(s, 11, 2) && s[13] == ':' && DigitsAt(s, 14, 2) && s[16] == ':' && DigitsAt(s, 17, 2)
    && ValidDate(DateFields(s))
    && NumberAt(s, 11, 2) <= 23 && NumberAt(s, 14, 2) <= 59 && NumberAt(s, 17, 2) <= 59
    && IsFractionAndOffset(s[19..])
  }

  /** The RFC 3339 reading of s, keeping the calendar date. */
  function Parse(s: string): (r: Result<Date, ParseError>)
    ensures r.Success? <==> IsDateTime(s)
    ensures r.Success? ==> ValidDate(r.value)
    ensures r.Failure? ==> r.error.value == s
  {
    if IsDateTime(s) then Success(DateFields(s)) else Failure(ParseError(s))
  }

  /** The fields Parse returns spell exactly the digits written in the input. */
  lemma ParsedFieldsAsWritten(s: string)
    requires Parse(s).Success?
    ensures FixedDigits(Parse(s).value.year, 4) == s[0..4]
    ensures FixedDigits(Parse(s).value.month, 2) == s[5..7]
    ensures FixedDigits(Parse(s).value.day, 2) == s[8..10]
  {
    FixedDigitsOfDigitsValue(s[0..4]);
    FixedDigitsOfDigitsValue(s[5..7]);
    FixedDigitsOfDigitsValue(s[8..10]);
  }

  /** time.Time.Format(time.RFC3339) of midnight UTC on `d`. */
  function Format(d: Date): string {
    FixedDigits(d.year, 4) + "-" + FixedDigits(d.month, 2) + "-" + FixedDigits(d.day, 2) + "T00:00:00Z"
  }

  /** Where the pieces of Format(d) land. */
  lemma FormatLayout(d: Date)
    ensures |Format(d)| == 20
    ensures Format(d)[0..4] == FixedDigits(d.year, 4)
    ensures Format(d)[5..7] == FixedDigits(d.month, 2)
    ensures Format(d)[8..10] == FixedDigits(d.day, 2)
    ensures Format(d)[4] == '-' && Format(d)[7] == '-' && Format(d)[10] == 'T'
    ensures Format(d)[13] == ':' && Format(d)[16] == ':'
    ensures Format(d)[11..13] == Format(d)[14..16] == Format(d)[17..19] == FixedDigits(0, 2)
    ensures Format(d)[19..] == "Z"
  {
    var y, m, dd := FixedDigits(d.year, 4), FixedDigits(d.month, 2), FixedDigits(d.day, 2);
    var s := Format(d);
    assert s == y + "-" + m + "-" + dd + "T00:00:00Z";
    assert FixedDigits(0, 2) == "00";
  }

  /** Every valid date survives formatting and parsing. */
  lemma ParseOfFormat(d: Date)
    requires ValidDate(d)
    ensures Parse(Format(d)) == Success(d)
  {
    FormatLayout(d);
    DigitsValueOfFixedDigits(d.year, 4);
    DigitsValueOfFixedDigits(d.month, 2);
    DigitsValueOfFixedDigits(d.day, 2);
    DigitsValueOfFixedDigits(0, 2);
    assert IsTimeOffset(Format(d)[19..]);
  }

  /** A date-time written field by field: the date, "T", the time of day and `rest` (an
      optional fraction and the offset). */
  function DateTimeText(d: Date, hh: nat, mm: nat, ss: nat, rest: string): string {
    FixedDigits(d.year, 4) + "-" + FixedDigits(d.month, 2) + "-" + FixedDigits(d.day, 2)
    + "T" + FixedDigits(hh, 2) + ":" + FixedDigits(mm, 2) + ":" + FixedDigits(ss, 2) + rest
  }

  /** Where the fields of DateTimeText land. */
  lemma DateTimeLayout(d: Date, hh: nat, mm: nat, ss: nat, rest: string)
    ensures var s := DateTimeText(d, hh, mm, ss, rest);
      && |s| == 19 + |rest|
      && s[0..4] == FixedDigits(d.year, 4) && s[5..7] == FixedDigits(d.month, 2) && s[8..10] == FixedDigits(d.day, 2)
      && s[4] == '-' && s[7] == '-' && s[10] == 'T' && s[13] == ':' && s[16] == ':'
      && s[11..13] == FixedDigits(hh, 2) && s[14..16] == FixedDigits(mm, 2) && s[17..19] == FixedDigits(ss, 2)
      && s[19..] == rest
  {
    var s := DateTimeText(d, hh, mm, ss, rest);
    var date := FixedDigits(d.year, 4) + "-" + FixedDigits(d.month, 2) + "-" + FixedDigits(d.day, 2);
    var time := FixedDigits(hh, 2) + ":" + FixedDigits(mm, 2) + ":" + FixedDigits(ss, 2);
    assert s == date + "T" + time + rest;
  }

  /** A zero-padded field that fits its width reads back as its value. */
  lemma FieldAt(s: string, i: nat, n: nat, v: nat)
    requires i + n <= |s| && v < Pow10(n) && s[i..i + n] == FixedDigits(v, n)
    ensures DigitsAt(s, i, n) && NumberAt(s, i, n) == v
  {
    DigitsValueOfFixedDigits(v, n);
  }

  /** Every valid date and time of day, written out, parses to that date. */
  lemma ParseOfDateTimeText(d: Date, hh: nat, mm: nat, ss: nat, rest: string)
    requires ValidDate(d) && hh <= 23 && mm <= 59 && ss <= 59 && IsFractionAndOffset(rest)
    ensures Parse(DateTimeText(d, hh, mm, ss, rest)) == Success(d)
  {
    var s := DateTimeText(d, hh, mm, ss, rest);
    DateTimeLayout(d, hh, mm, ss, rest);
    assert Pow10(2) == 100 && Pow10(4) == 10000;
    FieldAt(s, 0, 4, d.year);
    FieldAt(s, 5, 2, d.month);
    FieldAt(s, 8, 2, d.day);
    FieldAt(s, 11, 2, hh);
    FieldAt(s, 14, 2, mm);
    FieldAt(s, 17, 2, ss);
    assert DateFields(s) == d;
  }

  /** The fields all the tests' timestamps share, rendered. */
  lemma SharedTestFields()
    ensures FixedDigits(2020, 4) == "2020" && FixedDigits(8, 2) == "08"
    ensures FixedDigits(33, 2) == "33" && FixedDigits(44, 2) == "44"
  {
    assert FixedDigits(20, 2) == "20";
    assert FixedDigits(2020, 4) == FixedDigits(20, 2) + "20";
  }

  /** The days and hours of the tests' timestamps, rendered. */
  lemma DayHourFields()
    ensures FixedDigits(31, 2) == "31" && FixedDigits(28, 2) == "28"
    ensures FixedDigits(19, 2) == "19" && FixedDigits(17, 2) == "17"
  {
  }

  /** A timestamp of the tests, 2020-08-`day` at `hour`:33:44.561 UTC, parses to its date. */
  lemma ParseTestTimestamp(s: string, dd: string, day: nat, hh: string, hour: nat)
    requires 1 <= day <= 31 && hour <= 23
    requires dd == FixedDigits(day, 2) && hh == FixedDigits(hour, 2)
    requires s == "2020" + "-" + "08" + "-" + dd + "T" + hh + ":" + "33" + ":" + "44" + ".561Z"
    ensures Parse(s) == Success(Date(2020, 8, day))
  {
    SharedTestFields();
    FractionExample();
    assert s == DateTimeText(Date(2020, 8, day), hour, 33, 44, ".561Z");
    ParseOfDateTimeText(Date(2020, 8, day), hour, 33, 44, ".561Z");
  }

  /** The valid timestamp of the name-generation tests parses to 31 August 2020. */
  lemma ParseValidExample(s: string)
    requires s == "2020-08-31T19:33:44.561Z"
    ensures Parse(s) == Success(Date(2020, 8, 31))
  {
    DayHourFields();
    assert s == "2020" + "-" + "08" + "-" + "31" + "T" + "19" + ":" + "33" + ":" + "44" + ".561Z";
    ParseTestTimestamp(s, "31", 31, "19", 19);
  }

  /** The Run test's second timestamp: the same day, two hours earlier. */
  lemma ParseEarlierExample(s: string)
    requires s == "2020-08-31T17:33:44.561Z"
    ensures Parse(s) == Success(Date(2020, 8, 31))
  {
    DayHourFields();
    assert s == "2020" + "-" + "08" + "-" + "31" + "T" + "17" + ":" + "33" + ":" + "44" + ".561Z";
    ParseTestTimestamp(s, "31", 31, "17", 17);
  }

  /** The Run test's third timestamp: 28 August. */
  lemma ParseOtherDayExample(s: string)
    requires s == "2020-08-28T19:33:44.561Z"
    ensures Parse(s) == Success(Date(2020, 8, 28))
  {
    DayHourFields();
    assert s == "2020" + "-" + "08" + "-" + "28" + "T" + "19" + ":" + "33" + ":" + "44" + ".561Z";
    ParseTestTimestamp(s, "28", 28, "19", 19);
  }

  lemma FractionExample()
    ensures IsFractionAndOffset(".561Z")
  {
    var t := ".561Z";
    assert DigitRunEnd(t, 1) == 4;
    assert t[4..] == "Z";
  }

  /** The malformed timestamp of the name-generation tests (a space instead of "T", no offset). */
  lemma ParseInvalidExample()
    ensures Parse("2020-03-24 04:45:20").Failure?
  {
    assert "2020-03-24 04:45:20"[10] == ' ';
  }
}
