/**
 * Conversions between the terminal's 14-character date-time sequences
 * (`YYYYMMDDHHMMSS`) and a date-time value, and back at the unit `date`,
 * `hour`, `minute` or `second`.
 */
module DateTimeUtil {
  import opened Common
  import opened PyStr

  /** A Python `datetime` without microseconds or time zone. */
  datatype DateTime = DateTime(year: int, month: int, day: int, hour: int, minute: int, second: int)

  predicate IsLeapYear(y: int) {
    y % 4 == 0 && (y % 100 != 0 || y % 400 == 0)
  }

  function DaysInMonth(y: int, m: int): (days: int)
    requires 1 <= m <= 12
  {
    if m == 2 then (if IsLeapYear(y) then 29 else 28)
    else if m == 4 || m == 6 || m == 9 || m == 11 then 30
    else 31
  }

  /** The values a `datetime` can hold. */
  predicate Valid(d: DateTime) {
    && 1 <= d.year <= 9999
    && 1 <= d.month <= 12
    && 1 <= d.day <= DaysInMonth(d.year, d.month)
    && 0 <= d.hour < 24
    && 0 <= d.minute < 60
    && 0 <= d.second < 60
  }

  predicate IsDigit(c: char) {
    '0' <= c <= '9'
  }

  predicate AllDigits(s: string) {
    forall i :: 0 <= i < |s| ==> IsDigit(s[i])
  }

  function DigitChar(n: nat): (c: char)
    requires n < 10
    ensures IsDigit(c)
  {
    ('0' as int + n) as char
  }

  function DigitValue(c: char): (n: nat)
    requires IsDigit(c)
    ensures n < 10 && DigitChar(n) == c
  {
    c as int - '0' as int
  }

  /** The number a string of decimal digits denotes. */
  function Num(s: string): (n: nat)
    requires AllDigits(s)
  {
    if s == [] then 0 else 10 * Num(s[..|s| - 1]) + DigitValue(s[|s| - 1])
  }

  /** `n` in four zero-padded decimal digits (`%Y` as the Windows C runtime writes it). */
  function Pad4(n: nat): (s: string)
    requires n < 10000
    ensures |s| == 4 && AllDigits(s)
  {
    [DigitChar(n / 1000), DigitChar(n / 100 % 10), DigitChar(n / 10 % 10), DigitChar(n % 10)]
  }

  /** `n` in two zero-padded decimal digits (`%m`, `%d`, `%H`, `%M`, `%S`). */
  function Pad2(n: nat): (s: string)
    requires n < 100
    ensures |s| == 2 && AllDigits(s)
  {
    [DigitChar(n / 10), DigitChar(n % 10)]
  }

  /** `datetime_sequence_to_datetime`: `None` unless the input has 14 characters,
      otherwise `strptime(sequence, '%Y%m%d%H%M%S')`, which reads the fields by
      position and raises `ValueError` for a value no `datetime` can hold. */
  function SequenceToDateTime(sequence: string): (r: Result<Option<DateTime>>)
    requires |sequence| == 14 ==> AllDigits(sequence)
    ensures r == Ok(None) <==> |sequence| != 14
    ensures r.Err? ==> r.fault == ValueError
    ensures r.Ok? && r.value.Some? ==> Valid(r.value.value)
  {
    if |sequence| != 14 then Ok(None)
    else
      var d := DateTime(Num(sequence[0..4]), Num(sequence[4..6]), Num(sequence[6..8]),
                        Num(sequence[8..10]), Num(sequence[10..12]), Num(sequence[12..14]));
      if Valid(d) then Ok(Some(d)) else Err(ValueError)
  }

  /** The number of leading fields of `%Y%m%d%H%M%S` a unit selects: `str(unit).lower()`
      compared with `date`, `hour`, `minute` and `second` in turn. `None` is `str(None)`,
      that is `"None"`. */
  function FieldCount(unit: Option<string>): (n: Option<nat>)
    ensures n.Some? <==> unit.Some? && Lower(unit.value) in {"date", "hour", "minute", "second"}
    ensures n == Some(3) <==> unit.Some? && Lower(unit.value) == "date"
    ensures n == Some(6) <==> unit.Some? && Lower(unit.value) == "second"
    ensures n.Some? ==> 3 <= n.value <= 6
  {
    assert Lower("None")[0] == 'n';
    var u := Lower(if unit.None? then "None" else unit.value);
    if u == "date" then Some(3)
    else if u == "hour" then Some(4)
    else if u == "minute" then Some(5)
    else if u == "second" then Some(6)
    else None
  }

  /** `strftime` with the first `fields` directives of `%Y%m%d%H%M%S`. */
  function Strftime(d: DateTime, fields: nat): (s: string)
    requires Valid(d) && 3 <= fields <= 6
    ensures AllDigits(s)
  {
    var year, month, day := Pad4(d.year), Pad2(d.month), Pad2(d.day);
    var hour: string := if fields >= 4 then Pad2(d.hour) else [];
    var minute: string := if fields >= 5 then Pad2(d.minute) else [];
    var second: string := if fields >= 6 then Pad2(d.second) else [];
    DigitsAppend(year, month);
    DigitsAppend(year + month, day);
    DigitsAppend(year + month + day, hour);
    DigitsAppend(year + month + day + hour, minute);
    DigitsAppend(year + month + day + hour + minute, second);
    year + month + day + hour + minute + second
  }

  /** `datetime_to_sequence`. */
  function DateTimeToSequence(dateTime: DateTime, unit: Option<string>): (r: Option<string>)
    requires Valid(dateTime)
    ensures r.Some? <==> unit.Some? && Lower(unit.value) in {"date", "hour", "minute", "second"}
    ensures r.Some? ==> AllDigits(r.value)
  {
    match FieldCount(unit)
    case None => None
    case Some(n) => Some(Strftime(dateTime, n))
  }

  // ---------------------------------------------------------------------------
  // Digits

  lemma NumPad4(n: nat)
    requires n < 10000
    ensures Num(Pad4(n)) == n
  {
    var s := Pad4(n);
    NumFour(s);
    assert DigitValue(s[0]) == n / 1000 && DigitValue(s[1]) == n / 100 % 10;
    assert DigitValue(s[2]) == n / 10 % 10 && DigitValue(s[3]) == n % 10;
    Tens(n);
    Tens(n / 10);
    Tens(n / 100);
    assert n / 10 / 10 == n / 100 && n / 100 / 10 == n / 1000;
  }

  lemma Tens(n: nat)
    ensures n == 10 * (n / 10) + n % 10
  {
  }

  lemma Pad4Num(s: string)
    requires |s| == 4 && AllDigits(s)
    ensures Num(s) < 10000 && Pad4(Num(s)) == s
  {
    NumFour(s);
    var n := Num(s);
    var d0, d1, d2, d3 := DigitValue(s[0]), DigitValue(s[1]), DigitValue(s[2]), DigitValue(s[3]);
    assert n / 10 == 100 * d0 + 10 * d1 + d2 && n % 10 == d3;
    assert n / 100 == 10 * d0 + d1 && n / 10 % 10 == d2;
    assert n / 1000 == d0 && n / 100 % 10 == d1;
    assert Pad4(n) == [s[0], s[1], s[2], s[3]];
  }

  /** A four-digit string denotes its digits weighted by 1000, 100, 10 and 1. */
  lemma NumFour(s: string)
    requires |s| == 4 && AllDigits(s)
    ensures Num(s) == 1000 * DigitValue(s[0]) + 100 * DigitValue(s[1]) + 10 * DigitValue(s[2]) + DigitValue(s[3])
  {
    var two, three := s[..2], s[..3];
    NumTwo(two);
    assert three[..2] == two && two[0] == s[0] && two[1] == s[1];
    assert Num(three) == 10 * Num(two) + DigitValue(s[2]);
    assert s[..3] == three;
  }

  lemma NumPad2(n: nat)
    requires n < 100
    ensures Num(Pad2(n)) == n
  {
    var s := Pad2(n);
    NumTwo(s);
    assert DigitValue(s[0]) == n / 10 && DigitValue(s[1]) == n % 10;
  }

  lemma Pad2Num(s: string)
    requires |s| == 2 && AllDigits(s)
    ensures Num(s) < 100 && Pad2(Num(s)) == s
  {
    NumTwo(s);
    var n := Num(s);
    assert n / 10 == DigitValue(s[0]) && n % 10 == DigitValue(s[1]);
    assert Pad2(n) == [s[0], s[1]];
  }

  /** A two-digit string denotes ten times its first digit plus its second. */
  lemma NumTwo(s: string)
    requires |s| == 2 && AllDigits(s)
    ensures Num(s) == 10 * DigitValue(s[0]) + DigitValue(s[1])
  {
    assert s[..|s| - 1] == [s[0]];
    assert [s[0]][..0] == [];
    assert Num([s[0]]) == DigitValue(s[0]);
  }

  lemma DigitsAppend(a: string, b: string)
    requires AllDigits(a) && AllDigits(b)
    ensures AllDigits(a + b)
  {
    forall i | 0 <= i < |a + b| ensures IsDigit((a + b)[i]) {
      if i >= |a| {
        assert (a + b)[i] == b[i - |a|];
      }
    }
  }

  // ---------------------------------------------------------------------------
  // Properties of the conversions

  /** Output lengths: 8, 10, 12 or 14 characters for `date`, `hour`, `minute`, `second`. */
  lemma SequenceLength(dateTime: DateTime, unit: string)
    requires Valid(dateTime)
    ensures Lower(unit) == "date" ==> |DateTimeToSequence(dateTime, Some(unit)).value| == 8
    ensures Lower(unit) == "hour" ==> |DateTimeToSequence(dateTime, Some(unit)).value| == 10
    ensures Lower(unit) == "minute" ==> |DateTimeToSequence(dateTime, Some(unit)).value| == 12
    ensures Lower(unit) == "second" ==> |DateTimeToSequence(dateTime, Some(unit)).value| == 14
  {
  }

  /** A year below 1000 is written with leading zeros, so it still gives 14 characters. */
  lemma LeadingZeroYear()
    ensures DateTimeToSequence(DateTime(999, 1, 1, 0, 0, 0), Some("second"))
         == Some(['0', '9', '9', '9'] + ['0', '1'] + ['0', '1'] + ['0', '0'] + ['0', '0'] + ['0', '0'])
  {
    assert Lower("second") == "second";
    assert Pad4(999) == ['0', '9', '9', '9'];
    assert Pad2(1) == ['0', '1'] && Pad2(0) == ['0', '0'];
    assert FieldCount(Some("second")) == Some(6);
  }

  /** Matching the unit ignores case. */
  lemma UnitCaseInsensitive(dateTime: DateTime, unit: string)
    requires Valid(dateTime)
    ensures DateTimeToSequence(dateTime, Some(unit)) == DateTimeToSequence(dateTime, Some(Lower(unit)))
  {
    assert Lower(Lower(unit)) == Lower(unit);
  }

  /** The coarser units give prefixes of the finer ones. */
  lemma UnitPrefixes(dateTime: DateTime)
    requires Valid(dateTime)
    ensures var date, hour := DateTimeToSequence(dateTime, Some("date")), DateTimeToSequence(dateTime, Some("hour"));
            var minute, second := DateTimeToSequence(dateTime, Some("minute")), DateTimeToSequence(dateTime, Some("second"));
            date.Some? && hour.Some? && minute.Some? && second.Some? &&
            date.value <= hour.value <= minute.value <= second.value
  {
    assert Lower("date") == "date" && Lower("hour") == "hour";
    assert Lower("minute") == "minute" && Lower("second") == "second";
    var base := Pad4(dateTime.year) + Pad2(dateTime.month) + Pad2(dateTime.day);
    assert Strftime(dateTime, 3) == base;
    assert Strftime(dateTime, 4) == base + Pad2(dateTime.hour);
    assert Strftime(dateTime, 5) == base + Pad2(dateTime.hour) + Pad2(dateTime.minute);
    assert Strftime(dateTime, 6) == base + Pad2(dateTime.hour) + Pad2(dateTime.minute) + Pad2(dateTime.second);
  }

  /** Parsing a 14-digit sequence and formatting it back at unit `second` gives the
      original sequence (a year with leading zeros included). */
  lemma SequenceRoundTrip(sequence: string)
    requires |sequence| == 14 && AllDigits(sequence)
    requires SequenceToDateTime(sequence).Ok? && SequenceToDateTime(sequence).value.Some?
    ensures DateTimeToSequence(SequenceToDateTime(sequence).value.value, Some("second")) == Some(sequence)
  {
    var d := SequenceToDateTime(sequence).value.value;
    assert Lower("second") == "second";
    Pad4Num(sequence[0..4]);
    Pad2Num(sequence[4..6]);
    Pad2Num(sequence[6..8]);
    Pad2Num(sequence[8..10]);
    Pad2Num(sequence[10..12]);
    Pad2Num(sequence[12..14]);
    assert sequence == sequence[0..4] + sequence[4..6] + sequence[6..8]
                     + sequence[8..10] + sequence[10..12] + sequence[12..14];
  }

  /** Formatting a date-time at unit `second` and parsing the result gives the
      date-time back. */
  lemma DateTimeRoundTrip(dateTime: DateTime)
    requires Valid(dateTime)
    ensures DateTimeToSequence(dateTime, Some("second")).Some?
    ensures var s := DateTimeToSequence(dateTime, Some("second")).value;
            |s| == 14 && SequenceToDateTime(s) == Ok(Some(dateTime))
  {
    assert Lower("second") == "second";
    var y, mo, d := Pad4(dateTime.year), Pad2(dateTime.month), Pad2(dateTime.day);
    var h, mi, se := Pad2(dateTime.hour), Pad2(dateTime.minute), Pad2(dateTime.second);
    var s := DateTimeToSequence(dateTime, Some("second")).value;
    assert s == y + mo + d + h + mi + se;
    assert s[0..4] == y;
    assert s[4..6] == mo;
    assert s[6..8] == d;
    assert s[8..10] == h;
    assert s[10..12] == mi;
    assert s[12..14] == se;
    NumPad4(dateTime.year);
    NumPad2(dateTime.month);
    NumPad2(dateTime.day);
    NumPad2(dateTime.hour);
    NumPad2(dateTime.minute);
    NumPad2(dateTime.second);
  }
}
