/**
 The `YYYY-MM-DD` spelling of days: strict, calendar-checked parsing and zero-padded formatting.
 Text is modelled as a sequence of one-byte characters.
 */
module DateText {
  import opened Common
  import opened Calendar

  predicate IsDigit(c: char) {
    '0' <= c <= '9'
  }

  predicate AllDigits(s: string) {
    forall i | 0 <= i < |s| :: IsDigit(s[i])
  }

  function DigitValue(c: char): nat
    requires IsDigit(c)
  {
    c as int - '0' as int
  }

  function DigitChar(n: nat): char
    requires n < 10
  {
    (n + '0' as int) as char
  }

  function Value(s: string): nat
    requires AllDigits(s)
  {
    if s == [] then 0 else Value(s[..|s| - 1]) * 10 + DigitValue(s[|s| - 1])
  }

  /** Decimal digits, zero-padded on the left to at least `width`. */
  function Padded(n: nat, width: nat): string {
    if n == 0 && width == 0 then ""
    else Padded(n / 10, if width == 0 then 0 else width - 1) + [DigitChar(n % 10)]
  }

  /** Zero-padding of a signed number counts the sign towards the width. */
  function PaddedSigned(n: int, width: nat): string {
    if n < 0 then "-" + Padded(-n, if width == 0 then 0 else width - 1) else Padded(n, width)
  }

  function FormatDate(day: Day): string {
    var c := CivilFromDays(day);
    PaddedSigned(c.year, 4) + "-" + PaddedSigned(c.month, 2) + "-" + PaddedSigned(c.day, 2)
  }

  function ParseDigits(s: string): Option<nat> {
    if AllDigits(s) then Some(Value(s)) else None
  }

  function ParseDate(raw: string): Option<Day> {
    if |raw| != 10 || raw[4] != '-' || raw[7] != '-' then None
    else
      var year, month, day := ParseDigits(raw[0..4]), ParseDigits(raw[5..7]), ParseDigits(raw[8..10]);
      if year.None? || month.None? || day.None? then None
      else if !(1 <= month.value <= 12) || day.value == 0 || day.value > DaysInMonth(year.value, month.value) then None
      else Some(DaysFromCivil(Date(year.value, month.value, day.value)))
  }

  // ---------------------------------------------------------------------------
  // Digits.

  function Pow10(k: nat): nat {
    if k == 0 then 1 else 10 * Pow10(k - 1)
  }

  lemma {:induction false} PaddedShape(n: nat, width: nat)
    ensures AllDigits(Padded(n, width))
    ensures Value(Padded(n, width)) == n
    ensures |Padded(n, width)| >= width
    ensures |Padded(n, width)| == width <==> n < Pow10(width)
    decreases width, n
  {
    if n != 0 || width != 0 {
      var init := Padded(n / 10, if width == 0 then 0 else width - 1);
      PaddedShape(n / 10, if width == 0 then 0 else width - 1);
      assert Padded(n, width)[..|Padded(n, width)| - 1] == init;
    }
  }

  lemma {:induction false} PaddedOfValue(s: string)
    requires AllDigits(s)
    ensures Padded(Value(s), |s|) == s
    decreases |s|
  {
    if s != [] {
      PaddedOfValue(s[..|s| - 1]);
      assert s == s[..|s| - 1] + [s[|s| - 1]];
    }
  }

  // ---------------------------------------------------------------------------
  // Round trips.

  /** Whatever parses is the spelling of the day it parses to. */
  lemma ParsedIsFormatted(raw: string)
    ensures ParseDate(raw).Some? ==> FormatDate(ParseDate(raw).value) == raw
  {
    if ParseDate(raw).Some? {
      var y, m, d := raw[0..4], raw[5..7], raw[8..10];
      PaddedOfValue(y);
      PaddedOfValue(m);
      PaddedOfValue(d);
      CivilOfDays(Date(Value(y), Value(m), Value(d)));
      assert raw == y + "-" + m + "-" + d;
    }
  }

  lemma JoinedParts(y: string, m: string, d: string)
    requires |y| == 4 && |m| == 2 && |d| == 2
    ensures var raw := y + "-" + m + "-" + d;
            |raw| == 10 && raw[4] == '-' && raw[7] == '-' && raw[0..4] == y && raw[5..7] == m && raw[8..10] == d
  {
  }

  lemma FormattedInRange(day: Day)
    requires 0 <= CivilFromDays(day).year <= 9999
    ensures ParseDate(FormatDate(day)) == Some(day)
  {
    var c := CivilFromDays(day);
    DaysOfCivil(day);
    assert Pow10(2) == 100 && Pow10(4) == 10000;
    PaddedShape(c.year, 4);
    PaddedShape(c.month, 2);
    PaddedShape(c.day, 2);
    JoinedParts(Padded(c.year, 4), Padded(c.month, 2), Padded(c.day, 2));
  }

  lemma FormattedOutOfRange(day: Day)
    requires !(0 <= CivilFromDays(day).year <= 9999)
    ensures ParseDate(FormatDate(day)) == None
  {
    var c := CivilFromDays(day);
    DaysOfCivil(day);
    assert Pow10(2) == 100 && Pow10(4) == 10000;
    PaddedShape(c.month, 2);
    PaddedShape(c.day, 2);
    var y := PaddedSigned(c.year, 4);
    if c.year < 0 {
      PaddedShape(-c.year, 3);
      var raw := FormatDate(day);
      assert raw[0] == '-';
      if |raw| == 10 {
        assert raw[0..4][0] == '-';
        assert !AllDigits(raw[0..4]);
      }
    } else {
      PaddedShape(c.year, 4);
    }
  }

  lemma LateInYear(y: int, doy: int)
    requires 0 <= doy < YearLength(y % 400)
    ensures DateInYear(y, doy).year == (if doy >= 306 then y + 1 else y)
  {
    MonthBounds(doy);
  }

  lemma FourDigitEras(era: int, yoe: int, start: int, doy: int)
    requires 0 <= yoe < 400 && 0 <= start && 0 <= doy && start + doy < 146097
    requires if yoe == 399 then start == 145731 else start + doy < 145731
    ensures var y := era * 400 + yoe;
            var year := if doy >= 306 then y + 1 else y;
            0 <= year <= 9999 <==> -60 <= era * 146097 + start + doy <= 3652364
  {
    if era >= 25 {
      assert era * 146097 >= 3652425;
    } else if era <= -2 {
      assert era * 146097 <= -292194;
    } else if era == 24 {
    } else if era == -1 {
    } else {
      assert 0 <= era * 146097 <= 3360231;
    }
  }

  lemma DayInEra(y: int, doy: int)
    ensures DayNumber(y, doy) + 719468 == y / 400 * 146097 + YearStart(y % 400) + doy
  {
  }

  /** The days of the years 0000 to 9999. */
  lemma FourDigitYears(day: Day)
    ensures 0 <= CivilFromDays(day).year <= 9999 <==> -719528 <= day <= 2932896
  {
    var y, doy := YearAndDay(day);
    CivilOfYear(y, doy);
    LateInYear(y, doy);
    DayInEra(y, doy);
    FourDigitYear(y, doy);
  }

  lemma FourDigitYear(y: int, doy: int)
    requires 0 <= doy < YearLength(y % 400)
    ensures 0 <= (if doy >= 306 then y + 1 else y) <= 9999 <==>
            -60 <= y / 400 * 146097 + YearStart(y % 400) + doy <= 3652364
  {
    YearStartBounds(y % 400);
    EarlyYears(y % 400);
    FourDigitEras(y / 400, y % 400, YearStart(y % 400), doy);
  }

  lemma EarlyYears(yoe: int)
    requires 0 <= yoe < 400
    ensures yoe < 399 ==> YearStart(yoe) + YearLength(yoe) <= YearStart(399) == 145731
  {
    if yoe < 398 {
      YearsUpTo(yoe + 1, 399);
    }
    YearsTile(yoe);
  }

  lemma {:induction false} YearsUpTo(m: int, n: int)
    requires 0 <= m <= n < 400
    ensures YearStart(m) <= YearStart(n)
    decreases n - m
  {
    if m < n {
      YearsTile(m);
      YearsUpTo(m + 1, n);
    }
  }

  /** Formatting and then parsing a day gives it back exactly for the years 0000 to 9999; every other
      day's spelling is refused. */
  lemma RoundTrip(day: Day)
    ensures ParseDate(FormatDate(day)) == if -719528 <= day <= 2932896 then Some(day) else None
  {
    FourDigitYears(day);
    if 0 <= CivilFromDays(day).year <= 9999 {
      FormattedInRange(day);
    } else {
      FormattedOutOfRange(day);
    }
  }
}
