/**
 Day numbers (days since 1970-01-01) and proleptic Gregorian dates. The two conversions are the
 usual era-based formulas; they are proved to be mutual inverses on every day number and every
 calendar-valid date.
 */
module Calendar {

  type Day = int

  datatype Date = Date(year: int, month: int, day: int)

  predicate IsLeapYear(year: int) {
    (year % 4 == 0 && year % 100 != 0) || year % 400 == 0
  }

  function DaysInMonth(year: int, month: int): nat {
    match month
    case 1 => 31
    case 3 => 31
    case 5 => 31
    case 7 => 31
    case 8 => 31
    case 10 => 31
    case 12 => 31
    case 4 => 30
    case 6 => 30
    case 9 => 30
    case 11 => 30
    case 2 => if IsLeapYear(year) then 29 else 28
    case _ => 0
  }

  predicate ValidDate(d: Date) {
    1 <= d.month <= 12 && 1 <= d.day <= DaysInMonth(d.year, d.month)
  }

  // Years are counted from March, so that the leap day is the last day of a year, in eras of 400.

  /** The day of its era on which year `yoe` of the era starts. */
  function YearStart(yoe: int): int {
    yoe * 365 + yoe / 4 - yoe / 100
  }

  /** The day of its March-based year on which month `mp` (March is 0) starts. */
  function MonthStart(mp: int): int {
    (153 * mp + 2) / 5
  }

  function MonthFromMarch(month: int): int {
    if month > 2 then month - 3 else month + 9
  }

  /** The March-based year of a date, and its day of that year. */
  function MarchYear(d: Date): int {
    if d.month <= 2 then d.year - 1 else d.year
  }

  function DayOfYear(d: Date): int {
    MonthStart(MonthFromMarch(d.month)) + d.day - 1
  }

  function DayNumber(y: int, doy: int): Day {
    var era := y / 400;
    var yoe := y - era * 400;
    var doe := YearStart(yoe) + doy;
    era * 146097 + doe - 719468
  }

  function DaysFromCivil(d: Date): Day {
    DayNumber(MarchYear(d), DayOfYear(d))
  }

  function YearOfEra(doe: int): int {
    (doe - doe / 1460 + doe / 36524 - doe / 146096) / 365
  }

  /** The date of day `doy` of the March-based year `y`. */
  function DateInYear(y: int, doy: int): Date {
    var mp := (5 * doy + 2) / 153;
    var d := doy - MonthStart(mp) + 1;
    var m := if mp < 10 then mp + 3 else mp - 9;
    Date(if m <= 2 then y + 1 else y, m, d)
  }

  function CivilFromDays(day: Day): Date {
    var z := day + 719468;
    var era := z / 146097;
    var doe := z - era * 146097;
    var yoe := YearOfEra(doe);
    DateInYear(yoe + era * 400, doe - YearStart(yoe))
  }

  // ---------------------------------------------------------------------------
  // Years within an era.

  /** Whether the March-based year `yoe` ends in a leap day. */
  predicate EndsInLeapDay(yoe: int) {
    (yoe % 4 == 3 && yoe % 100 != 99) || yoe == 399
  }

  function YearLength(yoe: int): int {
    if EndsInLeapDay(yoe) then 366 else 365
  }

  lemma YearsTile(yoe: int)
    requires 0 <= yoe < 400
    ensures YearStart(yoe + 1) == YearStart(yoe) + YearLength(yoe) || yoe == 399
    ensures yoe == 399 ==> YearStart(yoe) + YearLength(yoe) == 146097
  {
  }

  /** The closed formula finds the year, from the century, four-year cycle and year in the cycle. */
  lemma YearOfEraSplit(c: int, q: int, r: int, doy: int)
    requires 0 <= c < 4 && 0 <= q < 25 && 0 <= r < 4
    requires 0 <= doy < 365 || (doy == 365 && r == 3 && (q < 24 || c == 3))
    ensures YearOfEra(36524 * c + 1461 * q + 365 * r + doy) == 100 * c + 4 * q + r
  {
    var rest := 1461 * q + 365 * r + doy;
    var doe := 36524 * c + rest;
    if doe == 146096 {
      assert c == 3 && q == 24 && r == 3 && doy == 365;
    } else {
      assert rest < 36524;
      assert doe / 36524 == c;
      assert doe / 146096 == 0;
    }
    var small := 24 * c + q + 365 * r + doy;
    var e := if small >= 1460 then 1 else 0;
    assert doe == 1460 * (25 * c + q) + small;
    assert doe / 1460 == 25 * c + q + e;
    assert doe - doe / 1460 + doe / 36524 - doe / 146096 == 365 * (100 * c + 4 * q + r) + doy - e;
  }

  lemma YearOfEraInverse(yoe: int, doy: int)
    requires 0 <= yoe < 400 && 0 <= doy < YearLength(yoe)
    ensures YearOfEra(YearStart(yoe) + doy) == yoe
  {
    var c := yoe / 100;
    var q := yoe % 100 / 4;
    var r := yoe % 4;
    assert yoe == 100 * c + 4 * q + r;
    assert yoe / 4 == 25 * c + q;
    YearOfEraSplit(c, q, r, doy);
  }

  /** Every day of an era lies in one of its years. */
  lemma {:induction false} YearBelow(doe: int, yoe: int) returns (y: int)
    requires 0 <= yoe < 400 && 0 <= doe < YearStart(yoe) + YearLength(yoe)
    ensures 0 <= y <= yoe && 0 <= doe - YearStart(y) < YearLength(y)
    decreases yoe
  {
    if doe >= YearStart(yoe) {
      y := yoe;
    } else {
      YearsTile(yoe - 1);
      y := YearBelow(doe, yoe - 1);
    }
  }

  lemma YearOfEraBounds(doe: int)
    requires 0 <= doe < 146097
    ensures var yoe := YearOfEra(doe);
            0 <= yoe < 400 && 0 <= doe - YearStart(yoe) < YearLength(yoe)
  {
    YearsTile(399);
    var y := YearBelow(doe, 399);
    YearOfEraInverse(y, doe - YearStart(y));
  }

  // ---------------------------------------------------------------------------
  // Months within a year.

  lemma MonthOfDay(mp: int, doy: int)
    requires 0 <= mp < 12
    requires MonthStart(mp) <= doy < (if mp == 11 then 366 else MonthStart(mp + 1))
    ensures (5 * doy + 2) / 153 == mp
  {
  }

  lemma MonthBounds(doy: int)
    requires 0 <= doy < 366
    ensures var mp := (5 * doy + 2) / 153;
            0 <= mp < 12 && MonthStart(mp) <= doy < (if mp == 11 then 366 else MonthStart(mp + 1))
  {
  }

  lemma MonthLengths(year: int, month: int)
    requires 1 <= month <= 12
    ensures var mp := MonthFromMarch(month);
            && 0 <= mp < 12
            && (month != 2 ==> DaysInMonth(year, month) == MonthStart(mp + 1) - MonthStart(mp) && mp < 11)
            && (month == 2 ==> mp == 11 && MonthStart(mp) == 337)
  {
  }

  lemma LeapIsPeriodic(k: int, m: int)
    requires 0 <= m < 400
    ensures IsLeapYear(400 * k + m + 1) <==> IsLeapYear(m + 1)
  {
    Mod4(m + 1, 100 * k);
    Mod100(m + 1, 4 * k);
    Mod400(m + 1, k);
  }

  lemma Mod4(x: int, q: int)
    ensures (4 * q + x) % 4 == x % 4
  {
  }

  lemma Mod100(x: int, q: int)
    ensures (100 * q + x) % 100 == x % 100
  {
  }

  lemma Mod400(x: int, q: int)
    ensures (400 * q + x) % 400 == x % 400
  {
  }

  /** February is 29 days long exactly when the March-based year that it closes has 366 days. */
  lemma FebruaryCloses(y: int)
    ensures IsLeapYear(y + 1) <==> EndsInLeapDay(y % 400)
  {
    LeapIsPeriodic(y / 400, y % 400);
  }

  lemma DayOfYearInverse(d: Date)
    requires ValidDate(d)
    ensures 0 <= DayOfYear(d) < YearLength(MarchYear(d) % 400)
    ensures DateInYear(MarchYear(d), DayOfYear(d)) == d
  {
    MonthLengths(d.year, d.month);
    FebruaryCloses(d.year - 1);
    MonthOfDay(MonthFromMarch(d.month), DayOfYear(d));
  }

  lemma DateInYearValid(y: int, doy: int)
    requires 0 <= doy < YearLength(y % 400)
    ensures var d := DateInYear(y, doy); ValidDate(d) && MarchYear(d) == y && DayOfYear(d) == doy
  {
    MonthBounds(doy);
    var d := DateInYear(y, doy);
    MonthLengths(d.year, d.month);
    FebruaryCloses(y);
  }

  // ---------------------------------------------------------------------------
  // The two conversions undo each other.

  lemma {:induction false} YearStartBounds(yoe: int)
    requires 0 <= yoe < 400
    ensures 0 <= YearStart(yoe) && YearStart(yoe) + YearLength(yoe) <= 146097
    decreases 400 - yoe
  {
    YearsTile(yoe);
    if yoe < 399 {
      YearStartBounds(yoe + 1);
    }
  }

  lemma EraOf(era: int, doe: int)
    requires 0 <= doe < 146097
    ensures (era * 146097 + doe) / 146097 == era
  {
  }

  lemma CivilOfDayNumber(era: int, yoe: int, doy: int)
    requires 0 <= yoe < 400 && 0 <= doy < YearLength(yoe)
    ensures CivilFromDays(DayNumber(era * 400 + yoe, doy)) == DateInYear(era * 400 + yoe, doy)
  {
    YearStartBounds(yoe);
    YearOfEraInverse(yoe, doy);
    var doe := YearStart(yoe) + doy;
    DayNumberInEra(era, yoe, doy);
    EraOf(era, doe);
    CivilOfEraDay(era, yoe, DayNumber(era * 400 + yoe, doy), era * 400 + yoe, doe, doy);
  }

  lemma DayNumberInEra(era: int, yoe: int, doy: int)
    requires 0 <= yoe < 400
    ensures DayNumber(era * 400 + yoe, doy) == era * 146097 + (YearStart(yoe) + doy) - 719468
  {
    assert (era * 400 + yoe) / 400 == era;
  }

  lemma CivilOfEraDay(era: int, yoe: int, day: Day, y: int, doe: int, doy: int)
    requires (day + 719468) / 146097 == era && doe == day + 719468 - era * 146097
    requires YearOfEra(doe) == yoe && y == yoe + era * 400 && doy == doe - YearStart(yoe)
    ensures CivilFromDays(day) == DateInYear(y, doy)
  {
  }

  /** Every day number is a day of some March-based year. */
  lemma YearAndDay(day: Day) returns (y: int, doy: int)
    ensures 0 <= doy < YearLength(y % 400)
    ensures DayNumber(y, doy) == day
  {
    var z := day + 719468;
    var era := z / 146097;
    var doe := z - era * 146097;
    YearOfEraBounds(doe);
    var yoe := YearOfEra(doe);
    y := era * 400 + yoe;
    doy := doe - YearStart(yoe);
    assert y / 400 == era && y % 400 == yoe;
  }

  lemma CivilOfYear(y: int, doy: int)
    requires 0 <= doy < YearLength(y % 400)
    ensures CivilFromDays(DayNumber(y, doy)) == DateInYear(y, doy)
  {
    assert y == y / 400 * 400 + y % 400;
    CivilOfDayNumber(y / 400, y % 400, doy);
  }

  lemma CivilOfDays(d: Date)
    requires ValidDate(d)
    ensures CivilFromDays(DaysFromCivil(d)) == d
  {
    DayOfYearInverse(d);
    CivilOfYear(MarchYear(d), DayOfYear(d));
  }

  lemma DaysOfCivil(day: Day)
    ensures ValidDate(CivilFromDays(day))
    ensures DaysFromCivil(CivilFromDays(day)) == day
  {
    var y, doy := YearAndDay(day);
    CivilOfYear(y, doy);
    DateInYearValid(y, doy);
  }

  /** On calendar-valid dates and on all day numbers the two conversions are mutual inverses. */
  lemma MutualInverses(d: Date, day: Day)
    ensures ValidDate(CivilFromDays(day)) && DaysFromCivil(CivilFromDays(day)) == day
    ensures ValidDate(d) ==> CivilFromDays(DaysFromCivil(d)) == d
    ensures ValidDate(d) ==> (DaysFromCivil(d) == day <==> CivilFromDays(day) == d)
  {
    DaysOfCivil(day);
    if ValidDate(d) {
      CivilOfDays(d);
    }
  }
}
