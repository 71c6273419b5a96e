/**
 Days, ISO weeks and calendar months as divisions of the timeline.
 */
module Periods {
  import opened Common
  import opened Calendar
  import opened Grouping

  datatype Period = Daily | Weekly | Monthly

  function IsoWeekday(day: Day): int {
    (day + 3) % 7 + 1
  }

  function WeekStart(day: Day): Day {
    day - (IsoWeekday(day) - 1)
  }

  function PeriodStart(p: Period, day: Day): Day {
    match p
    case Daily => day
    case Weekly => WeekStart(day)
    case Monthly => var c := CivilFromDays(day); DaysFromCivil(Date(c.year, c.month, 1))
  }

  function PeriodEnd(p: Period, day: Day): Day {
    match p
    case Daily => day
    case Weekly => WeekStart(day) + 6
    case Monthly =>
      var c := CivilFromDays(day);
      DaysFromCivil(Date(c.year, c.month, DaysInMonth(c.year, c.month)))
  }

  lemma DaysOfMonth(year: int, month: int, day: int)
    ensures DaysFromCivil(Date(year, month, day)) == DaysFromCivil(Date(year, month, 1)) + day - 1
  {
    DayNumberShift(MarchYear(Date(year, month, 1)), DayOfYear(Date(year, month, 1)), day - 1);
  }

  lemma DayNumberShift(y: int, doy: int, k: int)
    ensures DayNumber(y, doy + k) == DayNumber(y, doy) + k
  {
  }

  lemma MonthsTile(d: Day, e: Day)
    ensures PeriodStart(Monthly, d) <= d <= PeriodEnd(Monthly, d)
    ensures PeriodStart(Monthly, d) <= e <= PeriodEnd(Monthly, d) ==>
              PeriodStart(Monthly, e) == PeriodStart(Monthly, d) && PeriodEnd(Monthly, e) == PeriodEnd(Monthly, d)
  {
    DaysOfCivil(d);
    var c := CivilFromDays(d);
    var length := DaysInMonth(c.year, c.month);
    DaysOfMonth(c.year, c.month, c.day);
    DaysOfMonth(c.year, c.month, length);
    var first := PeriodStart(Monthly, d);
    if first <= e <= PeriodEnd(Monthly, d) {
      var f := Date(c.year, c.month, e - first + 1);
      DaysOfMonth(c.year, c.month, f.day);
      assert ValidDate(f) && DaysFromCivil(f) == e;
      CivilOfDays(f);
    }
  }

  /** A period holds its days, and any day inside it has the same period. */
  lemma PeriodHolds(p: Period, d: Day, e: Day)
    ensures PeriodStart(p, d) <= d <= PeriodEnd(p, d)
    ensures PeriodStart(p, d) <= e <= PeriodEnd(p, d) ==>
              PeriodStart(p, e) == PeriodStart(p, d) && PeriodEnd(p, e) == PeriodEnd(p, d)
  {
    if p.Monthly? {
      MonthsTile(d, e);
    }
  }

  /** Intervals [sd, ed] around `d` and [se, ee] around `e`, where days inside an interval have that
      interval, are equal or do not touch. */
  lemma IntervalsTile(d: int, sd: int, ed: int, e: int, se: int, ee: int, startOfSd: int, endOfSd: int, startOfSe: int)
    requires sd <= d <= ed && se <= e <= ee
    requires startOfSd == sd && endOfSd == ed && startOfSe == se
    requires sd <= e <= ed ==> se == sd && ee == ed
    requires se <= d <= ee ==> sd == se && ed == ee
    requires se <= sd <= ee ==> startOfSd == se && endOfSd == ee
    requires sd <= se <= ed ==> startOfSe == sd
    ensures sd <= e <= ed <==> se == sd
    ensures se == sd ==> ee == ed
    ensures d <= e ==> se == sd || ed < se
  {
  }

  lemma PeriodsTile(p: Period, d: Day, e: Day)
    ensures PeriodStart(p, d) <= d <= PeriodEnd(p, d)
    ensures PeriodStart(p, d) <= e <= PeriodEnd(p, d) <==> PeriodStart(p, e) == PeriodStart(p, d)
    ensures PeriodStart(p, e) == PeriodStart(p, d) ==> PeriodEnd(p, e) == PeriodEnd(p, d)
    ensures d <= e ==> PeriodStart(p, e) == PeriodStart(p, d) || PeriodEnd(p, d) < PeriodStart(p, e)
  {
    var sd, ed, se, ee := PeriodStart(p, d), PeriodEnd(p, d), PeriodStart(p, e), PeriodEnd(p, e);
    PeriodHolds(p, d, e);
    PeriodHolds(p, e, d);
    PeriodHolds(p, d, sd);
    PeriodHolds(p, e, sd);
    PeriodHolds(p, d, se);
    PeriodHolds(p, e, se);
    IntervalsTile(d, sd, ed, e, se, ee, PeriodStart(p, sd), PeriodEnd(p, sd), PeriodStart(p, se));
  }

  function PeriodBounds(p: Period): Bounds {
    day => (PeriodStart(p, day), PeriodEnd(p, day))
  }

  /** Days, weeks and months each tile the timeline. */
  lemma PeriodsAreTilings(p: Period)
    ensures Tiling(PeriodBounds(p))
  {
    var f := PeriodBounds(p);
    forall d: Day, e: Day
      ensures
        && f(d).0 <= d <= f(d).1
        && (f(d).0 <= e <= f(d).1 <==> f(e).0 == f(d).0)
        && (f(e).0 == f(d).0 ==> f(e).1 == f(d).1)
        && (d <= e ==> f(e).0 == f(d).0 || f(d).1 < f(e).0)
    {
      PeriodsTile(p, d, e);
    }
  }

  /** Aggregating date-ordered bars by day, week or month gives one candle per occupied period, in
      order, each the summary of that period's bars. */
  lemma PeriodCandles(bars: seq<Certified>, p: Period)
    requires Sorted(bars)
    ensures Groups(bars, PeriodBounds(p), Aggregate(bars, PeriodBounds(p)))
  {
    PeriodsAreTilings(p);
    AggregateGroups(bars, PeriodBounds(p));
  }
}
