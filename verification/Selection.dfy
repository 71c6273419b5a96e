/**
 Which candles of the fetched bars become points: the window is trimmed to [start, as_of], aggregated,
 and each candle is admitted by the cutoff rule on its period's end.
 */
module Selection {
  import opened Common
  import opened Calendar
  import opened Grouping
  import opened Periods

  datatype Mode = Live | Frozen

  datatype Venue = Us | Hk | Sh | Sz | Crypto | Cn

  datatype Cutoff = Cutoff(mode: Mode, period: Period, venue: Venue, start: Day, asOf: Day)

  datatype Resolved =
    | Points(candles: seq<Candle>)
    | LookbackExceedsDepth
    | NoDataNearCutoff
    | NoDataInRange

  const FETCH_MARGIN_DAYS: int := 14

  predicate VenueRelaxesLiveDaily(v: Venue) {
    v.Hk? || v.Sh? || v.Sz?
  }

  predicate Relaxed(k: Cutoff) {
    k.mode.Live? && k.period.Daily? && VenueRelaxesLiveDaily(k.venue)
  }

  predicate Includes(k: Cutoff, start: Day, end: Day, completeThrough: Day) {
    if Relaxed(k) then k.start <= end <= k.asOf
    else k.start <= start && end <= k.asOf && end < completeThrough
  }

  function InRange(bars: seq<Certified>, lo: Day, hi: Day): seq<Certified> {
    if bars == [] then []
    else
      var last := bars[|bars| - 1];
      InRange(bars[..|bars| - 1], lo, hi) + (if lo <= last.bar.date <= hi then [last] else [])
  }

  function From(bars: seq<Certified>, lo: Day): seq<Certified> {
    if bars == [] then []
    else
      var last := bars[|bars| - 1];
      From(bars[..|bars| - 1], lo) + (if lo <= last.bar.date then [last] else [])
  }

  function Keep(out: seq<Candle>, k: Cutoff): seq<Candle> {
    if out == [] then []
    else
      var c := out[|out| - 1];
      Keep(out[..|out| - 1], k) + (if Includes(k, c.start, c.end, c.certifiedBy) then [c] else [])
  }

  /** From the bars of a window to its points. */
  function PointsOf(k: Cutoff): seq<Certified> -> seq<Candle> {
    (bars: seq<Certified>) => Keep(Aggregate(bars, PeriodBounds(k.period)), k)
  }

  function Emitted(bars: seq<Certified>, k: Cutoff): seq<Candle> {
    PointsOf(k)(InRange(bars, k.start, k.asOf))
  }

  function Resolve(fetched: seq<Certified>, k: Cutoff): Resolved {
    ResolveBy(fetched, k, PointsOf(k))
  }

  function ResolveBy(fetched: seq<Certified>, k: Cutoff, points: seq<Certified> -> seq<Candle>): Resolved {
    var bars := InRange(fetched, k.start - FETCH_MARGIN_DAYS, k.asOf);
    var inWindow := From(bars, k.start);
    Checked(bars, inWindow, points(inWindow), k)
  }

  /** The refusals: no depth at the start, no data near the end, too few points. */
  function Checked(bars: seq<Certified>, inWindow: seq<Certified>, points: seq<Candle>, k: Cutoff): Resolved {
    if bars != [] && bars[0].bar.date > k.start + FETCH_MARGIN_DAYS then LookbackExceedsDepth
    else if inWindow == [] || inWindow[|inWindow| - 1].bar.date < k.asOf - FETCH_MARGIN_DAYS then NoDataNearCutoff
    else if |points| < 2 then NoDataInRange
    else Points(points)
  }

  // ---------------------------------------------------------------------------
  // Trimming.

  lemma {:induction false} TrimTwice(bars: seq<Certified>, lo: Day, start: Day, hi: Day)
    requires lo <= start
    ensures From(InRange(bars, lo, hi), start) == InRange(bars, start, hi)
    decreases |bars|
  {
    if bars != [] {
      var init, last := bars[..|bars| - 1], bars[|bars| - 1];
      TrimTwice(init, lo, start, hi);
      var inner := InRange(init, lo, hi);
      if lo <= last.bar.date <= hi {
        assert (inner + [last])[..|inner|] == inner;
      } else {
        assert inner + [] == inner;
      }
    }
  }

  lemma {:induction false} InRangeMembers(bars: seq<Certified>, lo: Day, hi: Day)
    ensures forall i | 0 <= i < |InRange(bars, lo, hi)| ::
              lo <= InRange(bars, lo, hi)[i].bar.date <= hi && InRange(bars, lo, hi)[i] in bars
    decreases |bars|
  {
    if bars != [] {
      InRangeMembers(bars[..|bars| - 1], lo, hi);
    }
  }

  lemma {:induction false} InRangeSorted(bars: seq<Certified>, lo: Day, hi: Day)
    requires Sorted(bars)
    ensures Sorted(InRange(bars, lo, hi))
    decreases |bars|
  {
    if bars != [] {
      var init, last := bars[..|bars| - 1], bars[|bars| - 1];
      InRangeSorted(init, lo, hi);
      InRangeMembers(init, lo, hi);
      var inner := InRange(init, lo, hi);
      forall i | 0 <= i < |inner|
        ensures inner[i].bar.date < last.bar.date
      {
        var j :| 0 <= j < |init| && init[j] == inner[i];
        assert bars[j] == init[j];
      }
      SortedSnoc(inner, last);
      assert InRange(bars, lo, hi) == inner + [last] || InRange(bars, lo, hi) == inner;
    }
  }

  lemma InRangeFacts(bars: seq<Certified>, lo: Day, hi: Day)
    requires Sorted(bars)
    ensures Sorted(InRange(bars, lo, hi))
    ensures forall i | 0 <= i < |InRange(bars, lo, hi)| ::
              lo <= InRange(bars, lo, hi)[i].bar.date <= hi && InRange(bars, lo, hi)[i] in bars
  {
    InRangeSorted(bars, lo, hi);
    InRangeMembers(bars, lo, hi);
  }

  lemma SortedSnoc(bars: seq<Certified>, last: Certified)
    requires Sorted(bars) && forall i | 0 <= i < |bars| :: bars[i].bar.date < last.bar.date
    ensures Sorted(bars + [last])
  {
  }

  /** Later days only extend the trimmed window at its end. */
  lemma {:induction false} RangeSplits(bars: seq<Certified>, lo: Day, mid: Day, hi: Day)
    requires Sorted(bars) && mid <= hi
    ensures InRange(bars, lo, hi) == InRange(bars, lo, mid) + InRange(bars, Max(lo, mid + 1), hi)
    decreases |bars|
  {
    if bars != [] {
      var init, last := bars[..|bars| - 1], bars[|bars| - 1];
      RangeSplits(init, lo, mid, hi);
      if last.bar.date <= mid {
        NoneAfter(init, Max(lo, mid + 1), hi, last.bar.date);
      }
    }
  }

  lemma {:induction false} NoneAfter(bars: seq<Certified>, lo: Day, hi: Day, last: Day)
    requires forall i | 0 <= i < |bars| :: bars[i].bar.date <= last
    requires last < lo
    ensures InRange(bars, lo, hi) == []
    decreases |bars|
  {
    if bars != [] {
      NoneAfter(bars[..|bars| - 1], lo, hi, last);
    }
  }

  /** Trimming to days that contain a period cuts none of its members. */
  lemma {:induction false} TrimKeepsMembers(bars: seq<Certified>, f: Bounds, start: Day, lo: Day, hi: Day)
    requires Tiling(f) && f(start).0 == start && lo <= start && f(start).1 <= hi
    ensures Members(InRange(bars, lo, hi), f, start) == Members(bars, f, start)
    decreases |bars|
  {
    if bars != [] {
      var init, last := bars[..|bars| - 1], bars[|bars| - 1];
      TrimKeepsMembers(init, f, start, lo, hi);
      assert f(last.bar.date).0 == start ==> lo <= last.bar.date <= hi;
      if lo <= last.bar.date <= hi {
        MembersSnoc(InRange(init, lo, hi), f, start, last);
      } else {
        assert InRange(bars, lo, hi) == InRange(init, lo, hi);
      }
    }
  }

  // ---------------------------------------------------------------------------
  // Every emitted candle.

  lemma {:induction false} KeptAreIncluded(out: seq<Candle>, k: Cutoff, i: nat)
    requires i < |Keep(out, k)|
    ensures Keep(out, k)[i] in out
    ensures Includes(k, Keep(out, k)[i].start, Keep(out, k)[i].end, Keep(out, k)[i].certifiedBy)
    decreases |out|
  {
    var init := out[..|out| - 1];
    if i < |Keep(init, k)| {
      KeptAreIncluded(init, k, i);
    }
  }

  /** An emitted candle is a whole period inside [start, as_of], it summarises all fetched bars of that
      period, and outside the relaxed arm its period ended before its certification. */
  lemma EmittedIsWhole(bars: seq<Certified>, k: Cutoff, i: nat)
    requires Sorted(bars) && i < |Emitted(bars, k)|
    ensures var c := Emitted(bars, k)[i];
            && IsPeriod(PeriodBounds(k.period), c)
            && k.start <= c.start && c.end <= k.asOf
            && Summarises(c, Members(bars, PeriodBounds(k.period), c.start))
            && (!Relaxed(k) ==> c.end < c.certifiedBy)
  {
    var f := PeriodBounds(k.period);
    var window := InRange(bars, k.start, k.asOf);
    InRangeFacts(bars, k.start, k.asOf);
    PeriodCandles(window, k.period);
    KeptAreIncluded(Aggregate(window, f), k, i);
    var c := Emitted(bars, k)[i];
    PeriodsAreTilings(k.period);
    assert OfPeriod(window, f, c);
    assert k.start <= c.start by {
      if Relaxed(k) {
        assert f(c.start) == (c.start, c.start);
      }
    }
    TrimKeepsMembers(bars, f, c.start, k.start, k.asOf);
  }

  /** Its error checks aside, `Resolve` emits exactly those candles. */
  lemma ResolveEmits(fetched: seq<Certified>, k: Cutoff)
    ensures Resolve(fetched, k).Points? ==>
              Resolve(fetched, k).candles == Emitted(fetched, k) && |Emitted(fetched, k)| >= 2
  {
    ResolveByEmits(fetched, k, PointsOf(k));
  }

  lemma ResolveByEmits(fetched: seq<Certified>, k: Cutoff, points: seq<Certified> -> seq<Candle>)
    ensures var r, window := ResolveBy(fetched, k, points), InRange(fetched, k.start, k.asOf);
            r.Points? ==> r.candles == points(window) && |points(window)| >= 2
  {
    var bars := InRange(fetched, k.start - FETCH_MARGIN_DAYS, k.asOf);
    CheckedPoints(bars, From(bars, k.start), points(From(bars, k.start)), k);
    TrimTwice(fetched, k.start - FETCH_MARGIN_DAYS, k.start, k.asOf);
  }

  lemma CheckedPoints(bars: seq<Certified>, inWindow: seq<Certified>, points: seq<Candle>, k: Cutoff)
    ensures Checked(bars, inWindow, points, k).Points? ==>
              Checked(bars, inWindow, points, k).candles == points && |points| >= 2
  {
  }

  // ---------------------------------------------------------------------------
  // A later cutoff only appends points.

  /** How many leading candles end by `day`. */
  function Settled(out: seq<Candle>, day: Day): nat
    ensures Settled(out, day) <= |out|
  {
    if out == [] || out[0].end > day then 0 else 1 + Settled(out[1..], day)
  }

  lemma {:induction false} SettledSplits(out: seq<Candle>, day: Day)
    requires forall i, j | 0 <= i < j < |out| :: out[i].end < out[j].start
    requires forall i | 0 <= i < |out| :: out[i].start <= out[i].end
    ensures forall i | 0 <= i < |out| :: out[i].end <= day <==> i < Settled(out, day)
    decreases |out|
  {
    if out != [] {
      if out[0].end > day {
        forall i | 0 <= i < |out|
          ensures out[i].end > day
        {
          assert i > 0 ==> out[0].end < out[i].start;
        }
      } else {
        var rest := out[1..];
        forall i, j | 0 <= i < j < |rest|
          ensures rest[i].end < rest[j].start
        {
          assert rest[i] == out[i + 1] && rest[j] == out[j + 1];
        }
        SettledSplits(rest, day);
        forall i | 0 <= i < |out|
          ensures out[i].end <= day <==> i < Settled(out, day)
        {
          assert i > 0 ==> out[i] == rest[i - 1];
        }
      }
    }
  }

  lemma AddBarKeepsSettled(out: seq<Candle>, f: Bounds, x: Certified, day: Day, m: nat)
    requires Tiling(f) && x.bar.date > day
    requires forall i | 0 <= i < |out| :: IsPeriod(f, out[i])
    requires m <= |out| && forall i | 0 <= i < m :: out[i].end <= day
    ensures |AddBar(out, f, x)| >= m && AddBar(out, f, x)[..m] == out[..m]
  {
    if |out| > 0 && out[|out| - 1].start == f(x.bar.date).0 {
      assert IsPeriod(f, out[|out| - 1]);
      assert out[|out| - 1].end == f(x.bar.date).1 > day;
    }
  }

  lemma SortedInit(w: seq<Certified>, v: seq<Certified>)
    requires Sorted(w + v) && v != []
    ensures Sorted(w + v[..|v| - 1])
  {
    var init := w + v[..|v| - 1];
    forall i, j | 0 <= i < j < |init|
      ensures init[i].bar.date < init[j].bar.date
    {
      assert init[i] == (w + v)[i] && init[j] == (w + v)[j];
    }
  }

  /** Bars dated after `day` leave the candles that end by `day` alone. */
  lemma {:induction false} SettledStays(w: seq<Certified>, v: seq<Certified>, f: Bounds, day: Day, m: nat)
    requires Tiling(f) && Sorted(w + v)
    requires forall i | 0 <= i < |v| :: v[i].bar.date > day
    requires m <= |Aggregate(w, f)| && forall i | 0 <= i < m :: Aggregate(w, f)[i].end <= day
    ensures |Aggregate(w + v, f)| >= m && Aggregate(w + v, f)[..m] == Aggregate(w, f)[..m]
    decreases |v|
  {
    if v == [] {
      assert w + v == w;
    } else {
      var init, x := v[..|v| - 1], v[|v| - 1];
      assert (w + v)[..|w + v| - 1] == w + init;
      SortedInit(w, v);
      SettledStays(w, init, f, day, m);
      var out := Aggregate(w + init, f);
      AggregateGroups(w + init, f);
      forall i | 0 <= i < m
        ensures out[i].end <= day
      {
        assert out[i] == out[..m][i] == Aggregate(w, f)[..m][i];
      }
      AddBarKeepsSettled(out, f, x, day, m);
    }
  }

  lemma {:induction false} KeepConcat(a: seq<Candle>, b: seq<Candle>, k: Cutoff)
    ensures Keep(a + b, k) == Keep(a, k) + Keep(b, k)
    decreases |b|
  {
    if b == [] {
      assert a + b == a;
    } else {
      var init := b[..|b| - 1];
      KeepConcat(a, init, k);
      assert (a + b)[..|a + b| - 1] == a + init;
    }
  }

  lemma KeepCut(a: seq<Candle>, k: Cutoff, m: nat)
    requires m <= |a|
    ensures Keep(a, k) == Keep(a[..m], k) + Keep(a[m..], k)
  {
    assert a == a[..m] + a[m..];
    KeepConcat(a[..m], a[m..], k);
  }

  lemma {:induction false} KeepNone(out: seq<Candle>, k: Cutoff)
    requires forall i | 0 <= i < |out| :: out[i].end > k.asOf
    ensures Keep(out, k) == []
    decreases |out|
  {
    if out != [] {
      KeepNone(out[..|out| - 1], k);
    }
  }

  lemma {:induction false} KeepSame(out: seq<Candle>, k: Cutoff, later: Cutoff)
    requires later == k.(asOf := later.asOf) && k.asOf <= later.asOf
    requires forall i | 0 <= i < |out| :: out[i].end <= k.asOf
    ensures Keep(out, k) == Keep(out, later)
    decreases |out|
  {
    if out != [] {
      KeepSame(out[..|out| - 1], k, later);
    }
  }

  lemma KeptAppends(w: seq<Certified>, v: seq<Certified>, f: Bounds, k: Cutoff, later: Cutoff)
    requires later == k.(asOf := later.asOf) && k.asOf <= later.asOf
    requires Tiling(f) && Sorted(w) && Sorted(w + v)
    requires forall i | 0 <= i < |v| :: v[i].bar.date > k.asOf
    ensures Keep(Aggregate(w, f), k) <= Keep(Aggregate(w + v, f), later)
  {
    AggregateGroups(w, f);
    var a := Aggregate(w, f);
    forall i | 0 <= i < |a|
      ensures a[i].start <= a[i].end
    {
      assert OfPeriod(w, f, a[i]);
    }
    SettledSplits(a, k.asOf);
    SettledStays(w, v, f, k.asOf, Settled(a, k.asOf));
    KeepPrefix(a, Aggregate(w + v, f), k, later, Settled(a, k.asOf));
  }

  /** For fixed bars, moving `as_of` later keeps every point and only appends new ones. */
  lemma LaterCutoffAppends(bars: seq<Certified>, k: Cutoff, later: Cutoff)
    requires Sorted(bars)
    requires later == k.(asOf := later.asOf) && k.asOf <= later.asOf
    ensures Emitted(bars, k) <= Emitted(bars, later)
  {
    var next := Max(k.start, k.asOf + 1);
    RangeSplits(bars, k.start, k.asOf, later.asOf);
    InRangeFacts(bars, k.start, k.asOf);
    InRangeFacts(bars, next, later.asOf);
    InRangeFacts(bars, k.start, later.asOf);
    PeriodsAreTilings(k.period);
    KeptAppends(InRange(bars, k.start, k.asOf), InRange(bars, next, later.asOf), PeriodBounds(k.period), k, later);
  }

  lemma KeepPrefix(a: seq<Candle>, b: seq<Candle>, k: Cutoff, later: Cutoff, m: nat)
    requires later == k.(asOf := later.asOf) && k.asOf <= later.asOf
    requires m <= |a| && m <= |b| && b[..m] == a[..m]
    requires forall i | 0 <= i < |a| :: a[i].end <= k.asOf <==> i < m
    ensures Keep(a, k) <= Keep(b, later)
  {
    KeepCut(a, k, m);
    KeepCut(b, later, m);
    KeepNone(a[m..], k);
    KeepSame(a[..m], k, later);
  }
}
