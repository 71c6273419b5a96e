/**
 Daily bars and their streaming aggregation, for any division of the timeline into periods. The
 aggregation of date-ordered bars is the grouping of the bars by period.
 */
module Grouping {
  import opened Common
  import opened Calendar

  datatype Bar = Bar(date: Day, open: real, high: real, low: real, close: real, volume: real)

  /** A daily bar with the newest date its source listed before the bar's page was fetched. */
  datatype Certified = Certified(bar: Bar, certBy: Day)

  datatype Candle = Candle(start: Day, end: Day, bar: Bar, certifiedBy: Day)

  /** The first and last day of the period around a day. */
  type Bounds = Day -> (Day, Day)

  /** Periods tile the timeline: a day lies in a period exactly when it has that period's start, and
      different periods do not touch. */
  ghost predicate Tiling(f: Bounds) {
    forall d: Day, e: Day {:trigger f(d), f(e)} ::
      && f(d).0 <= d <= f(d).1
      && (f(d).0 <= e <= f(d).1 <==> f(e).0 == f(d).0)
      && (f(e).0 == f(d).0 ==> f(e).1 == f(d).1)
      && (d <= e ==> f(e).0 == f(d).0 || f(d).1 < f(e).0)
  }

  // ---------------------------------------------------------------------------
  // Streaming aggregation.

  function RMax(a: real, b: real): real {
    if a < b then b else a
  }

  function RMin(a: real, b: real): real {
    if a < b then a else b
  }

  function Opened(f: Bounds, x: Certified): Candle {
    var start := f(x.bar.date).0;
    Candle(start, f(x.bar.date).1, x.bar.(date := start), x.certBy)
  }

  function Absorb(c: Candle, x: Certified): Candle {
    c.(bar := c.bar.(high := RMax(c.bar.high, x.bar.high),
                     low := RMin(c.bar.low, x.bar.low),
                     close := x.bar.close,
                     volume := c.bar.volume + x.bar.volume),
       certifiedBy := Min(c.certifiedBy, x.certBy))
  }

  function AddBar(out: seq<Candle>, f: Bounds, x: Certified): seq<Candle> {
    if out != [] && out[|out| - 1].start == f(x.bar.date).0
    then out[|out| - 1 := Absorb(out[|out| - 1], x)]
    else out + [Opened(f, x)]
  }

  function Aggregate(bars: seq<Certified>, f: Bounds): seq<Candle> {
    if bars == [] then [] else AddBar(Aggregate(bars[..|bars| - 1], f), f, bars[|bars| - 1])
  }

  method AggregateBars(bars: seq<Certified>, f: Bounds) returns (out: seq<Candle>)
    ensures out == Aggregate(bars, f)
    ensures Tiling(f) && Sorted(bars) ==> Groups(bars, f, out)
  {
    out := [];
    for i := 0 to |bars|
      invariant out == Aggregate(bars[..i], f)
    {
      var x := bars[i];
      assert bars[..i + 1][..i] == bars[..i];
      var n := |out|;
      if n > 0 && out[n - 1].start == f(x.bar.date).0 {
        var last := out[n - 1];
        var bar := last.bar;
        bar := bar.(high := RMax(bar.high, x.bar.high));
        bar := bar.(low := RMin(bar.low, x.bar.low));
        bar := bar.(close := x.bar.close);
        bar := bar.(volume := bar.volume + x.bar.volume);
        out := out[n - 1 := last.(bar := bar, certifiedBy := Min(last.certifiedBy, x.certBy))];
      } else {
        out := out + [Candle(f(x.bar.date).0, f(x.bar.date).1,
                             x.bar.(date := f(x.bar.date).0), x.certBy)];
      }
    }
    assert bars[..|bars|] == bars;
    if Tiling(f) && Sorted(bars) {
      AggregateGroups(bars, f);
    }
  }

  // ---------------------------------------------------------------------------
  // Grouping by period.

  ghost predicate Sorted(bars: seq<Certified>) {
    forall i, j | 0 <= i < j < |bars| :: bars[i].bar.date < bars[j].bar.date
  }

  /** The bars of the period that starts at `start`, in order. */
  function Members(bars: seq<Certified>, f: Bounds, start: Day): seq<Certified> {
    if bars == [] then []
    else
      var last := bars[|bars| - 1];
      Members(bars[..|bars| - 1], f, start) + (if f(last.bar.date).0 == start then [last] else [])
  }

  function TotalVolume(bars: seq<Certified>): real {
    if bars == [] then 0.0 else TotalVolume(bars[..|bars| - 1]) + bars[|bars| - 1].bar.volume
  }

  function GreatestHigh(g: seq<Certified>): real
    requires g != []
  {
    var last := g[|g| - 1].bar.high;
    if |g| == 1 then last else RMax(GreatestHigh(g[..|g| - 1]), last)
  }

  function LeastLow(g: seq<Certified>): real
    requires g != []
  {
    var last := g[|g| - 1].bar.low;
    if |g| == 1 then last else RMin(LeastLow(g[..|g| - 1]), last)
  }

  function LeastCertified(g: seq<Certified>): Day
    requires g != []
  {
    var last := g[|g| - 1].certBy;
    if |g| == 1 then last else Min(LeastCertified(g[..|g| - 1]), last)
  }

  /** The three extremes bound every member and are attained by one. */
  lemma {:induction false} Extremes(g: seq<Certified>)
    requires g != []
    ensures forall k | 0 <= k < |g| ::
              && g[k].bar.high <= GreatestHigh(g)
              && g[k].bar.low >= LeastLow(g)
              && g[k].certBy >= LeastCertified(g)
    ensures exists k :: 0 <= k < |g| && g[k].bar.high == GreatestHigh(g)
    ensures exists k :: 0 <= k < |g| && g[k].bar.low == LeastLow(g)
    ensures exists k :: 0 <= k < |g| && g[k].certBy == LeastCertified(g)
    decreases |g|
  {
    var n := |g| - 1;
    assert g[n].bar.high <= GreatestHigh(g) && g[n].bar.low >= LeastLow(g) && g[n].certBy >= LeastCertified(g);
    if n > 0 {
      var init := g[..n];
      Extremes(init);
      forall k | 0 <= k < n
        ensures g[k].bar.high <= GreatestHigh(g) && g[k].bar.low >= LeastLow(g) && g[k].certBy >= LeastCertified(g)
      {
        assert g[k] == init[k];
      }
      var h :| 0 <= h < n && init[h].bar.high == GreatestHigh(init);
      var l :| 0 <= l < n && init[l].bar.low == LeastLow(init);
      var c :| 0 <= c < n && init[c].certBy == LeastCertified(init);
      assert g[h] == init[h] && g[l] == init[l] && g[c] == init[c];
    }
  }

  /** First open, last close, greatest high, least low, summed volume, least certification. */
  predicate Summarises(c: Candle, g: seq<Certified>) {
    && g != []
    && c.bar == Bar(c.start, g[0].bar.open, GreatestHigh(g), LeastLow(g), g[|g| - 1].bar.close, TotalVolume(g))
    && c.certifiedBy == LeastCertified(g)
  }

  ghost predicate IsPeriod(f: Bounds, c: Candle) {
    c.start <= c.end && f(c.start).0 == c.start && f(c.start).1 == c.end
  }

  /** The candle is a whole period's, and a summary of the period's bars. */
  ghost predicate OfPeriod(bars: seq<Certified>, f: Bounds, c: Candle) {
    IsPeriod(f, c) && Summarises(c, Members(bars, f, c.start))
  }

  /** One candle for each occupied period, in order, each a summary of that period's bars. */
  ghost predicate Groups(bars: seq<Certified>, f: Bounds, out: seq<Candle>) {
    AllOfPeriod(bars, f, out) && InSequence(out) && AllCovered(bars, f, out)
  }

  ghost predicate AllOfPeriod(bars: seq<Certified>, f: Bounds, out: seq<Candle>) {
    forall i | 0 <= i < |out| :: OfPeriod(bars, f, out[i])
  }

  ghost predicate InSequence(out: seq<Candle>) {
    forall i, j | 0 <= i < j < |out| :: out[i].end < out[j].start
  }

  ghost predicate AllCovered(bars: seq<Certified>, f: Bounds, out: seq<Candle>) {
    forall k | 0 <= k < |bars| :: Covered(out, f(bars[k].bar.date).0)
  }

  ghost predicate Covered(out: seq<Candle>, start: Day) {
    exists i :: 0 <= i < |out| && out[i].start == start
  }

  lemma TotalVolumeSnoc(g: seq<Certified>, x: Certified)
    ensures TotalVolume(g + [x]) == TotalVolume(g) + x.bar.volume
  {
    assert (g + [x])[..|g|] == g;
  }

  lemma MembersSnoc(bars: seq<Certified>, f: Bounds, start: Day, x: Certified)
    ensures Members(bars + [x], f, start) ==
            Members(bars, f, start) + (if f(x.bar.date).0 == start then [x] else [])
  {
    assert (bars + [x])[..|bars|] == bars;
  }

  lemma AbsorbSummarises(c: Candle, g: seq<Certified>, x: Certified)
    requires Summarises(c, g)
    ensures Summarises(Absorb(c, x), g + [x])
  {
    TotalVolumeSnoc(g, x);
    assert (g + [x])[..|g|] == g;
  }

  lemma OpenedSummarises(f: Bounds, x: Certified)
    requires Tiling(f)
    ensures Summarises(Opened(f, x), [x]) && IsPeriod(f, Opened(f, x))
  {
    TotalVolumeSnoc([], x);
    assert [] + [x] == [x];
    assert [x][0] == x;
    assert f(f(x.bar.date).0) == f(x.bar.date);
  }

  lemma {:induction false} NoMembers(bars: seq<Certified>, f: Bounds, start: Day)
    requires forall k | 0 <= k < |bars| :: f(bars[k].bar.date).0 != start
    ensures Members(bars, f, start) == []
  {
    if bars != [] {
      NoMembers(bars[..|bars| - 1], f, start);
    }
  }

  lemma {:induction false} MembersAreBars(bars: seq<Certified>, f: Bounds, start: Day, k: nat)
    requires k < |Members(bars, f, start)|
    ensures Members(bars, f, start)[k] in bars
    ensures f(Members(bars, f, start)[k].bar.date).0 == start
    decreases |bars|
  {
    var init := bars[..|bars| - 1];
    if k < |Members(init, f, start)| {
      MembersAreBars(init, f, start, k);
    }
  }

  /** A candle's period does not start after a later bar's. */
  lemma CandleBefore(bars: seq<Certified>, f: Bounds, out: seq<Candle>, x: Certified, i: nat)
    requires Tiling(f) && Groups(bars, f, out) && Sorted(bars + [x]) && i < |out|
    ensures out[i].start == f(x.bar.date).0 || out[i].end < f(x.bar.date).0
  {
    assert OfPeriod(bars, f, out[i]);
    var g := Members(bars, f, out[i].start);
    MembersAreBars(bars, f, out[i].start, 0);
    var k :| 0 <= k < |bars| && bars[k] == g[0];
    assert (bars + [x])[k] == bars[k] && (bars + [x])[|bars|] == x;
    assert IsPeriod(f, out[i]) && f(g[0].bar.date).0 == out[i].start;
  }

  /** Every period covered by `out` is covered by a list whose candles start at the same days. */
  lemma CoverKept(bars: seq<Certified>, f: Bounds, out: seq<Candle>, x: Certified, more: seq<Candle>)
    requires AllCovered(bars, f, out)
    requires |out| <= |more| && forall i | 0 <= i < |out| :: more[i].start == out[i].start
    requires Covered(more, f(x.bar.date).0)
    ensures AllCovered(bars + [x], f, more)
  {
    forall k | 0 <= k < |bars + [x]|
      ensures Covered(more, f((bars + [x])[k].bar.date).0)
    {
      if k < |bars| {
        assert (bars + [x])[k] == bars[k];
        var i :| 0 <= i < |out| && out[i].start == f(bars[k].bar.date).0;
        assert more[i].start == out[i].start;
      } else {
        assert (bars + [x])[k] == x;
      }
    }
  }

  lemma KeptSummary(bars: seq<Certified>, f: Bounds, c: Candle, x: Certified)
    requires Summarises(c, Members(bars, f, c.start))
    requires f(x.bar.date).0 != c.start
    ensures Summarises(c, Members(bars + [x], f, c.start))
  {
    MembersSnoc(bars, f, c.start, x);
    assert Members(bars + [x], f, c.start) == Members(bars, f, c.start);
  }

  lemma GrownSummary(bars: seq<Certified>, f: Bounds, c: Candle, x: Certified)
    requires Summarises(c, Members(bars, f, c.start))
    requires f(x.bar.date).0 == c.start
    ensures Summarises(Absorb(c, x), Members(bars + [x], f, c.start))
  {
    MembersSnoc(bars, f, c.start, x);
    AbsorbSummarises(c, Members(bars, f, c.start), x);
  }

  lemma ExtendLast(bars: seq<Certified>, f: Bounds, out: seq<Candle>, x: Certified)
    requires Groups(bars, f, out) && out != []
    requires out[|out| - 1].start == f(x.bar.date).0
    ensures Groups(bars + [x], f, out[|out| - 1 := Absorb(out[|out| - 1], x)])
  {
    var n := |out| - 1;
    var more := out[n := Absorb(out[n], x)];
    forall i | 0 <= i < |more|
      ensures OfPeriod(bars + [x], f, more[i])
    {
      assert OfPeriod(bars, f, out[i]);
      if i == n {
        GrownSummary(bars, f, out[n], x);
      } else {
        assert out[i].end < out[n].start;
        KeptSummary(bars, f, out[i], x);
      }
    }
    assert more[n].start == f(x.bar.date).0;
    CoverKept(bars, f, out, x, more);
  }

  lemma FreshSummary(bars: seq<Certified>, f: Bounds, x: Certified)
    requires Tiling(f) && Members(bars, f, f(x.bar.date).0) == []
    ensures IsPeriod(f, Opened(f, x))
    ensures Summarises(Opened(f, x), Members(bars + [x], f, f(x.bar.date).0))
  {
    MembersSnoc(bars, f, f(x.bar.date).0, x);
    assert Members(bars + [x], f, f(x.bar.date).0) == [x];
    OpenedSummarises(f, x);
  }

  lemma PushNew(bars: seq<Certified>, f: Bounds, out: seq<Candle>, x: Certified, c: Candle)
    requires Groups(bars, f, out)
    requires c.start == f(x.bar.date).0 && OfPeriod(bars + [x], f, c)
    requires forall i | 0 <= i < |out| :: out[i].end < c.start
    ensures Groups(bars + [x], f, out + [c])
  {
    PushOfPeriod(bars, f, out, x, c);
    PushInSequence(out, c);
    PushCovers(bars, f, out, x, c);
  }

  lemma PushOfPeriod(bars: seq<Certified>, f: Bounds, out: seq<Candle>, x: Certified, c: Candle)
    requires AllOfPeriod(bars, f, out)
    requires c.start == f(x.bar.date).0 && OfPeriod(bars + [x], f, c)
    requires forall i | 0 <= i < |out| :: out[i].end < c.start
    ensures AllOfPeriod(bars + [x], f, out + [c])
  {
    forall i | 0 <= i < |out|
      ensures OfPeriod(bars + [x], f, out[i])
    {
      KeptCandle(bars, f, out[i], x, c);
    }
    PushAll(bars + [x], f, out, c);
  }

  lemma PushAll(bars: seq<Certified>, f: Bounds, out: seq<Candle>, c: Candle)
    requires AllOfPeriod(bars, f, out) && OfPeriod(bars, f, c)
    ensures AllOfPeriod(bars, f, out + [c])
  {
  }

  lemma PushInSequence(out: seq<Candle>, c: Candle)
    requires InSequence(out) && forall i | 0 <= i < |out| :: out[i].end < c.start
    ensures InSequence(out + [c])
  {
  }

  /** A candle that ends before the new one starts keeps its members. */
  lemma KeptCandle(bars: seq<Certified>, f: Bounds, kept: Candle, x: Certified, c: Candle)
    requires OfPeriod(bars, f, kept) && kept.end < c.start && c.start == f(x.bar.date).0
    ensures OfPeriod(bars + [x], f, kept)
  {
    KeptSummary(bars, f, kept, x);
  }

  lemma PushCovers(bars: seq<Certified>, f: Bounds, out: seq<Candle>, x: Certified, c: Candle)
    requires AllCovered(bars, f, out)
    requires c.start == f(x.bar.date).0
    ensures AllCovered(bars + [x], f, out + [c])
  {
    assert (out + [c])[|out|].start == c.start;
    CoverKept(bars, f, out, x, out + [c]);
  }

  lemma NewPeriod(bars: seq<Certified>, f: Bounds, out: seq<Candle>, start: Day)
    requires Groups(bars, f, out)
    requires forall i | 0 <= i < |out| :: out[i].end < start
    ensures Members(bars, f, start) == []
  {
    forall k | 0 <= k < |bars|
      ensures f(bars[k].bar.date).0 != start
    {
      var i :| 0 <= i < |out| && out[i].start == f(bars[k].bar.date).0;
      assert OfPeriod(bars, f, out[i]);
    }
    NoMembers(bars, f, start);
  }

  lemma AddBarGroups(bars: seq<Certified>, f: Bounds, out: seq<Candle>, x: Certified)
    requires Tiling(f) && Groups(bars, f, out) && Sorted(bars + [x])
    ensures Groups(bars + [x], f, AddBar(out, f, x))
  {
    forall i | 0 <= i < |out|
      ensures out[i].start == f(x.bar.date).0 || out[i].end < f(x.bar.date).0
    {
      CandleBefore(bars, f, out, x, i);
    }
    var n := |out| - 1;
    if out != [] && out[n].start == f(x.bar.date).0 {
      ExtendLast(bars, f, out, x);
    } else {
      forall i | 0 <= i < |out|
        ensures out[i].end < f(x.bar.date).0
      {
        assert OfPeriod(bars, f, out[i]) && OfPeriod(bars, f, out[n]);
        assert i < n ==> out[i].end < out[n].start;
      }
      NewPeriod(bars, f, out, f(x.bar.date).0);
      FreshSummary(bars, f, x);
      PushNew(bars, f, out, x, Opened(f, x));
    }
  }

  /** The streaming aggregation of date-ordered bars groups them by calendar period. */
  lemma {:induction false} AggregateGroups(bars: seq<Certified>, f: Bounds)
    requires Tiling(f) && Sorted(bars)
    ensures Groups(bars, f, Aggregate(bars, f))
    decreases |bars|
  {
    if bars != [] {
      var init := bars[..|bars| - 1];
      AggregateGroups(init, f);
      assert init + [bars[|bars| - 1]] == bars;
      AddBarGroups(init, f, Aggregate(init, f), bars[|bars| - 1]);
    }
  }
}
