/**
 What certification is worth. Calls share one page cache; each probes the source, fetches its window
 and emits points. If a source never changes what it lists below a date it has already listed, every
 daily bar inside a point of the strict arm already had its final value when it was fetched.
 */
module Certification {
  import opened Common
  import opened Calendar
  import opened Grouping
  import opened Periods
  import opened Paging
  import opened Selection

  /** What a source lists for a code, by request number, and which codes it lists one asset under: a US asset is
      probed under its bare code and fetched under the code with its exchange. */
  datatype World = World(rows: (Source, string, nat) -> Rows, same: (string, string) -> bool)

  /** The rows of a probe and, for a US asset, the symbol with its exchange. */
  datatype Answer = Answer(bars: seq<Bar>, suffixed: Option<string>)

  /** The answer to a probe, by request number; `None` is a failure. */
  type Prober = (nat, Source, string) -> Option<Answer>

  datatype Probe = Probe(completeThrough: Day, windowCode: string)

  const BASELINE_LOOKBACK_DAYS: int := 3650

  datatype Call = Call(source: Source, probeCode: string, today: Day, cutoff: Cutoff)

  datatype Engine = Engine(cache: Cache, time: nat)

  datatype Outcome =
    | Unavailable
    | Served(code: string, bars: seq<Certified>, resolved: Resolved)

  /** The newest date a probe lists, ignoring rows older than the baseline. */
  function CompleteThrough(rows: seq<Bar>, baseline: Day): Option<Day> {
    if rows == [] then None
    else
      var rest := CompleteThrough(rows[1..], baseline);
      if rows[0].date < baseline then rest
      else if rest.Some? then Some(Max(rows[0].date, rest.value))
      else Some(rows[0].date)
  }

  function WindowOf(c: Call, code: string): Window {
    Window(c.source, code, c.cutoff.start - FETCH_MARGIN_DAYS, c.cutoff.asOf)
  }

  function Serve(e: Engine, c: Call, prober: Prober, feed: Feed, limit: nat): (Engine, Outcome) {
    var probe := Probed(e, c, prober);
    if probe.None? then (Engine(e.cache, e.time + 1), Unavailable)
    else Finished(Fetched(e, c, probe.value, feed, limit), c, probe.value.windowCode)
  }

  function Fetched(e: Engine, c: Call, probe: Probe, feed: Feed, limit: nat): Progress {
    FetchWindow(e.cache, e.time + 1, WindowOf(c, probe.windowCode), probe.completeThrough, c.today, feed, limit)
  }

  function Probed(e: Engine, c: Call, prober: Prober): Option<Probe> {
    var answer := prober(e.time, c.source, c.probeCode);
    if answer.None? then None
    else
      var newest := CompleteThrough(answer.value.bars, c.cutoff.start - BASELINE_LOOKBACK_DAYS);
      if newest.None? then None
      else if !c.cutoff.venue.Us? then Some(Probe(newest.value, c.probeCode))
      else if answer.value.suffixed.None? then None
      else Some(Probe(newest.value, "us" + answer.value.suffixed.value))
  }

  function Finished(r: Progress, c: Call, code: string): (Engine, Outcome) {
    var after := Engine(r.cache, r.time);
    if !r.ok then (after, Unavailable)
    else (after, Served(code, InOrder(r.bars), Resolve(InOrder(r.bars), c.cutoff)))
  }

  datatype Trace = Trace(engine: Engine, outcomes: seq<Outcome>)

  function ServeAll(calls: seq<Call>, prober: Prober, feed: Feed, limit: nat): (r: Trace)
    ensures |r.outcomes| == |calls|
  {
    if calls == [] then Trace(Engine(map[], 0), [])
    else ServeNext(ServeAll(calls[..|calls| - 1], prober, feed, limit), calls[|calls| - 1], prober, feed, limit)
  }

  function ServeNext(before: Trace, c: Call, prober: Prober, feed: Feed, limit: nat): Trace {
    var (engine, outcome) := Serve(before.engine, c, prober, feed, limit);
    Trace(engine, before.outcomes + [outcome])
  }

  // ---------------------------------------------------------------------------
  // Assumptions about the source.

  ghost predicate Listed(rows: Rows, b: Bar) {
    b.date in rows && rows[b.date] == b
  }

  /** Probes and pages list what the source lists at that moment. */
  ghost predicate Truthful(world: World, prober: Prober, feed: Feed) {
    && (forall time: nat, src: Source, code: string, b: Bar ::
          prober(time, src, code).Some? && b in prober(time, src, code).value.bars ==>
            Listed(world.rows(src, code, time), b))
    && (forall time: nat, src: Source, code: string ::
          prober(time, src, code).Some? && prober(time, src, code).value.suffixed.Some? ==>
            world.same(code, "us" + prober(time, src, code).value.suffixed.value))
    && (forall time: nat, src: Source, code: string, lo: Day, hi: Day, b: Bar ::
          feed(time, src, code, lo, hi).Some? && b in feed(time, src, code, lo, hi).value ==>
            Listed(world.rows(src, code, time), b))
  }

  /** At request `p` the source lists `newest` for the asset of this code, under this code or the one it is probed
      under. */
  ghost predicate Reaches(world: World, src: Source, code: string, p: nat, newest: Day) {
    exists probed: string :: (probed == code || world.same(probed, code)) && newest in world.rows(src, probed, p)
  }

  /** What is listed below a listed date never changes again. */
  ghost predicate Stable(world: World) {
    forall src: Source, code: string, t: nat, u: nat, newest: Day, d: Day ::
      t <= u && Reaches(world, src, code, t, newest) && d < newest ==>
        && (d in world.rows(src, code, t) <==> d in world.rows(src, code, u))
        && (d in world.rows(src, code, t) ==> world.rows(src, code, t)[d] == world.rows(src, code, u)[d])
  }

  /** From request `t` on, the source lists exactly this bar for its date. */
  ghost predicate FinalFrom(world: World, src: Source, code: string, b: Bar, t: nat) {
    forall u: nat | t <= u :: Listed(world.rows(src, code, u), b)
  }

  // ---------------------------------------------------------------------------
  // The invariant: each bar was fetched no earlier than a probe that listed its certification.

  ghost predicate BackedBy(world: World, src: Source, code: string, b: Bar, cert: Day, p: nat, t: nat, newest: Day) {
    && p <= t
    && Reaches(world, src, code, p, newest) && cert <= newest
    && Listed(world.rows(src, code, t), b)
  }

  ghost predicate Backed(world: World, src: Source, code: string, now: nat, b: Bar, cert: Day) {
    exists p: nat, t: nat, newest: Day :: t < now && BackedBy(world, src, code, b, cert, p, t, newest)
  }

  ghost predicate PageBacked(world: World, now: nat, key: PageKey, page: CachedPage) {
    forall b | b in page.bars :: Backed(world, key.source, key.code, now, b, page.observed)
  }

  ghost predicate CacheBacked(world: World, now: nat, cache: Cache) {
    forall key | key in cache :: PageBacked(world, now, key, cache[key])
  }

  ghost predicate BarsBacked(world: World, src: Source, code: string, now: nat, bars: Collected) {
    forall d | d in bars :: Backed(world, src, code, now, bars[d].bar, bars[d].certBy)
  }

  lemma BackedLater(world: World, src: Source, code: string, now: nat, later: nat, b: Bar, cert: Day, weaker: Day)
    requires Backed(world, src, code, now, b, cert) && now <= later && weaker <= cert
    ensures Backed(world, src, code, later, b, weaker)
  {
    var p: nat, t: nat, newest: Day :| t < now && BackedBy(world, src, code, b, cert, p, t, newest);
    assert BackedBy(world, src, code, b, weaker, p, t, newest);
  }

  lemma CacheBackedLater(world: World, now: nat, later: nat, cache: Cache)
    requires CacheBacked(world, now, cache) && now <= later
    ensures CacheBacked(world, later, cache)
  {
    forall key, b | key in cache && b in cache[key].bars
      ensures Backed(world, key.source, key.code, later, b, cache[key].observed)
    {
      assert PageBacked(world, now, key, cache[key]);
      BackedLater(world, key.source, key.code, now, later, b, cache[key].observed, cache[key].observed);
    }
  }

  lemma BarsBackedLater(world: World, src: Source, code: string, now: nat, later: nat, bars: Collected)
    requires BarsBacked(world, src, code, now, bars) && now <= later
    ensures BarsBacked(world, src, code, later, bars)
  {
    forall d | d in bars
      ensures Backed(world, src, code, later, bars[d].bar, bars[d].certBy)
    {
      BackedLater(world, src, code, now, later, bars[d].bar, bars[d].certBy, bars[d].certBy);
    }
  }

  lemma StoreBacked(world: World, now: nat, cache: Cache, key: PageKey, page: CachedPage)
    requires CacheBacked(world, now, cache) && PageBacked(world, now, key, page)
    ensures CacheBacked(world, now, Store(cache, key, page))
  {
  }

  /** A page fetched after the probe `p` listed `probed` is backed by it. */
  lemma FetchedBacked(world: World, prober: Prober, feed: Feed, src: Source, code: string, lo: Day, hi: Day,
                      p: nat, time: nat, probed: Day)
    requires Truthful(world, prober, feed) && p <= time && Reaches(world, src, code, p, probed)
    requires feed(time, src, code, lo, hi).Some?
    ensures forall b | b in feed(time, src, code, lo, hi).value :: Backed(world, src, code, time + 1, b, probed)
  {
    forall b | b in feed(time, src, code, lo, hi).value
      ensures Backed(world, src, code, time + 1, b, probed)
    {
      assert BackedBy(world, src, code, b, probed, p, time, probed);
    }
  }

  ghost predicate TurnBacked(world: World, w: Window, s: Progress, turn: Turn) {
    && s.time <= turn.after.time
    && CacheBacked(world, turn.after.time, turn.after.cache)
    && (forall b | b in turn.page :: Backed(world, w.source, w.code, turn.after.time, b, turn.certBy))
  }

  lemma TakePageBacked(world: World, prober: Prober, feed: Feed, s: Progress, w: Window, p: nat, probed: Day,
                       today: Day, lo: Day, hi: Day)
    requires Truthful(world, prober, feed) && CacheBacked(world, s.time, s.cache)
    requires p <= s.time && Reaches(world, w.source, w.code, p, probed)
    ensures TurnBacked(world, w, s, TakePage(s, w, probed, today, feed, lo, hi))
  {
    var key := PageKey(w.source, w.code, lo, hi, today);
    if Reusable(s.cache, key, w, probed) {
      var cached := s.cache[key];
      forall b | b in cached.bars
        ensures Backed(world, w.source, w.code, s.time, b, Min(cached.observed, probed))
      {
        assert PageBacked(world, s.time, key, cached);
        BackedLater(world, w.source, w.code, s.time, s.time, b, cached.observed, Min(cached.observed, probed));
      }
    } else {
      CacheBackedLater(world, s.time, s.time + 1, s.cache);
      var answer := feed(s.time, w.source, w.code, lo, hi);
      if answer.Some? {
        FetchedBacked(world, prober, feed, w.source, w.code, lo, hi, p, s.time, probed);
        StoreBacked(world, s.time + 1, s.cache, key, CachedPage(answer.value, probed));
      }
    }
  }

  lemma {:induction false} CollectBacked(world: World, src: Source, code: string, now: nat, bars: Collected,
                                         page: seq<Bar>, cert: Day)
    requires BarsBacked(world, src, code, now, bars)
    requires forall b | b in page :: Backed(world, src, code, now, b, cert)
    ensures BarsBacked(world, src, code, now, Collect(bars, page, cert))
    decreases |page|
  {
    if page != [] {
      var init := page[..|page| - 1];
      forall b | b in init
        ensures b in page
      {
      }
      CollectBacked(world, src, code, now, bars, init, cert);
    }
  }

  ghost predicate ProgressBacked(world: World, w: Window, s: Progress) {
    && CacheBacked(world, s.time, s.cache)
    && BarsBacked(world, w.source, w.code, s.time, s.bars)
  }

  lemma AdvanceBacked(world: World, prober: Prober, feed: Feed, s: Progress, w: Window, p: nat, probed: Day,
                      today: Day, lo: Day, hi: Day)
    requires Truthful(world, prober, feed) && ProgressBacked(world, w, s)
    requires p <= s.time && Reaches(world, w.source, w.code, p, probed)
    ensures var a := Advance(s, w, probed, today, feed, lo, hi);
            s.time <= a.after.time && ProgressBacked(world, w, a.after)
  {
    TakePageBacked(world, prober, feed, s, w, p, probed, today, lo, hi);
    var turn := TakePage(s, w, probed, today, feed, lo, hi);
    BarsBackedLater(world, w.source, w.code, s.time, turn.after.time, s.bars);
    CollectBacked(world, w.source, w.code, turn.after.time, s.bars, turn.page, turn.certBy);
  }

  lemma {:induction false} FetchBacked(world: World, prober: Prober, feed: Feed, s: Progress, w: Window, p: nat,
                                       probed: Day, today: Day, lo: Day, hi: Day, pages: nat)
    requires Truthful(world, prober, feed) && ProgressBacked(world, w, s)
    requires p <= s.time && Reaches(world, w.source, w.code, p, probed)
    ensures var r := FetchFrom(s, w, probed, today, feed, lo, hi, pages);
            s.time <= r.time && ProgressBacked(world, w, r)
    decreases pages
  {
    if pages > 0 {
      AdvanceBacked(world, prober, feed, s, w, p, probed, today, lo, hi);
      var a := Advance(s, w, probed, today, feed, lo, hi);
      FetchUnfolds(s, w, probed, today, feed, lo, hi, pages, a);
      if a.next.Some? {
        FetchBacked(world, prober, feed, a.after, w, p, probed, today, a.next.value.0, a.next.value.1, pages - 1);
      }
    }
  }

  lemma {:induction false} CompleteThroughListed(rows: seq<Bar>, baseline: Day)
    ensures CompleteThrough(rows, baseline).Some? ==>
              exists b :: b in rows && b.date == CompleteThrough(rows, baseline).value >= baseline
    ensures forall b | b in rows && b.date >= baseline ::
              CompleteThrough(rows, baseline).Some? && b.date <= CompleteThrough(rows, baseline).value
    decreases |rows|
  {
    if rows != [] {
      CompleteThroughListed(rows[1..], baseline);
      assert rows == [rows[0]] + rows[1..];
    }
  }

  ghost predicate OutcomeBacked(world: World, now: nat, c: Call, o: Outcome) {
    o.Served? ==>
      && Sorted(o.bars)
      && o.resolved == Resolve(o.bars, c.cutoff)
      && forall x | x in o.bars :: Backed(world, c.source, o.code, now, x.bar, x.certBy)
  }

  /** The part of a call after a probe that listed `probed`. */
  lemma WindowBacked(world: World, prober: Prober, feed: Feed, e: Engine, c: Call, probe: Probe, limit: nat)
    requires Truthful(world, prober, feed) && CacheBacked(world, e.time, e.cache)
    requires Reaches(world, c.source, probe.windowCode, e.time, probe.completeThrough)
    ensures var r := Fetched(e, c, probe, feed, limit);
            && e.time <= r.time
            && CacheBacked(world, r.time, r.cache)
            && OutcomeBacked(world, r.time, c,
                             Served(probe.windowCode, InOrder(r.bars), Resolve(InOrder(r.bars), c.cutoff)))
  {
    CacheBackedLater(world, e.time, e.time + 1, e.cache);
    var w, probed := WindowOf(c, probe.windowCode), probe.completeThrough;
    var s := Progress(true, e.cache, e.time + 1, map[]);
    FetchBacked(world, prober, feed, s, w, e.time, probed, c.today, w.lo, w.hi, limit);
    FetchKeyed(s, w, probed, c.today, feed, w.lo, w.hi, limit);
    InOrderFacts(Fetched(e, c, probe, feed, limit).bars);
  }

  lemma ProbeListed(world: World, prober: Prober, feed: Feed, time: nat, src: Source, code: string, baseline: Day)
    requires Truthful(world, prober, feed) && prober(time, src, code).Some?
    requires CompleteThrough(prober(time, src, code).value.bars, baseline).Some?
    ensures CompleteThrough(prober(time, src, code).value.bars, baseline).value in world.rows(src, code, time)
  {
    var rows := prober(time, src, code).value.bars;
    CompleteThroughListed(rows, baseline);
    var b :| b in rows && b.date == CompleteThrough(rows, baseline).value;
    assert Listed(world.rows(src, code, time), b);
  }

  /** A probe settles the code its window is fetched under. */
  lemma ProbeReaches(world: World, prober: Prober, feed: Feed, e: Engine, c: Call)
    requires Truthful(world, prober, feed) && Probed(e, c, prober).Some?
    ensures var probe := Probed(e, c, prober).value;
            Reaches(world, c.source, probe.windowCode, e.time, probe.completeThrough)
  {
    ProbeListed(world, prober, feed, e.time, c.source, c.probeCode, c.cutoff.start - BASELINE_LOOKBACK_DAYS);
    var probe := Probed(e, c, prober).value;
    assert c.probeCode == probe.windowCode || world.same(c.probeCode, probe.windowCode);
  }

  lemma ServeBacked(world: World, prober: Prober, feed: Feed, e: Engine, c: Call, limit: nat)
    requires Truthful(world, prober, feed) && CacheBacked(world, e.time, e.cache)
    ensures var (after, o) := Serve(e, c, prober, feed, limit);
            && e.time <= after.time
            && CacheBacked(world, after.time, after.cache)
            && OutcomeBacked(world, after.time, c, o)
  {
    CacheBackedLater(world, e.time, e.time + 1, e.cache);
    var probe := Probed(e, c, prober);
    if probe.Some? {
      ProbeReaches(world, prober, feed, e, c);
      WindowBacked(world, prober, feed, e, c, probe.value, limit);
      var r := Fetched(e, c, probe.value, feed, limit);
      FinishedBacked(world, r, c, probe.value.windowCode);
      assert Serve(e, c, prober, feed, limit) == Finished(r, c, probe.value.windowCode);
    }
  }

  lemma FinishedBacked(world: World, r: Progress, c: Call, code: string)
    requires OutcomeBacked(world, r.time, c, Served(code, InOrder(r.bars), Resolve(InOrder(r.bars), c.cutoff)))
    ensures var (after, o) := Finished(r, c, code);
            after == Engine(r.cache, r.time) && OutcomeBacked(world, r.time, c, o)
  {
  }

  lemma OutcomeBackedLater(world: World, now: nat, later: nat, c: Call, o: Outcome)
    requires OutcomeBacked(world, now, c, o) && now <= later
    ensures OutcomeBacked(world, later, c, o)
  {
    if o.Served? {
      forall x | x in o.bars
        ensures Backed(world, c.source, o.code, later, x.bar, x.certBy)
      {
        BackedLater(world, c.source, o.code, now, later, x.bar, x.certBy, x.certBy);
      }
    }
  }

  ghost predicate TraceBacked(world: World, calls: seq<Call>, r: Trace) {
    && |r.outcomes| == |calls|
    && CacheBacked(world, r.engine.time, r.engine.cache)
    && forall i | 0 <= i < |calls| :: OutcomeBacked(world, r.engine.time, calls[i], r.outcomes[i])
  }

  lemma TraceExtends(world: World, calls: seq<Call>, r: Trace, c: Call, after: Engine, o: Outcome)
    requires TraceBacked(world, calls, r) && r.engine.time <= after.time
    requires CacheBacked(world, after.time, after.cache) && OutcomeBacked(world, after.time, c, o)
    ensures TraceBacked(world, calls + [c], Trace(after, r.outcomes + [o]))
  {
    forall i | 0 <= i < |calls + [c]|
      ensures OutcomeBacked(world, after.time, (calls + [c])[i], (r.outcomes + [o])[i])
    {
      if i < |calls| {
        OutcomeBackedLater(world, r.engine.time, after.time, calls[i], r.outcomes[i]);
      }
    }
  }

  lemma {:induction false} ServeAllBacked(world: World, prober: Prober, feed: Feed, calls: seq<Call>, limit: nat)
    requires Truthful(world, prober, feed)
    ensures TraceBacked(world, calls, ServeAll(calls, prober, feed, limit))
    decreases |calls|
  {
    if calls != [] {
      var init, last := calls[..|calls| - 1], calls[|calls| - 1];
      ServeAllBacked(world, prober, feed, init, limit);
      ServeNextBacked(world, prober, feed, init, ServeAll(init, prober, feed, limit), last, limit);
      assert init + [last] == calls;
    }
  }

  lemma ServeNextBacked(world: World, prober: Prober, feed: Feed, calls: seq<Call>, before: Trace, c: Call, limit: nat)
    requires Truthful(world, prober, feed) && TraceBacked(world, calls, before)
    ensures TraceBacked(world, calls + [c], ServeNext(before, c, prober, feed, limit))
  {
    ServeBacked(world, prober, feed, before.engine, c, limit);
    var (after, o) := Serve(before.engine, c, prober, feed, limit);
    TraceExtends(world, calls, before, c, after, o);
  }

  // ---------------------------------------------------------------------------
  // The result.

  /** A bar older than its certification is final from some request before now. */
  lemma BackedIsFinal(world: World, src: Source, code: string, now: nat, b: Bar, cert: Day)
    requires Stable(world) && Backed(world, src, code, now, b, cert) && b.date < cert
    ensures exists t: nat :: t < now && FinalFrom(world, src, code, b, t)
  {
    var p: nat, t: nat, newest: Day :| t < now && BackedBy(world, src, code, b, cert, p, t, newest);
    forall u: nat | t <= u
      ensures Listed(world.rows(src, code, u), b)
    {
      assert b.date in world.rows(src, code, p) <==> b.date in world.rows(src, code, t);
      assert b.date in world.rows(src, code, p) <==> b.date in world.rows(src, code, u);
    }
    assert FinalFrom(world, src, code, b, t);
  }

  /** A member of a strictly emitted candle is dated before its own certification. */
  lemma MemberBeforeCertified(bars: seq<Certified>, k: Cutoff, i: nat, j: nat)
    requires Sorted(bars) && !Relaxed(k) && i < |Emitted(bars, k)|
    requires j < |Members(bars, PeriodBounds(k.period), Emitted(bars, k)[i].start)|
    ensures var x := Members(bars, PeriodBounds(k.period), Emitted(bars, k)[i].start)[j];
            x in bars && x.bar.date < x.certBy
  {
    var f := PeriodBounds(k.period);
    var c := Emitted(bars, k)[i];
    var g := Members(bars, f, c.start);
    EmittedIsWhole(bars, k, i);
    MembersAreBars(bars, f, c.start, j);
    PeriodsAreTilings(k.period);
    Extremes(g);
    assert f(g[j].bar.date).0 == c.start && f(c.start).1 == c.end;
  }

  /** Over every sequence of calls sharing the cache: each daily bar inside each point emitted by the
      strict arm already had its final value when it was fetched. */
  lemma StrictPointsAreFinal(world: World, prober: Prober, feed: Feed, calls: seq<Call>, limit: nat,
                             n: nat, i: nat, j: nat)
    requires Truthful(world, prober, feed) && Stable(world)
    requires n < |calls| && !Relaxed(calls[n].cutoff)
    requires var o := ServeAll(calls, prober, feed, limit).outcomes[n];
             && o.Served? && o.resolved.Points? && i < |o.resolved.candles|
             && j < |Members(o.bars, PeriodBounds(calls[n].cutoff.period), o.resolved.candles[i].start)|
    ensures var r := ServeAll(calls, prober, feed, limit);
            var o := r.outcomes[n];
            var f := PeriodBounds(calls[n].cutoff.period);
            var c := o.resolved.candles[i];
            && Summarises(c, Members(o.bars, f, c.start))
            && exists t: nat ::
                 t < r.engine.time &&
                 FinalFrom(world, calls[n].source, o.code, Members(o.bars, f, c.start)[j].bar, t)
  {
    ServeAllBacked(world, prober, feed, calls, limit);
    var r := ServeAll(calls, prober, feed, limit);
    var o, k := r.outcomes[n], calls[n].cutoff;
    assert OutcomeBacked(world, r.engine.time, calls[n], o);
    ResolveEmits(o.bars, k);
    EmittedIsWhole(o.bars, k, i);
    MemberBeforeCertified(o.bars, k, i, j);
    var x := Members(o.bars, PeriodBounds(k.period), o.resolved.candles[i].start)[j];
    BackedIsFinal(world, calls[n].source, o.code, r.engine.time, x.bar, x.certBy);
  }
}
