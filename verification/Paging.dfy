/**
 Fetching a window of daily bars page by page from a source that truncates its answers, through a
 cache of pages. A source is a function of the request number, so that it may change over time.
 */
module Paging {
  import opened Common
  import opened Calendar
  import opened Grouping

  datatype Source = Ifzq | Binance

  datatype Truncation = KeepsLatest | KeepsEarliest

  datatype Window = Window(source: Source, code: string, lo: Day, hi: Day)

  datatype PageKey = PageKey(source: Source, code: string, lo: Day, hi: Day, fetchedOn: Day)

  /** `observed` is the probe made before the page was fetched. */
  datatype CachedPage = CachedPage(bars: seq<Bar>, observed: Day)

  type Cache = map<PageKey, CachedPage>

  /** The answer to a range request, by request number; `None` is a failure. */
  type Feed = (nat, Source, string, Day, Day) -> Option<seq<Bar>>

  type Collected = map<Day, Certified>

  const MAX_PAGES: nat := 8

  function PageCap(s: Source): nat {
    match s
    case Ifzq => 640
    case Binance => 1000
  }

  function TruncationOf(s: Source): Truncation {
    match s
    case Ifzq => KeepsLatest
    case Binance => KeepsEarliest
  }

  /** The page after a full page spanning [earliest, latest] within [lo, hi]. */
  function NextPage(t: Truncation, lo: Day, hi: Day, earliest: Day, latest: Day): (r: Option<(Day, Day)>)
    ensures r.Some? ==> lo <= r.value.0 <= r.value.1 <= hi && r.value != (lo, hi)
  {
    match t
    case KeepsLatest => if earliest > lo && earliest - 1 < hi then Some((lo, earliest - 1)) else None
    case KeepsEarliest => if latest < hi && latest + 1 > lo then Some((latest + 1, hi)) else None
  }

  function Earliest(page: seq<Bar>): Day
    requires page != []
  {
    if |page| == 1 then page[0].date else Min(page[0].date, Earliest(page[1..]))
  }

  function Latest(page: seq<Bar>): Day
    requires page != []
  {
    if |page| == 1 then page[0].date else Max(page[0].date, Latest(page[1..]))
  }

  lemma {:induction false} PageSpan(page: seq<Bar>)
    requires page != []
    ensures forall i | 0 <= i < |page| :: Earliest(page) <= page[i].date <= Latest(page)
    ensures exists i :: 0 <= i < |page| && page[i].date == Earliest(page)
    ensures exists i :: 0 <= i < |page| && page[i].date == Latest(page)
    decreases |page|
  {
    assert page[0].date <= Latest(page) && Earliest(page) <= page[0].date;
    if |page| > 1 {
      var rest := page[1..];
      PageSpan(rest);
      forall i | 0 <= i < |page|
        ensures Earliest(page) <= page[i].date <= Latest(page)
      {
        assert i > 0 ==> page[i] == rest[i - 1];
      }
      var e :| 0 <= e < |rest| && rest[e].date == Earliest(rest);
      var l :| 0 <= l < |rest| && rest[l].date == Latest(rest);
      assert page[e + 1] == rest[e] && page[l + 1] == rest[l];
    }
  }

  // ---------------------------------------------------------------------------
  // The cache.

  /** Storing a page drops every page of another day. */
  function Store(cache: Cache, key: PageKey, page: CachedPage): Cache {
    (map k | k in cache && k.fetchedOn == key.fetchedOn :: cache[k])[key := page]
  }

  /** A cached page may be used, unless it covers the cutoff and was fetched under another probe. */
  predicate Reusable(cache: Cache, key: PageKey, w: Window, probed: Day) {
    key in cache && !(key.hi >= w.hi && cache[key].observed != probed)
  }

  // ---------------------------------------------------------------------------
  // The paging loop.

  datatype Progress = Progress(ok: bool, cache: Cache, time: nat, bars: Collected)

  datatype Turn = Turn(page: seq<Bar>, certBy: Day, after: Progress)

  /** One page, from the cache or from the source. */
  function TakePage(s: Progress, w: Window, probed: Day, today: Day, feed: Feed, lo: Day, hi: Day): Turn {
    var key := PageKey(w.source, w.code, lo, hi, today);
    if Reusable(s.cache, key, w, probed) then
      Turn(s.cache[key].bars, Min(s.cache[key].observed, probed), s)
    else
      match feed(s.time, w.source, w.code, lo, hi)
      case None => Turn([], probed, s.(ok := false, time := s.time + 1))
      case Some(page) =>
        Turn(page, probed, s.(cache := Store(s.cache, key, CachedPage(page, probed)), time := s.time + 1))
  }

  /** The first bar collected for a date stays. */
  function Collect(bars: Collected, page: seq<Bar>, certBy: Day): Collected {
    if page == [] then bars
    else
      var earlier := Collect(bars, page[..|page| - 1], certBy);
      var b := page[|page| - 1];
      if b.date in earlier then earlier else earlier[b.date := Certified(b, certBy)]
  }

  datatype Advanced = Advanced(after: Progress, next: Option<(Day, Day)>)

  /** One turn of the loop: take a page, collect it, and find the next range, if any. */
  function Advance(s: Progress, w: Window, probed: Day, today: Day, feed: Feed, lo: Day, hi: Day): Advanced {
    var turn := TakePage(s, w, probed, today, feed, lo, hi);
    var page := turn.page;
    if !turn.after.ok || page == [] then Advanced(turn.after, None)
    else
      var grown := turn.after.(bars := Collect(s.bars, page, turn.certBy));
      if |page| < PageCap(w.source) then Advanced(grown, None)
      else Advanced(grown, NextPage(TruncationOf(w.source), lo, hi, Earliest(page), Latest(page)))
  }

  function FetchFrom(s: Progress, w: Window, probed: Day, today: Day, feed: Feed, lo: Day, hi: Day, pages: nat)
    : Progress
    decreases pages
  {
    if pages == 0 then s
    else
      var a := Advance(s, w, probed, today, feed, lo, hi);
      if a.next.None? then a.after
      else FetchFrom(a.after, w, probed, today, feed, a.next.value.0, a.next.value.1, pages - 1)
  }

  /** At most `limit` pages; the engine's limit is `MAX_PAGES`. */
  function FetchWindow(cache: Cache, time: nat, w: Window, probed: Day, today: Day, feed: Feed, limit: nat): Progress {
    FetchFrom(Progress(true, cache, time, map[]), w, probed, today, feed, w.lo, w.hi, limit)
  }

  /** What a fetch leaves: the cache, the clock, and the bars if it succeeded. */
  function Result(r: Progress): (Cache, nat, Option<Collected>) {
    (r.cache, r.time, if r.ok then Some(r.bars) else None)
  }

  // ---------------------------------------------------------------------------
  // The object that owns the cache.

  class PageFetcher {
    var cache: Cache
    var time: nat

    constructor ()
      ensures cache == map[] && time == 0
    {
      cache, time := map[], 0;
    }

    method CollectPage(bars: Collected, page: seq<Bar>, certBy: Day) returns (more: Collected)
      ensures more == Collect(bars, page, certBy)
    {
      more := bars;
      for i := 0 to |page|
        invariant more == Collect(bars, page[..i], certBy)
      {
        assert page[..i + 1][..i] == page[..i];
        if page[i].date !in more {
          more := more[page[i].date := Certified(page[i], certBy)];
        }
      }
      assert page[..|page|] == page;
    }

    /** One turn; `done` when there is no further page to ask for. */
    method TakeTurn(bars: Collected, w: Window, probed: Day, today: Day, feed: Feed, lo: Day, hi: Day)
      returns (ok: bool, more: Collected, next: Option<(Day, Day)>)
      modifies this
      ensures Advanced(Progress(ok, cache, time, more), next)
           == Advance(Progress(true, old(cache), old(time), bars), w, probed, today, feed, lo, hi)
    {
      ok, more, next := true, bars, None;
      var key := PageKey(w.source, w.code, lo, hi, today);
      var page, certBy := [], probed;
      if Reusable(cache, key, w, probed) {
        page, certBy := cache[key].bars, Min(cache[key].observed, probed);
      } else {
        var answer := feed(time, w.source, w.code, lo, hi);
        time := time + 1;
        if answer.None? {
          ok := false;
          return;
        }
        page := answer.value;
        cache := Store(cache, key, CachedPage(page, probed));
      }
      if page == [] {
        return;
      }
      more := CollectPage(bars, page, certBy);
      if |page| >= PageCap(w.source) {
        next := NextPage(TruncationOf(w.source), lo, hi, Earliest(page), Latest(page));
      }
    }

    method Fetch(w: Window, probed: Day, today: Day, feed: Feed, limit: nat) returns (bars: Option<Collected>)
      modifies this
      ensures (cache, time, bars) == Result(FetchWindow(old(cache), old(time), w, probed, today, feed, limit))
    {
      ghost var all := FetchWindow(cache, time, w, probed, today, feed, limit);
      var collected: Collected := map[];
      var pageLo, pageHi, pages := w.lo, w.hi, limit;
      while pages > 0
        invariant FetchesTo(Progress(true, cache, time, collected), w, probed, today, feed, pageLo, pageHi, pages, all)
        decreases pages
      {
        ghost var now := Progress(true, cache, time, collected);
        var ok, more, next := TakeTurn(collected, w, probed, today, feed, pageLo, pageHi);
        ghost var turn := Advanced(Progress(ok, cache, time, more), next);
        FetchTurn(now, w, probed, today, feed, pageLo, pageHi, pages, turn, all);
        if !ok {
          return None;
        }
        collected := more;
        if next.None? {
          return Some(collected);
        }
        pageLo, pageHi, pages := next.value.0, next.value.1, pages - 1;
      }
      bars := Some(collected);
    }
  }

  // ---------------------------------------------------------------------------
  // Completeness against an unchanging source.

  type Rows = map<Day, Bar>

  function DatesIn(rows: Rows, lo: Day, hi: Day): set<Day> {
    set d | d in rows && lo <= d <= hi
  }

  function Dates(page: seq<Bar>): set<Day> {
    set i | 0 <= i < |page| :: page[i].date
  }

  /** `page` is what a source with these rows may answer: rows of the range, each once; when any row is
      missing the page is at least `cap` long and the missing rows lie beyond the end it truncates. */
  ghost predicate Answers(rows: Rows, t: Truncation, cap: nat, lo: Day, hi: Day, page: seq<Bar>) {
    && (forall i | 0 <= i < |page| ::
          lo <= page[i].date <= hi && page[i].date in rows && rows[page[i].date] == page[i])
    && (forall i, j | 0 <= i < j < |page| :: page[i].date != page[j].date)
    && (forall d | d in DatesIn(rows, lo, hi) && d !in Dates(page) ::
          && |page| >= cap
          && (forall i | 0 <= i < |page| :: if t.KeepsLatest? then d < page[i].date else d > page[i].date))
  }

  ghost predicate FeedAnswers(feed: Feed, rows: Rows, w: Window) {
    forall time: nat, lo: Day, hi: Day ::
      var page := feed(time, w.source, w.code, lo, hi);
      page.Some? && Answers(rows, TruncationOf(w.source), PageCap(w.source), lo, hi, page.value)
  }

  ghost predicate CacheAnswers(cache: Cache, rows: Rows, w: Window) {
    forall key | key in cache && key.source == w.source && key.code == w.code ::
      Answers(rows, TruncationOf(w.source), PageCap(w.source), key.lo, key.hi, cache[key].bars)
  }

  lemma {:induction false} DistinctDates(page: seq<Bar>)
    requires forall i, j | 0 <= i < j < |page| :: page[i].date != page[j].date
    ensures |Dates(page)| == |page|
    decreases |page|
  {
    if page != [] {
      var init, n := page[..|page| - 1], |page| - 1;
      DistinctDates(init);
      assert Dates(page) == Dates(init) + {page[n].date} by {
        forall d | d in Dates(page) ensures d in Dates(init) + {page[n].date} {
          var i :| 0 <= i < |page| && page[i].date == d;
          assert i < n ==> init[i] == page[i];
        }
        forall d | d in Dates(init) ensures d in Dates(page) {
          var i :| 0 <= i < |init| && init[i].date == d;
          assert page[i] == init[i];
        }
      }
      assert page[n].date !in Dates(init);
    }
  }

  /** Collecting a page of new dates adds exactly its rows. */
  lemma {:induction false} CollectRows(bars: Collected, page: seq<Bar>, certBy: Day, rows: Rows)
    requires forall i | 0 <= i < |page| :: page[i].date in rows && rows[page[i].date] == page[i]
    ensures var r := Collect(bars, page, certBy);
            && r.Keys == bars.Keys + Dates(page)
            && (forall d | d in bars :: r[d] == bars[d])
            && (forall d | d in r && d !in bars :: d in rows && r[d].bar == rows[d])
    decreases |page|
  {
    if page != [] {
      var init, n := page[..|page| - 1], |page| - 1;
      CollectRows(bars, init, certBy, rows);
      assert Dates(page) == Dates(init) + {page[n].date} by {
        forall d | d in Dates(page) ensures d in Dates(init) + {page[n].date} {
          var i :| 0 <= i < |page| && page[i].date == d;
          assert i < n ==> init[i] == page[i];
        }
        forall d | d in Dates(init) ensures d in Dates(page) {
          var i :| 0 <= i < |init| && init[i].date == d;
          assert page[i] == init[i];
        }
      }
    } else {
      assert bars.Keys + Dates(page) == bars.Keys;
    }
  }

  lemma TakePageAnswers(s: Progress, w: Window, probed: Day, today: Day, feed: Feed, lo: Day, hi: Day, rows: Rows)
    requires FeedAnswers(feed, rows, w) && CacheAnswers(s.cache, rows, w) && s.ok
    ensures var turn := TakePage(s, w, probed, today, feed, lo, hi);
            && turn.after.ok && turn.after.bars == s.bars
            && CacheAnswers(turn.after.cache, rows, w)
            && Answers(rows, TruncationOf(w.source), PageCap(w.source), lo, hi, turn.page)
  {
  }

  /** What is left of the range after a full page is exactly the next page's range. */
  lemma NextPageHoldsRest(rows: Rows, t: Truncation, cap: nat, lo: Day, hi: Day, page: seq<Bar>)
    requires Answers(rows, t, cap, lo, hi, page) && page != []
    ensures var next := NextPage(t, lo, hi, Earliest(page), Latest(page));
            && (next.None? ==> DatesIn(rows, lo, hi) == Dates(page))
            && (next.Some? ==> DatesIn(rows, next.value.0, next.value.1) == DatesIn(rows, lo, hi) - Dates(page))
  {
    PageSpan(page);
    var first :| 0 <= first < |page| && page[first].date == Earliest(page);
    var last :| 0 <= last < |page| && page[last].date == Latest(page);
    assert Dates(page) <= DatesIn(rows, lo, hi);
    var next := NextPage(t, lo, hi, Earliest(page), Latest(page));
    if next.Some? {
      var rest := DatesIn(rows, next.value.0, next.value.1);
      forall d | d in rest
        ensures d in DatesIn(rows, lo, hi) - Dates(page)
      {
      }
    }
  }

  ghost predicate CollectedAll(r: Progress, bars: Collected, rows: Rows, lo: Day, hi: Day) {
    && r.ok
    && r.bars.Keys == bars.Keys + DatesIn(rows, lo, hi)
    && (forall d | d in bars :: r.bars[d] == bars[d])
    && (forall d | d in r.bars && d !in bars :: d in rows && r.bars[d].bar == rows[d])
  }

  /** One turn collects some rows of the range and leaves the rest, within the bound. */
  ghost predicate Took(s: Progress, a: Advanced, taken: set<Day>, rows: Rows, lo: Day, hi: Day, most: int) {
    && a.after.ok
    && a.after.bars.Keys == s.bars.Keys + taken
    && (forall d | d in s.bars :: a.after.bars[d] == s.bars[d])
    && (forall d | d in a.after.bars && d !in s.bars :: d in rows && a.after.bars[d].bar == rows[d])
    && taken <= DatesIn(rows, lo, hi)
    && (a.next.None? ==> DatesIn(rows, lo, hi) == taken)
    && (a.next.Some? ==>
          && DatesIn(rows, a.next.value.0, a.next.value.1) == DatesIn(rows, lo, hi) - taken
          && |DatesIn(rows, a.next.value.0, a.next.value.1)| <= most)
  }

  lemma PageTaken(s: Progress, page: seq<Bar>, certBy: Day, cache: Cache, time: nat, t: Truncation, cap: nat,
                  lo: Day, hi: Day, pages: nat, rows: Rows, a: Advanced)
    requires Answers(rows, t, cap, lo, hi, page) && s.ok && cap > 0
    requires 0 < pages && |DatesIn(rows, lo, hi)| <= pages * cap
    requires a.after == Progress(true, cache, time, Collect(s.bars, page, certBy))
    requires |page| < cap ==> a.next.None?
    requires |page| >= cap ==> a.next == NextPage(t, lo, hi, Earliest(page), Latest(page))
    ensures Took(s, a, Dates(page), rows, lo, hi, (pages - 1) * cap)
  {
    CollectRows(s.bars, page, certBy, rows);
    assert Dates(page) <= DatesIn(rows, lo, hi);
    if |page| < cap {
      assert DatesIn(rows, lo, hi) == Dates(page);
    } else {
      NextPageHoldsRest(rows, t, cap, lo, hi, page);
      DistinctDates(page);
      LeftOver(DatesIn(rows, lo, hi), Dates(page), pages, cap);
    }
  }

  lemma AdvanceTakes(s: Progress, w: Window, probed: Day, today: Day, feed: Feed, lo: Day, hi: Day, pages: nat,
                     rows: Rows)
    returns (taken: set<Day>)
    requires FeedAnswers(feed, rows, w) && CacheAnswers(s.cache, rows, w) && s.ok
    requires 0 < pages && |DatesIn(rows, lo, hi)| <= pages * PageCap(w.source)
    ensures var a := Advance(s, w, probed, today, feed, lo, hi);
            && CacheAnswers(a.after.cache, rows, w)
            && Took(s, a, taken, rows, lo, hi, (pages - 1) * PageCap(w.source))
  {
    TakePageAnswers(s, w, probed, today, feed, lo, hi, rows);
    var turn := TakePage(s, w, probed, today, feed, lo, hi);
    taken := Dates(turn.page);
    PageTaken(s, turn.page, turn.certBy, turn.after.cache, turn.after.time, TruncationOf(w.source),
              PageCap(w.source), lo, hi, pages, rows, Advance(s, w, probed, today, feed, lo, hi));
  }

  lemma TookLast(s: Progress, a: Advanced, taken: set<Day>, rows: Rows, lo: Day, hi: Day, most: int)
    requires Took(s, a, taken, rows, lo, hi, most) && a.next.None?
    ensures CollectedAll(a.after, s.bars, rows, lo, hi)
  {
  }

  lemma TookThen(s: Progress, a: Advanced, taken: set<Day>, rows: Rows, lo: Day, hi: Day, most: int, r: Progress)
    requires Took(s, a, taken, rows, lo, hi, most) && a.next.Some?
    requires CollectedAll(r, a.after.bars, rows, a.next.value.0, a.next.value.1)
    ensures CollectedAll(r, s.bars, rows, lo, hi)
  {
    Regroup(s.bars.Keys, taken, DatesIn(rows, lo, hi));
    forall d | d in s.bars
      ensures r.bars[d] == s.bars[d]
    {
      assert d in a.after.bars;
    }
    forall d | d in r.bars && d !in s.bars
      ensures d in rows && r.bars[d].bar == rows[d]
    {
      assert d in a.after.bars || d !in a.after.bars;
    }
  }

  lemma Regroup(keys: set<Day>, taken: set<Day>, all: set<Day>)
    requires taken <= all
    ensures keys + taken + (all - taken) == keys + all
  {
  }

  /** A fetch in this state ends in `all`. */
  ghost predicate FetchesTo(s: Progress, w: Window, probed: Day, today: Day, feed: Feed, lo: Day, hi: Day,
                            pages: nat, all: Progress)
  {
    exists n: nat :: n == pages && FetchFrom(s, w, probed, today, feed, lo, hi, n) == all
  }

  lemma FetchTurn(s: Progress, w: Window, probed: Day, today: Day, feed: Feed, lo: Day, hi: Day, pages: nat,
                  a: Advanced, all: Progress)
    requires s.ok && pages > 0 && a == Advance(s, w, probed, today, feed, lo, hi)
    requires FetchesTo(s, w, probed, today, feed, lo, hi, pages, all)
    ensures a.after.ok && a.next.Some? ==>
              FetchesTo(a.after, w, probed, today, feed, a.next.value.0, a.next.value.1, pages - 1, all)
    ensures !a.after.ok || a.next.None? ==> all == a.after
  {
    FetchUnfolds(s, w, probed, today, feed, lo, hi, pages, a);
    if a.next.Some? {
      var n := pages - 1;
      assert FetchFrom(a.after, w, probed, today, feed, a.next.value.0, a.next.value.1, n) == all;
    }
  }

  /** The fetch is one turn and then the fetch of the range it leaves. */
  lemma FetchUnfolds(s: Progress, w: Window, probed: Day, today: Day, feed: Feed, lo: Day, hi: Day, pages: nat,
                     a: Advanced)
    requires pages > 0 && a == Advance(s, w, probed, today, feed, lo, hi)
    ensures a.next.None? || (s.ok && !a.after.ok) ==> FetchFrom(s, w, probed, today, feed, lo, hi, pages) == a.after
    ensures a.next.Some? ==>
              FetchFrom(s, w, probed, today, feed, lo, hi, pages) ==
              FetchFrom(a.after, w, probed, today, feed, a.next.value.0, a.next.value.1, pages - 1)
  {
  }

  lemma {:induction false} FetchCollects(s: Progress, w: Window, probed: Day, today: Day, feed: Feed,
                                         lo: Day, hi: Day, pages: nat, rows: Rows)
    requires FeedAnswers(feed, rows, w) && CacheAnswers(s.cache, rows, w) && s.ok
    requires |DatesIn(rows, lo, hi)| <= pages * PageCap(w.source)
    ensures CollectedAll(FetchFrom(s, w, probed, today, feed, lo, hi, pages), s.bars, rows, lo, hi)
    decreases pages, 1
  {
    if pages == 0 {
      assert DatesIn(rows, lo, hi) == {};
    } else {
      var taken := AdvanceTakes(s, w, probed, today, feed, lo, hi, pages, rows);
      RestCollects(s, w, probed, today, feed, lo, hi, pages, rows, Advance(s, w, probed, today, feed, lo, hi), taken);
    }
  }

  lemma {:induction false} RestCollects(s: Progress, w: Window, probed: Day, today: Day, feed: Feed,
                                        lo: Day, hi: Day, pages: nat, rows: Rows, a: Advanced, taken: set<Day>)
    requires pages > 0 && a == Advance(s, w, probed, today, feed, lo, hi)
    requires FeedAnswers(feed, rows, w) && CacheAnswers(a.after.cache, rows, w)
    requires Took(s, a, taken, rows, lo, hi, (pages - 1) * PageCap(w.source))
    ensures CollectedAll(FetchFrom(s, w, probed, today, feed, lo, hi, pages), s.bars, rows, lo, hi)
    decreases pages, 0
  {
    var most := (pages - 1) * PageCap(w.source);
    if a.next.None? {
      TookLast(s, a, taken, rows, lo, hi, most);
    } else {
      FetchCollects(a.after, w, probed, today, feed, a.next.value.0, a.next.value.1, pages - 1, rows);
      var rest := FetchFrom(a.after, w, probed, today, feed, a.next.value.0, a.next.value.1, pages - 1);
      TookThen(s, a, taken, rows, lo, hi, most, rest);
    }
    FetchUnfolds(s, w, probed, today, feed, lo, hi, pages, a);
  }

  lemma LeftOver(all: set<Day>, taken: set<Day>, pages: nat, cap: nat)
    requires taken <= all && |all| <= pages * cap && |taken| >= cap && pages > 0
    ensures |all - taken| <= (pages - 1) * cap
  {
    assert all == taken + (all - taken);
    assert (pages - 1) * cap == pages * cap - cap;
  }

  lemma FetchIsCompleteWithin(cache: Cache, time: nat, w: Window, probed: Day, today: Day, feed: Feed, limit: nat,
                              rows: Rows)
    requires FeedAnswers(feed, rows, w) && CacheAnswers(cache, rows, w)
    requires |DatesIn(rows, w.lo, w.hi)| <= limit * PageCap(w.source)
    ensures var r := FetchWindow(cache, time, w, probed, today, feed, limit);
            && r.ok
            && r.bars.Keys == DatesIn(rows, w.lo, w.hi)
            && forall d | d in r.bars :: r.bars[d].bar == rows[d]
  {
    FetchCollects(Progress(true, cache, time, map[]), w, probed, today, feed, w.lo, w.hi, limit, rows);
  }

  /** Against an unchanging source that truncates no shorter than the page cap, and through any cache of
      its answers, the window's rows are all collected when they fit in the page limit. */
  lemma FetchIsComplete(cache: Cache, time: nat, w: Window, probed: Day, today: Day, feed: Feed, rows: Rows)
    requires FeedAnswers(feed, rows, w) && CacheAnswers(cache, rows, w)
    requires |DatesIn(rows, w.lo, w.hi)| <= MAX_PAGES * PageCap(w.source)
    ensures var r := FetchWindow(cache, time, w, probed, today, feed, MAX_PAGES);
            && r.ok
            && r.bars.Keys == DatesIn(rows, w.lo, w.hi)
            && forall d | d in r.bars :: r.bars[d].bar == rows[d]
  {
    FetchIsCompleteWithin(cache, time, w, probed, today, feed, MAX_PAGES, rows);
  }

  // ---------------------------------------------------------------------------
  // Reading the collected bars in date order.

  function InOrder(m: Collected): seq<Certified>
    decreases |m|
  {
    if m == map[] then []
    else
      var k := Least(m.Keys);
      [m[k]] + InOrder(m - {k})
  }

  /** Every collected bar is filed under its own date. */
  ghost predicate Keyed(m: Collected) {
    forall d | d in m :: m[d].bar.date == d
  }

  predicate Filed(m: Collected, x: Certified) {
    x.bar.date in m && m[x.bar.date] == x
  }

  lemma {:induction false} InOrderFacts(m: Collected)
    requires Keyed(m)
    ensures Sorted(InOrder(m))
    ensures forall x :: x in InOrder(m) <==> Filed(m, x)
    decreases |m|
  {
    if m != map[] {
      var k := Least(m.Keys);
      var rest := m - {k};
      InOrderFacts(rest);
      var tail := InOrder(rest);
      forall i | 0 <= i < |tail|
        ensures k < tail[i].bar.date
      {
        assert tail[i] in tail && Filed(rest, tail[i]);
      }
      HeadSorted(m[k], tail);
      HeadFiled(m, k, tail);
    }
  }

  lemma HeadSorted(x: Certified, tail: seq<Certified>)
    requires Sorted(tail) && forall i | 0 <= i < |tail| :: x.bar.date < tail[i].bar.date
    ensures Sorted([x] + tail)
  {
  }

  lemma HeadFiled(m: Collected, k: Day, tail: seq<Certified>)
    requires Keyed(m) && k in m && forall x :: x in tail <==> Filed(m - {k}, x)
    ensures forall x :: x in [m[k]] + tail <==> Filed(m, x)
  {
    forall x
      ensures x in [m[k]] + tail <==> Filed(m, x)
    {
      assert x in [m[k]] + tail <==> x == m[k] || x in tail;
      assert Filed(m - {k}, x) <==> x.bar.date != k && Filed(m, x);
    }
  }

  lemma {:induction false} CollectKeyed(bars: Collected, page: seq<Bar>, certBy: Day)
    requires Keyed(bars)
    ensures Keyed(Collect(bars, page, certBy))
    decreases |page|
  {
    if page != [] {
      CollectKeyed(bars, page[..|page| - 1], certBy);
    }
  }

  lemma {:induction false} FetchKeyed(s: Progress, w: Window, probed: Day, today: Day, feed: Feed, lo: Day, hi: Day,
                                      pages: nat)
    requires Keyed(s.bars)
    ensures Keyed(FetchFrom(s, w, probed, today, feed, lo, hi, pages).bars)
    decreases pages
  {
    if pages > 0 {
      var turn := TakePage(s, w, probed, today, feed, lo, hi);
      CollectKeyed(s.bars, turn.page, turn.certBy);
      var a := Advance(s, w, probed, today, feed, lo, hi);
      if a.next.Some? {
        FetchKeyed(a.after, w, probed, today, feed, a.next.value.0, a.next.value.1, pages - 1);
      }
    }
  }
}
