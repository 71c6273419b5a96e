/**
 The terminal output protocol. Each step is one critical section of the reader thread, the waiter
 thread or an attach handler, and a run interleaves them in any order:
   - the reader appends a chunk to the ring and broadcasts it, both under the ring lock;
   - the waiter (or its completion guard) seals the ring, stamps the sticky exit and broadcasts it;
   - a client subscribes, then snapshots the ring, then looks at the sticky exit, then receives.
 The main result is `ExactlyOnce`: what a client is sent is the stream itself, once, then one exit.
 */
module OutputStream {
  import opened Common
  import opened Rings

  datatype Exit = Exit(status: Option<int>, signalled: bool, cursor: nat)

  datatype Frame =
    | Output(cursor: nat, bytes: Bytes)
    | Exited(exit: Exit)

  /** The state every thread shares; `stream` and `frames` are histories. */
  datatype Shared = Shared(
    ring: Ring,
    stream: Bytes,
    frames: seq<Frame>,
    exit: Option<Exit>,
    cursorHead: nat,
    cursorTail: nat)

  datatype Reply =
    | AttachOk(running: bool, head: nat, tail: nat, replay: Bytes)
    | GapNotice(earliest: nat, requested: nat)
    | OutputReply(at: nat, data: Bytes)
    | ExitedReply(how: Exit)

  datatype Phase = Subscribed | Snapshotted | Live | Finished

  /** `next` is the receiver's position in the broadcast, `base` the first stream position sent. */
  datatype Client = Client(
    phase: Phase,
    want: Option<nat>,
    next: nat,
    base: nat,
    snapshotTail: nat,
    lagged: bool,
    out: seq<Reply>)

  datatype State = State(shared: Shared, clients: map<nat, Client>)

  datatype Event =
    | Read(chunk: Bytes)
    | SealExit(status: Option<int>, signalled: bool)
    | Subscribe(id: nat, want: Option<nat>)
    | Snapshot(id: nat)
    | CheckSticky(id: nat)
    | Receive(id: nat)

  const BROADCAST_CAPACITY: nat := 2048

  // ---------------------------------------------------------------------------
  // The steps.

  function Init(capacity: nat): State {
    State(Shared(Empty(capacity), [], [], None, 0, 0), map[])
  }

  /** The reader's critical section; an empty read is end of file and never gets here. */
  function ReadChunk(s: Shared, chunk: Bytes): Shared {
    if s.ring.sealed || chunk == [] then s
    else
      var ring := Append(s.ring, chunk);
      Shared(ring, s.stream + chunk, s.frames + [Output(s.ring.tail, chunk)], s.exit, ring.head, ring.tail)
  }

  function SealAndPublish(s: Shared, status: Option<int>, signalled: bool): Shared {
    var exit := Exit(status, signalled, s.ring.tail);
    var sealed := s.(ring := Seal(s.ring), cursorTail := s.ring.tail);
    if s.exit.Some? then sealed
    else sealed.(exit := Some(exit), frames := s.frames + [Exited(exit)])
  }

  function Requested(c: Client, head: nat): nat {
    if c.want.Some? then c.want.value else head
  }

  function Clip(cursor: nat, head: nat, tail: nat): nat {
    if cursor < head then head else if cursor > tail then tail else cursor
  }

  function TakeSnapshot(s: Shared, c: Client): Client {
    var requested := Requested(c, s.ring.head);
    var slice := SliceFrom(s.ring, requested);
    var replay := match slice
      case Replay(_, _, bytes) => bytes
      case Gap(head, _) =>
        (match SliceFrom(s.ring, head) case Replay(_, _, bytes) => bytes case Gap(_, _) => []);
    var ok := AttachOk(s.exit.None?, s.ring.head, s.ring.tail, replay);
    var notice := if slice.Gap? then [GapNotice(s.ring.head, requested)] else [];
    c.(phase := Snapshotted,
       base := Clip(requested, s.ring.head, s.ring.tail),
       snapshotTail := s.ring.tail,
       out := [ok] + notice)
  }

  function LookAtSticky(s: Shared, c: Client): Client {
    if s.exit.Some? && s.exit.value.cursor <= c.snapshotTail then
      c.(phase := Finished, out := c.out + [ExitedReply(s.exit.value)])
    else
      c.(phase := Live)
  }

  /** One `recv`: a receiver more than the channel capacity behind skips to the oldest kept frame. */
  function ReceiveFrame(s: Shared, c: Client): Client {
    if c.next >= |s.frames| then c
    else if |s.frames| - c.next > BROADCAST_CAPACITY then
      c.(next := |s.frames| - BROADCAST_CAPACITY,
         lagged := true,
         out := c.out + [GapNotice(s.cursorHead, s.cursorHead)])
    else
      match s.frames[c.next]
      case Exited(exit) =>
        c.(next := c.next + 1, phase := Finished, out := c.out + [ExitedReply(exit)])
      case Output(cursor, bytes) =>
        if cursor + |bytes| <= c.snapshotTail then c.(next := c.next + 1)
        else if cursor < c.snapshotTail then
          c.(next := c.next + 1,
             out := c.out + [OutputReply(c.snapshotTail, bytes[c.snapshotTail - cursor..])])
        else
          c.(next := c.next + 1, out := c.out + [OutputReply(cursor, bytes)])
  }

  function Step(s: State, e: Event): State {
    match e
    case Read(chunk) => s.(shared := ReadChunk(s.shared, chunk))
    case SealExit(status, signalled) => s.(shared := SealAndPublish(s.shared, status, signalled))
    case Subscribe(id, want) =>
      if id in s.clients then s
      else s.(clients := s.clients[id := Client(Subscribed, want, |s.shared.frames|, 0, 0, false, [])])
    case Snapshot(id) =>
      if id in s.clients && s.clients[id].phase.Subscribed?
      then s.(clients := s.clients[id := TakeSnapshot(s.shared, s.clients[id])]) else s
    case CheckSticky(id) =>
      if id in s.clients && s.clients[id].phase.Snapshotted?
      then s.(clients := s.clients[id := LookAtSticky(s.shared, s.clients[id])]) else s
    case Receive(id) =>
      if id in s.clients && s.clients[id].phase.Live?
      then s.(clients := s.clients[id := ReceiveFrame(s.shared, s.clients[id])]) else s
  }

  function Run(s: State, events: seq<Event>): State
    decreases |events|
  {
    if events == [] then s else Run(Step(s, events[0]), events[1..])
  }

  // ---------------------------------------------------------------------------
  // Broadcast invariant.

  function FrameLength(f: Frame): nat {
    if f.Output? then |f.bytes| else 0
  }

  /** Bytes carried by the first `n` frames. */
  function End(frames: seq<Frame>, n: nat): nat
    requires n <= |frames|
  {
    if n == 0 then 0 else End(frames, n - 1) + FrameLength(frames[n - 1])
  }

  lemma {:induction false} EndOfPrefix(frames: seq<Frame>, f: Frame, n: nat)
    requires n <= |frames|
    ensures End(frames + [f], n) == End(frames, n)
  {
    if n > 0 {
      EndOfPrefix(frames, f, n - 1);
    }
  }

  lemma {:induction false} EndMonotone(frames: seq<Frame>, m: nat, n: nat)
    requires m <= n <= |frames|
    ensures End(frames, m) <= End(frames, n)
    decreases n
  {
    if m < n {
      EndMonotone(frames, m, n - 1);
    }
  }

  /** The slice of the stream between two cursors. */
  function Part(stream: Bytes, lo: nat, hi: nat): Bytes {
    if lo <= hi <= |stream| then stream[lo..hi] else []
  }

  ghost predicate FrameTrue(frames: seq<Frame>, stream: Bytes, i: nat)
    requires i < |frames|
  {
    frames[i].Output? ==>
      && frames[i].cursor == End(frames, i)
      && End(frames, i) + |frames[i].bytes| <= |stream|
      && frames[i].bytes == Part(stream, End(frames, i), End(frames, i + 1))
  }

  /** Output frames carry the stream in order; an exit frame is present exactly once an exit is
      recorded, is the last one, equals it, and sits at the end of the stream. */
  ghost predicate SharedInv(s: Shared) {
    && Holds(s.ring, s.stream)
    && s.cursorHead == s.ring.head
    && s.cursorTail == s.ring.tail
    && End(s.frames, |s.frames|) == |s.stream|
    && (forall i: nat | i < |s.frames| :: FrameTrue(s.frames, s.stream, i))
    && s.ring.sealed == s.exit.Some?
    && (forall i: nat | i < |s.frames| :: s.frames[i].Exited? ==> s.exit.Some? && i == |s.frames| - 1)
    && (s.exit.Some? ==>
          && |s.frames| > 0
          && s.frames[|s.frames| - 1] == Exited(s.exit.value)
          && s.exit.value.cursor == |s.stream|)
  }

  /** `t` may only extend `s`. */
  ghost predicate Extends(s: Shared, t: Shared) {
    && s.stream <= t.stream
    && s.frames <= t.frames
    && (s.exit.Some? ==> t == s)
    && (forall n: nat | n <= |s.frames| && n <= |t.frames| :: End(t.frames, n) == End(s.frames, n))
  }

  lemma PartOfPrefix(s: Bytes, t: Bytes, lo: nat, hi: nat)
    requires s <= t && hi <= |s|
    ensures Part(s, lo, hi) == Part(t, lo, hi)
  {
    if lo <= hi {
      assert s[lo..hi] == t[lo..hi];
    }
  }

  lemma FramesGrow(frames: seq<Frame>, stream: Bytes, f: Frame, more: Bytes)
    requires End(frames, |frames|) == |stream|
    requires forall i: nat | i < |frames| :: FrameTrue(frames, stream, i)
    requires f.Output? ==> f == Output(|stream|, more)
    requires f.Exited? ==> more == []
    ensures var all := frames + [f];
            && (forall n: nat | n <= |frames| :: End(all, n) == End(frames, n))
            && End(all, |all|) == |stream + more|
            && forall i: nat | i < |all| :: FrameTrue(all, stream + more, i)
  {
    var all := frames + [f];
    forall n: nat | n <= |frames|
      ensures End(all, n) == End(frames, n)
    {
      EndOfPrefix(frames, f, n);
    }
    forall i: nat | i < |all|
      ensures FrameTrue(all, stream + more, i)
    {
      if i < |frames| {
        assert FrameTrue(frames, stream, i);
        if frames[i].Output? {
          PartOfPrefix(stream, stream + more, End(frames, i), End(frames, i + 1));
        }
      } else {
        assert (stream + more)[|stream|..] == more;
      }
    }
  }

  lemma ReadKeeps(s: Shared, chunk: Bytes)
    requires SharedInv(s)
    ensures SharedInv(ReadChunk(s, chunk))
    ensures Extends(s, ReadChunk(s, chunk))
  {
    if !s.ring.sealed && chunk != [] {
      AppendHolds(s.ring, s.stream, chunk);
      FramesGrow(s.frames, s.stream, Output(s.ring.tail, chunk), chunk);
    }
  }

  lemma SealKeeps(s: Shared, status: Option<int>, signalled: bool)
    requires SharedInv(s)
    ensures SharedInv(SealAndPublish(s, status, signalled))
    ensures Extends(s, SealAndPublish(s, status, signalled))
    ensures SealAndPublish(s, status, signalled).exit.Some?
  {
    if s.exit.None? {
      var exit := Exit(status, signalled, s.ring.tail);
      FramesGrow(s.frames, s.stream, Exited(exit), []);
      assert s.stream + [] == s.stream;
    } else {
      assert SealAndPublish(s, status, signalled) == s;
    }
  }

  // ---------------------------------------------------------------------------
  // Client invariant.

  /** The stream bytes a reply carries. */
  function Payload(r: Reply): Bytes {
    match r
    case AttachOk(_, _, _, replay) => replay
    case OutputReply(_, data) => data
    case GapNotice(_, _) => []
    case ExitedReply(_) => []
  }

  function Received(out: seq<Reply>): Bytes {
    if out == [] then [] else Received(out[..|out| - 1]) + Payload(out[|out| - 1])
  }

  lemma ReceivedSnoc(out: seq<Reply>, r: Reply)
    ensures Received(out + [r]) == Received(out) + Payload(r)
  {
    assert (out + [r])[..|out|] == out;
  }

  /** Everything up to here was in the snapshot or in a frame already received. */
  function Upto(frames: seq<Frame>, c: Client): nat
    requires c.next <= |frames|
  {
    Max(c.snapshotTail, End(frames, c.next))
  }

  ghost predicate OutputTrue(r: Reply, stream: Bytes, limit: nat) {
    r.OutputReply? ==>
      && r.at + |r.data| <= limit
      && r.data == Part(stream, r.at, r.at + |r.data|)
  }

  /** Every output sent is the stream at its cursor, and outputs never overlap or go back. */
  ghost predicate OutputsTrue(out: seq<Reply>, stream: Bytes, limit: nat) {
    && (forall k | 0 <= k < |out| :: OutputTrue(out[k], stream, limit))
    && (forall j, k | 0 <= j < k < |out| ::
          out[j].OutputReply? && out[k].OutputReply? ==> out[j].at + |out[j].data| <= out[k].at)
  }

  /** The replies a snapshot starts with. */
  ghost predicate Opened(c: Client) {
    && |c.out| > 0
    && c.out[0].AttachOk?
    && c.out[0].head <= c.out[0].tail
    && c.snapshotTail == c.out[0].tail
    && c.base == Clip(Requested(c, c.out[0].head), c.out[0].head, c.out[0].tail)
    && (Requested(c, c.out[0].head) < c.out[0].head ==>
          |c.out| > 1 && c.out[1] == GapNotice(c.out[0].head, Requested(c, c.out[0].head)))
  }

  ghost predicate NoExitIn(out: seq<Reply>) {
    forall k | 0 <= k < |out| :: !out[k].ExitedReply?
  }

  ghost predicate OneFinalExit(out: seq<Reply>, exit: Exit) {
    && |out| > 0
    && out[|out| - 1] == ExitedReply(exit)
    && NoExitIn(out[..|out| - 1])
  }

  /** What the client was sent is true to the stream; without a lag it is all of it so far. */
  ghost predicate Account(out: seq<Reply>, stream: Bytes, base: nat, upto: nat, lagged: bool) {
    && base <= upto <= |stream|
    && OutputsTrue(out, stream, upto)
    && (!lagged ==> Received(out) == Part(stream, base, upto))
  }

  /** Where the client stands relative to the exit. */
  ghost predicate Progress(s: Shared, c: Client)
    requires c.next <= |s.frames|
  {
    match c.phase
    case Subscribed => c.out == [] && !c.lagged
    case Snapshotted =>
      && NoExitIn(c.out)
      && End(s.frames, c.next) <= c.snapshotTail
      && (s.exit.Some? ==> s.exit.value.cursor <= c.snapshotTail || c.next < |s.frames|)
    case Live =>
      && NoExitIn(c.out)
      && (s.exit.Some? ==> c.next < |s.frames|)
    case Finished =>
      && s.exit.Some?
      && OneFinalExit(c.out, s.exit.value)
      && Upto(s.frames, c) == |s.stream|
  }

  ghost predicate ClientInv(s: Shared, c: Client) {
    && c.next <= |s.frames|
    && Progress(s, c)
    && (!c.phase.Subscribed? ==>
          && Opened(c)
          && c.base <= c.snapshotTail
          && Account(c.out, s.stream, c.base, Upto(s.frames, c), c.lagged))
  }

  ghost predicate Inv(s: State) {
    && SharedInv(s.shared)
    && forall id | id in s.clients :: ClientInv(s.shared, s.clients[id])
  }

  lemma AccountPrefix(out: seq<Reply>, s: Bytes, t: Bytes, base: nat, upto: nat, lagged: bool)
    requires s <= t
    requires Account(out, s, base, upto, lagged)
    ensures Account(out, t, base, upto, lagged)
  {
    forall k | 0 <= k < |out|
      ensures OutputTrue(out[k], t, upto)
    {
      assert OutputTrue(out[k], s, upto);
      if out[k].OutputReply? {
        PartOfPrefix(s, t, out[k].at, out[k].at + |out[k].data|);
      }
    }
    PartOfPrefix(s, t, base, upto);
  }

  lemma PartsJoin(stream: Bytes, lo: nat, mid: nat, hi: nat)
    requires lo <= mid <= hi <= |stream|
    ensures |Part(stream, mid, hi)| == hi - mid
    ensures Part(stream, lo, hi) == Part(stream, lo, mid) + Part(stream, mid, hi)
  {
  }

  lemma OutputsSnoc(out: seq<Reply>, r: Reply, stream: Bytes, low: nat, high: nat)
    requires OutputsTrue(out, stream, low) && low <= high
    requires OutputTrue(r, stream, high) && (r.OutputReply? ==> low <= r.at)
    ensures OutputsTrue(out + [r], stream, high)
  {
    var all := out + [r];
    forall k | 0 <= k < |all|
      ensures OutputTrue(all[k], stream, high)
    {
      if k < |out| {
        assert all[k] == out[k] && OutputTrue(out[k], stream, low);
      }
    }
    forall j, k | 0 <= j < k < |all| && all[j].OutputReply? && all[k].OutputReply?
      ensures all[j].at + |all[j].data| <= all[k].at
    {
      assert all[j] == out[j] && OutputTrue(out[j], stream, low);
    }
  }

  /** Sending the next part of the stream. */
  lemma AccountOutput(out: seq<Reply>, stream: Bytes, base: nat, upto: nat, next: nat, lagged: bool)
    requires Account(out, stream, base, upto, lagged)
    requires upto <= next <= |stream|
    ensures Account(out + [OutputReply(upto, Part(stream, upto, next))], stream, base, next, lagged)
  {
    var reply := OutputReply(upto, Part(stream, upto, next));
    PartsJoin(stream, base, upto, next);
    OutputsSnoc(out, reply, stream, upto, next);
    ReceivedSnoc(out, reply);
  }

  /** Sending a reply without stream bytes; skipping part of the stream counts as lagging. */
  lemma AccountNotice(out: seq<Reply>, r: Reply, stream: Bytes, base: nat, upto: nat, next: nat, lagged: bool)
    requires Account(out, stream, base, upto, lagged)
    requires upto <= next <= |stream|
    requires r.GapNotice? || r.ExitedReply?
    requires !lagged ==> next == upto
    ensures Account(out + [r], stream, base, next, lagged)
  {
    OutputsSnoc(out, r, stream, upto, next);
    ReceivedSnoc(out, r);
  }

  /** What the reader and the waiter do leaves every client's account true. */
  lemma ClientStable(s: Shared, t: Shared, c: Client)
    requires SharedInv(s) && SharedInv(t) && Extends(s, t)
    requires ClientInv(s, c)
    ensures ClientInv(t, c)
  {
    if s.exit.None? {
      EndMonotone(s.frames, c.next, |s.frames|);
      assert End(t.frames, c.next) == End(s.frames, c.next);
      if !c.phase.Subscribed? {
        AccountPrefix(c.out, s.stream, t.stream, c.base, Upto(s.frames, c), c.lagged);
      }
    }
  }

  lemma SnapshotReplay(s: Shared, c: Client)
    requires Holds(s.ring, s.stream)
    ensures var d := TakeSnapshot(s, c);
            && d.base <= |s.stream|
            && d.out[0].replay == s.stream[d.base..]
  {
    SliceIsStream(s.ring, s.stream, Requested(c, s.ring.head));
    SliceIsStream(s.ring, s.stream, s.ring.head);
  }

  lemma FirstReply(ok: Reply, stream: Bytes, base: nat, lagged: bool)
    requires base <= |stream|
    requires ok.AttachOk? && ok.replay == stream[base..]
    ensures Account([ok], stream, base, |stream|, lagged)
  {
    ReceivedSnoc([], ok);
    assert [] + [ok] == [ok];
  }

  lemma SnapshotAccount(s: Shared, c: Client)
    requires Holds(s.ring, s.stream)
    ensures var d := TakeSnapshot(s, c); Account(d.out, s.stream, d.base, |s.stream|, c.lagged)
  {
    var d := TakeSnapshot(s, c);
    SnapshotReplay(s, c);
    FirstReply(d.out[0], s.stream, d.base, c.lagged);
    if |d.out| == 2 {
      AccountNotice([d.out[0]], d.out[1], s.stream, d.base, |s.stream|, |s.stream|, c.lagged);
      assert d.out == [d.out[0]] + [d.out[1]];
    } else {
      assert d.out == [d.out[0]];
    }
  }

  lemma SnapshotKeeps(s: Shared, c: Client)
    requires SharedInv(s) && ClientInv(s, c) && c.phase.Subscribed?
    ensures ClientInv(s, TakeSnapshot(s, c))
  {
    SnapshotAccount(s, c);
    EndMonotone(s.frames, c.next, |s.frames|);
  }

  /** Sending the exit when everything before it was sent. */
  lemma NowFinished(s: Shared, c: Client, d: Client)
    requires ClientInv(s, c) && !c.phase.Subscribed? && NoExitIn(c.out)
    requires s.exit.Some? && Upto(s.frames, c) == |s.stream|
    requires c.next <= d.next <= |s.frames| && Upto(s.frames, d) == |s.stream|
    requires d == c.(phase := Finished, next := d.next, out := c.out + [ExitedReply(s.exit.value)])
    ensures ClientInv(s, d)
  {
    AccountNotice(c.out, ExitedReply(s.exit.value), s.stream, c.base, |s.stream|, |s.stream|, c.lagged);
    assert d.out[..|d.out| - 1] == c.out;
  }

  lemma StickyKeeps(s: Shared, c: Client)
    requires SharedInv(s) && ClientInv(s, c) && c.phase.Snapshotted?
    ensures ClientInv(s, LookAtSticky(s, c))
  {
    if s.exit.Some? && s.exit.value.cursor <= c.snapshotTail {
      NowFinished(s, c, LookAtSticky(s, c));
    }
  }

  lemma LagKeeps(s: Shared, c: Client)
    requires SharedInv(s) && ClientInv(s, c) && c.phase.Live?
    requires |s.frames| - c.next > BROADCAST_CAPACITY
    ensures ClientInv(s, ReceiveFrame(s, c))
  {
    var d := ReceiveFrame(s, c);
    EndMonotone(s.frames, c.next, d.next);
    EndMonotone(s.frames, d.next, |s.frames|);
    AccountNotice(c.out, GapNotice(s.cursorHead, s.cursorHead), s.stream, c.base,
                  Upto(s.frames, c), Upto(s.frames, d), true);
  }

  lemma ReceiveExit(s: Shared, c: Client)
    requires ClientInv(s, c) && c.phase.Live? && s.exit.Some?
    requires c.next == |s.frames| - 1 && s.frames[c.next] == Exited(s.exit.value)
    requires End(s.frames, |s.frames|) == |s.stream|
    ensures ClientInv(s, ReceiveFrame(s, c))
  {
    NowFinished(s, c, ReceiveFrame(s, c));
  }

  /** The reply to an output frame is the part of it past the client's position. */
  lemma NewPart(stream: Bytes, f: Frame, snapshotTail: nat)
    requires f.Output? && f.cursor + |f.bytes| <= |stream|
    requires f.bytes == Part(stream, f.cursor, f.cursor + |f.bytes|)
    requires snapshotTail < f.cursor + |f.bytes|
    ensures var at := Max(snapshotTail, f.cursor);
            f.bytes[at - f.cursor..] == Part(stream, at, f.cursor + |f.bytes|)
  {
  }

  /** An output frame is answered with the part of it past the client's position, if any. */
  lemma OutputSent(s: Shared, c: Client)
    requires c.next < |s.frames| <= c.next + BROADCAST_CAPACITY && s.frames[c.next].Output?
    requires FrameTrue(s.frames, s.stream, c.next)
    ensures var upto, end := Upto(s.frames, c), End(s.frames, c.next + 1);
            ReceiveFrame(s, c) == c.(
              next := c.next + 1,
              out := if end <= c.snapshotTail then c.out
                     else c.out + [OutputReply(upto, Part(s.stream, upto, end))])
  {
    var f := s.frames[c.next];
    assert End(s.frames, c.next + 1) == f.cursor + |f.bytes|;
    FrameSent(s, c, f);
  }

  lemma FrameSent(s: Shared, c: Client, f: Frame)
    requires c.next < |s.frames| <= c.next + BROADCAST_CAPACITY && f == s.frames[c.next] && f.Output?
    requires f.cursor + |f.bytes| <= |s.stream|
    requires f.bytes == Part(s.stream, f.cursor, f.cursor + |f.bytes|)
    ensures var at, end := Max(c.snapshotTail, f.cursor), f.cursor + |f.bytes|;
            ReceiveFrame(s, c) == c.(
              next := c.next + 1,
              out := if end <= c.snapshotTail then c.out else c.out + [OutputReply(at, Part(s.stream, at, end))])
  {
    if f.cursor + |f.bytes| > c.snapshotTail {
      NewPart(s.stream, f, c.snapshotTail);
      PartSent(s, c, f);
    }
  }

  lemma PartSent(s: Shared, c: Client, f: Frame)
    requires c.next < |s.frames| <= c.next + BROADCAST_CAPACITY && f == s.frames[c.next] && f.Output?
    requires f.cursor + |f.bytes| > c.snapshotTail
    ensures var at := Max(c.snapshotTail, f.cursor);
            ReceiveFrame(s, c) == c.(next := c.next + 1, out := c.out + [OutputReply(at, f.bytes[at - f.cursor..])])
  {
    assert f.bytes[0..] == f.bytes;
  }

  /** Receiving an output frame moves the client's account to the end of that frame. */
  lemma OutputAccount(s: Shared, c: Client)
    requires c.next < |s.frames| <= c.next + BROADCAST_CAPACITY && s.frames[c.next].Output?
    requires FrameTrue(s.frames, s.stream, c.next)
    requires Account(c.out, s.stream, c.base, Upto(s.frames, c), c.lagged)
    ensures var d := ReceiveFrame(s, c);
            && d == c.(next := c.next + 1, out := d.out)
            && c.out <= d.out && NoExitIn(d.out[|c.out|..])
            && Account(d.out, s.stream, d.base, Upto(s.frames, d), d.lagged)
  {
    OutputSent(s, c);
    var upto, end := Upto(s.frames, c), End(s.frames, c.next + 1);
    if end > c.snapshotTail {
      AccountOutput(c.out, s.stream, c.base, upto, end, c.lagged);
    }
  }

  lemma ReceiveOutput(s: Shared, c: Client)
    requires ClientInv(s, c) && c.phase.Live?
    requires c.next < |s.frames| <= c.next + BROADCAST_CAPACITY && s.frames[c.next].Output?
    requires FrameTrue(s.frames, s.stream, c.next)
    requires s.exit.Some? ==> s.frames[|s.frames| - 1].Exited?
    ensures ClientInv(s, ReceiveFrame(s, c))
  {
    assert c.next < |s.frames| - 1 || s.exit.None?;
    OutputAccount(s, c);
    StillLive(s, c, ReceiveFrame(s, c));
  }

  lemma StillLive(s: Shared, c: Client, d: Client)
    requires ClientInv(s, c) && c.phase.Live?
    requires d == c.(next := d.next, out := d.out) && d.next <= |s.frames|
    requires c.out <= d.out && NoExitIn(d.out[|c.out|..])
    requires Account(d.out, s.stream, d.base, Upto(s.frames, d), d.lagged)
    requires s.exit.Some? ==> d.next < |s.frames|
    ensures ClientInv(s, d)
  {
    forall k | 0 <= k < |d.out|
      ensures !d.out[k].ExitedReply?
    {
      if k >= |c.out| {
        assert d.out[k] == d.out[|c.out|..][k - |c.out|];
      }
    }
  }

  lemma ReceiveKeeps(s: Shared, c: Client)
    requires SharedInv(s) && ClientInv(s, c) && c.phase.Live?
    ensures ClientInv(s, ReceiveFrame(s, c))
  {
    if c.next < |s.frames| {
      if |s.frames| - c.next > BROADCAST_CAPACITY {
        LagKeeps(s, c);
      } else if s.frames[c.next].Exited? {
        ReceiveExit(s, c);
      } else {
        ReceiveOutput(s, c);
      }
    }
  }

  // ---------------------------------------------------------------------------
  // Whole runs.

  lemma ClientsStable(s: State, t: Shared)
    requires Inv(s) && SharedInv(t) && Extends(s.shared, t)
    ensures Inv(s.(shared := t))
  {
    forall id | id in s.clients
      ensures ClientInv(t, s.clients[id])
    {
      ClientStable(s.shared, t, s.clients[id]);
    }
  }

  lemma ClientStepKeeps(s: State, e: Event)
    requires Inv(s) && !e.Read? && !e.SealExit?
    ensures Inv(Step(s, e))
  {
    if e.id in s.clients {
      var c := s.clients[e.id];
      assert ClientInv(s.shared, c);
      match e
      case Subscribe(_, _) =>
      case Snapshot(_) =>
        if c.phase.Subscribed? {
          SnapshotKeeps(s.shared, c);
        }
      case CheckSticky(_) =>
        if c.phase.Snapshotted? {
          StickyKeeps(s.shared, c);
        }
      case Receive(_) =>
        if c.phase.Live? {
          ReceiveKeeps(s.shared, c);
        }
    }
  }

  lemma StepKeeps(s: State, e: Event)
    requires Inv(s)
    ensures Inv(Step(s, e))
    ensures Extends(s.shared, Step(s, e).shared)
  {
    if e.Read? {
      ReadKeeps(s.shared, e.chunk);
      ClientsStable(s, ReadChunk(s.shared, e.chunk));
    } else if e.SealExit? {
      SealKeeps(s.shared, e.status, e.signalled);
      ClientsStable(s, SealAndPublish(s.shared, e.status, e.signalled));
    } else {
      ClientStepKeeps(s, e);
    }
  }

  lemma {:induction false} RunKeeps(s: State, events: seq<Event>)
    requires Inv(s)
    ensures Inv(Run(s, events))
    decreases |events|
  {
    if events != [] {
      StepKeeps(s, events[0]);
      RunKeeps(Step(s, events[0]), events[1..]);
    }
  }

  lemma InitInv(capacity: nat)
    ensures Inv(Init(capacity))
  {
  }

  /** In every run, a client that has finished without lagging was sent the stream from its clipped
      cursor to the exit cursor, every byte once and in order, and then exactly one exit. */
  lemma ExactlyOnce(capacity: nat, events: seq<Event>, id: nat)
    requires var s := Run(Init(capacity), events); id in s.clients && s.clients[id].phase.Finished?
    ensures var s := Run(Init(capacity), events);
            var c := s.clients[id];
            && s.shared.exit.Some?
            && Opened(c)
            && s.shared.exit.value.cursor == |s.shared.stream|
            && OneFinalExit(c.out, s.shared.exit.value)
            && OutputsTrue(c.out, s.shared.stream, |s.shared.stream|)
            && (!c.lagged ==> c.base <= |s.shared.stream| && Received(c.out) == s.shared.stream[c.base..])
  {
    InitInv(capacity);
    RunKeeps(Init(capacity), events);
  }

  /** Before it finishes, a client that has not lagged has been sent a prefix of that same part. */
  lemma DeliveredSoFar(capacity: nat, events: seq<Event>, id: nat)
    requires var s := Run(Init(capacity), events);
             id in s.clients && s.clients[id].phase.Live? && !s.clients[id].lagged
    ensures var s := Run(Init(capacity), events);
            var c := s.clients[id];
            && c.base <= |s.shared.stream|
            && Received(c.out) <= s.shared.stream[c.base..]
            && NoExitIn(c.out)
  {
    InitInv(capacity);
    RunKeeps(Init(capacity), events);
    var s := Run(Init(capacity), events);
    var c := s.clients[id];
    EndMonotone(s.shared.frames, c.next, |s.shared.frames|);
    var upto := Upto(s.shared.frames, c);
    assert s.shared.stream[c.base..upto] <= s.shared.stream[c.base..];
  }

  /** `n` receives of one client. */
  function Drain(s: Shared, c: Client, n: nat): Client
    decreases n
  {
    if n == 0 || !c.phase.Live? then c else Drain(s, ReceiveFrame(s, c), n - 1)
  }

  lemma ReceiveAdvances(s: Shared, c: Client)
    requires c.next < |s.frames| && c.phase.Live? && s.frames[|s.frames| - 1].Exited?
    ensures var d := ReceiveFrame(s, c);
            && c.next < d.next
            && (d.phase.Finished? || (d.phase.Live? && d.next < |s.frames|))
  {
  }

  /** While the last frame is the exit, receiving as often as frames are left always finishes the
      client, lagging or not. */
  lemma {:induction false} DrainFinishes(s: Shared, c: Client, n: nat)
    requires c.next < |s.frames| && c.phase.Live? && s.frames[|s.frames| - 1].Exited?
    requires n >= |s.frames| - c.next
    ensures Drain(s, c, n).phase.Finished?
    decreases n
  {
    ReceiveAdvances(s, c);
    var d := ReceiveFrame(s, c);
    if d.phase.Live? {
      DrainFinishes(s, d, n - 1);
    }
  }

  function Receives(id: nat, n: nat): seq<Event> {
    if n == 0 then [] else [Receive(id)] + Receives(id, n - 1)
  }

  /** `Drain` is what a run of receive events does to the client. */
  lemma {:induction false} DrainIsRun(s: State, id: nat, n: nat)
    requires id in s.clients
    ensures Run(s, Receives(id, n)) == s.(clients := s.clients[id := Drain(s.shared, s.clients[id], n)])
    decreases n
  {
    if n > 0 {
      assert Receives(id, n)[1..] == Receives(id, n - 1);
      DrainIsRun(Step(s, Receive(id)), id, n - 1);
    } else {
      assert s.clients == s.clients[id := s.clients[id]];
    }
  }

  /** From any reachable state with a published exit, the receives left to a live client bring it the
      exit, and the whole rest of the stream before it unless it lags. */
  lemma DrainDelivers(s: State, id: nat, n: nat)
    requires Inv(s)
    requires s.shared.exit.Some? && id in s.clients && s.clients[id].phase.Live?
    requires n >= |s.shared.frames| - s.clients[id].next
    ensures var t := Run(s, Receives(id, n));
            && t.shared == s.shared
            && id in t.clients
            && t.clients[id].phase.Finished?
            && ClientInv(t.shared, t.clients[id])
  {
    assert ClientInv(s.shared, s.clients[id]);
    DrainFinishes(s.shared, s.clients[id], n);
    DrainIsRun(s, id, n);
    RunKeeps(s, Receives(id, n));
  }

  /** In every run the broadcast is the stream in order, then at most one exit whose cursor is the
      sticky cursor, the ring's tail and the number of bytes appended. */
  lemma BroadcastShape(capacity: nat, events: seq<Event>)
    ensures var s := Run(Init(capacity), events).shared;
            && SharedInv(s)
            && End(s.frames, |s.frames|) == |s.stream| == s.ring.tail == s.cursorTail
            && (s.exit.None? ==> forall i | 0 <= i < |s.frames| :: s.frames[i].Output?)
            && (s.exit.Some? ==>
                  && s.frames != []
                  && s.frames[|s.frames| - 1] == Exited(s.exit.value)
                  && s.exit.value.cursor == s.ring.tail
                  && forall i | 0 <= i < |s.frames| - 1 :: s.frames[i].Output?)
  {
    InitInv(capacity);
    RunKeeps(Init(capacity), events);
  }

  /** Once an exit is published, no later event changes ring, stream, frames or exit: not a second
      seal by the completion guard, and not a reader that keeps reading. */
  lemma {:induction false} ExitIsFinal(s: State, events: seq<Event>)
    requires Inv(s) && s.shared.exit.Some?
    ensures Run(s, events).shared == s.shared
    decreases |events|
  {
    if events != [] {
      StepKeeps(s, events[0]);
      ExitIsFinal(Step(s, events[0]), events[1..]);
    }
  }

  // ---------------------------------------------------------------------------
  // The entry object: each method is one critical section under the ring lock.

  class ProcEntry {
    const byteRing: ByteRing
    var cursorHead: nat
    var cursorTail: nat
    var exit: Option<Exit>
    var frames: seq<Frame>  // what the broadcast channel was given

    ghost function Value(): Shared
      reads this, byteRing
    {
      Shared(byteRing.Value(), byteRing.stream, frames, exit, cursorHead, cursorTail)
    }

    ghost predicate Valid()
      reads this, byteRing
    {
      SharedInv(Value())
    }

    constructor (capacity: nat)
      ensures Valid() && fresh(byteRing) && Value() == Init(capacity).shared
    {
      byteRing := new ByteRing(capacity);
      cursorHead, cursorTail, exit, frames := 0, 0, None, [];
    }

    /** The reader's `Ok(n)` arm; a chunk read after the seal is dropped. */
    method AppendAndBroadcast(chunk: Bytes)
      requires Valid() && chunk != []
      modifies this, byteRing
      ensures Valid()
      ensures Value() == ReadChunk(old(Value()), chunk)
    {
      ReadKeeps(Value(), chunk);
      if byteRing.sealed {
        return;
      }
      var start, tail := byteRing.AppendChunk(chunk);
      cursorHead, cursorTail := byteRing.cursorHead, tail;
      frames := frames + [Output(start, chunk)];
    }

    /** Seals, stamps the sticky exit if absent and broadcasts it; a second call changes nothing. */
    method SealAndPublishExit(status: Option<int>, signalled: bool) returns (published: Exit)
      requires Valid()
      modifies this, byteRing
      ensures Valid()
      ensures Value() == SealAndPublish(old(Value()), status, signalled)
      ensures exit == Some(published)
      ensures old(exit).Some? ==> Value() == old(Value())
    {
      SealKeeps(Value(), status, signalled);
      var cursor := byteRing.SealRing();
      cursorTail := cursor;
      if exit.Some? {
        return exit.value;
      }
      published := Exit(status, signalled, cursor);
      exit := Some(published);
      frames := frames + [Exited(published)];
    }

    /** The attach handler's critical section. */
    method AttachSnapshot(c: Client) returns (d: Client)
      requires Valid()
      ensures d == TakeSnapshot(Value(), c)
      ensures d.base <= |byteRing.stream| && d.out[0].replay == byteRing.stream[d.base..]
    {
      SnapshotReplay(Value(), c);
      var head, tail := byteRing.cursorHead, byteRing.cursorTail;
      var requested := Requested(c, head);
      var slice := byteRing.SliceOf(requested);
      var replay, notice := [], [];
      match slice {
        case Replay(_, _, bytes) => replay := bytes;
        case Gap(earliest, _) =>
          notice := [GapNotice(earliest, requested)];
          var whole := byteRing.SliceOf(earliest);
          if whole.Replay? {
            replay := whole.bytes;
          }
      }
      d := c.(phase := Snapshotted, base := Clip(requested, head, tail), snapshotTail := tail,
              out := [AttachOk(exit.None?, head, tail, replay)] + notice);
    }
  }
}
