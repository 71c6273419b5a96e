/**
 Runs in which the issuer repeats a POST, and the exact clock condition for its absence. The command's context
 follows the monotonic clock and the wall clock is not looked at again after the admission check, so a wall clock
 that catches up by a nanosecond, or a machine that sleeps, lets a repeat through.
 */
module LateRepeats {
  import opened Common
  import opened Ledger
  import opened Issuer
  import opened Admission

  // ---------------------------------------------------------------------------
  // Reaching states by runs whose wall clock never steps back.

  ghost predicate Reached(s: State) {
    exists es :: Forward(Start("boot", 0), es) && Run(Start("boot", 0), es) == s
  }

  lemma Witness(s: State) returns (es: seq<Event>)
    requires Reached(s)
    ensures Forward(Start("boot", 0), es) && Run(Start("boot", 0), es) == s
  {
    es :| Forward(Start("boot", 0), es) && Run(Start("boot", 0), es) == s;
  }

  lemma Extends(s: State, es: seq<Event>, e: Event)
    requires Forward(s, es) && (e.SetWall? ==> e.instant >= Run(s, es).wall)
    ensures Forward(s, es + [e]) && Run(s, es + [e]) == Step(Run(s, es), e)
  {
    assert (es + [e])[..|es|] == es;
  }

  lemma Reach(s: State, e: Event, s': State)
    requires Reached(s) && Step(s, e) == s' && (e.SetWall? ==> e.instant >= s.wall)
    ensures Reached(s')
  {
    var es := Witness(s);
    Extends(Start("boot", 0), es, e);
    assert Run(Start("boot", 0), es + [e]) == s';
  }

  // ---------------------------------------------------------------------------
  // Single steps, from any state.

  predicate Alive(s: State) {
    s.up && Rebooted(s)
  }

  function Keep(s: State, l: CleanupLedger, op: Op): State {
    s.(mem := l, disk := Disk(l, {l}), op := op)
  }

  lemma Received(s: State, req: Request)
    requires Alive(s) && SafeId(req.cmd.id) && UnixMilli(s.wall) < req.cmd.deadline <= UnixMilli(s.wall) + 10000
    requires req.due == s.mono + (req.cmd.deadline * MILLI - s.wall)
    ensures Step(s, Receive(req.cmd)) == s.(pending := s.pending + {req}, received := s.received + {req.cmd})
  {
    assert Step(s, Receive(req.cmd)) == CreateStep(s, Receive(req.cmd));
  }

  lemma Begun(s: State, req: Request, binding: string)
    requires Alive(s) && s.op.Idle? && req in s.pending && |binding| == 64 && CanAdmit(s, req)
    ensures Step(s, Begin(req, binding)) == s.(pending := s.pending - {req}, op := Admitted(req, binding))
  {
    assert Step(s, Begin(req, binding)) == CreateStep(s, Begin(req, binding));
  }

  lemma FenceIsSaved(s: State, req: Request, binding: string, f: Fence)
    requires Alive(s) && !s.broken && s.op == Admitted(req, binding)
    requires FenceAttempt(s.mem.fences, req.cmd.id, false, Now(s)) == Attempt([f], true)
    ensures Step(s, FenceCreate(Saved)) == Keep(s, s.mem.(fences := [f]), Fenced(req, binding))
  {
    assert Step(s, FenceCreate(Saved)) == CreateStep(s, FenceCreate(Saved));
  }

  lemma UnknownIsSaved(s: State, req: Request, binding: string, l: CleanupLedger)
    requires Alive(s) && !s.broken && s.op == Fenced(req, binding)
    requires l.fences == s.mem.fences && l.records == s.mem.records + [Tried(req.cmd, binding, s.world.attempts)]
    ensures Step(s, WriteUnknown(Saved))
         == Keep(s.(world := s.world.(attempts := s.world.attempts + 1)), l, Recorded(req, binding, s.world.attempts))
  {
    assert Step(s, WriteUnknown(Saved)) == CreateStep(s, WriteUnknown(Saved));
  }

  lemma PostIsSent(s: State, req: Request, binding: string, n: nat)
    requires Alive(s) && s.op == Recorded(req, binding, n) && s.mono < req.due
    ensures var p := Post(req.cmd, binding, s.wall, req.cmd in s.spent, Lead(s) - ReceiptLead(req));
            Step(s, SendPost) == s.(world := s.world.(posts := s.world.posts[n := p]),
                                    spent := s.spent + {req.cmd}, op := Posted(req, binding, n))
  {
    assert Step(s, SendPost) == CreateStep(s, SendPost);
  }

  lemma ResponseIsNoted(s: State, req: Request, binding: string, n: nat, id: string)
    requires Alive(s) && !s.broken && s.op == Posted(req, binding, n) && |s.mem.records| == 1
    requires n in s.world.keys && s.world.keys[n].id == id && SafeId(id)
    ensures Step(s, Respond(id, Stamp("", None), Saved, false))
         == Keep(s, s.mem.(records := [s.mem.records[0].(keyId := id, state := Cleanup, expires := Stamp("", None))]),
                 Noted(req, binding, n))
  {
    var e, r := Respond(id, Stamp("", None), Saved, false), s.mem.records[0];
    assert Step(s, e) == ResponseStep(s, e);
    var r' := Noting(r, id, Stamp("", None));
    assert s.mem.records[0 := r'] == [r'];
    assert WithLast(s.mem, r') == s.mem.(records := [r']);
  }

  lemma KeyIsRefused(s: State, req: Request, binding: string, n: nat)
    requires Alive(s) && !s.broken && s.op == Noted(req, binding, n) && |s.mem.records| == 1
    requires SafeId(s.mem.records[0].keyId)
    ensures Step(s, Reject(Saved))
         == Keep(s.(world := Deleted(s.world, s.mem.records[0].keyId, binding)), s.mem.(records := []), Idle)
  {
    assert Step(s, Reject(Saved)) == ResponseStep(s, Reject(Saved));
    assert s.mem.records[..0] == [];
  }

  lemma CancelIsSaved(s: State, id: string, f: Fence, cancelled: set<Command>)
    requires Alive(s) && !s.broken && s.op.Idle? && SafeId(id)
    requires FenceAttempt(s.mem.fences, id, true, Now(s)) == Attempt([f], true)
    requires forall c :: c in cancelled <==> c in s.received && c.id == id
    ensures Step(s, Cancel(id, Saved))
         == Keep(s.(spent := s.spent + cancelled), s.mem.(fences := [f]), Marking(id, false))
  {
    assert Step(s, Cancel(id, Saved)) == CleanStep(s, Cancel(id, Saved));
    assert (set c | c in s.received && c.id == id) == cancelled;
  }

  lemma NothingIsMarked(s: State, id: string)
    requires Alive(s) && !s.broken && s.op == Marking(id, false) && s.mem.records == []
    ensures Step(s, Mark(Saved, [])) == Keep(s, s.mem, Marked)
    ensures Step(Keep(s, s.mem, Marked), GiveUp) == Keep(s, s.mem, Idle)
  {
    assert Step(s, Mark(Saved, [])) == CleanStep(s, Mark(Saved, []));
    assert MarkAll([], id, false, []) == s.mem.records;
  }

  lemma FirstFence(id: string, cancel: bool, now: Reading)
    ensures FenceAttempt([], id, cancel, now) == Attempt([NewFence(id, now)], true)
  {
    assert Pruned([], now) == [];
    assert [] + [NewFence(id, now)] == [NewFence(id, now)];
  }

  lemma NextFence(f: Fence, id: string, now: Reading)
    requires FenceOver(FenceRebased(f, now), now)
    ensures FenceAttempt([f], id, false, now) == Attempt([NewFence(id, now)], true)
  {
    assert [f][..0] == [] && Pruned([], now) == [];
    assert Pruned([f], now) == [] + [];
    assert [] + [NewFence(id, now)] == [NewFence(id, now)];
  }

  function Tried(cmd: Command, binding: string, n: nat): Record {
    Record(cmd.id, binding, "", Stamp("", None), Unknown, cmd.deadline, None, n)
  }

  // ---------------------------------------------------------------------------
  // The command of the runs.

  const CMD := Command("id", 10000)
  const FENCE := Fence("id", 10000, "boot", 0)
  const EARLY := Request(CMD, 10 * SECOND)
  const LATE := Request(CMD, 10 * SECOND + 1)
  const BOOTS := map["boot" := 0]

  /** The issuer on its first boot with this ledger saved; the boot clock may be ahead of the monotonic one. */
  function Booted(w: World, wall: int, mono: nat, op: Op, pending: set<Request>, l: CleanupLedger, spent: set<Command>)
    : State
  {
    State(w, wall, mono, "boot", Disk(l, {l}), true, l, false, op, pending, {CMD}, spent)
  }

  function Fences(fences: seq<Fence>): CleanupLedger {
    CleanupLedger([], fences)
  }

  /** Nothing has been POSTed yet. */
  function Untried(time: nat): World {
    World(time, BOOTS, 0, map[], map[])
  }

  /** The issuer at the start, with the command received. */
  function AtStart(op: Op, pending: set<Request>, l: CleanupLedger, spent: set<Command>): State {
    Booted(Untried(0), 0, 0, op, pending, l, spent)
  }

  lemma CommandArrives()
    ensures Reached(AtStart(Idle, {EARLY}, EMPTY, {}))
  {
    var s := Start("boot", 0);
    assert Run(s, []) == s && Forward(s, []);
    assert DemoteAll([]) == [];
    Reach(s, Restart(Saved), s.(up := true));
    assert SafeId("id");
    Received(s.(up := true), EARLY);
    assert {} + {EARLY} == {EARLY} && {} + {CMD} == {CMD};
    Reach(s.(up := true), Receive(CMD), AtStart(Idle, {EARLY}, EMPTY, {}));
  }

  // ---------------------------------------------------------------------------
  // One prefix: the command is cancelled.

  lemma CommandIsCancelled()
    ensures Reached(AtStart(Idle, {EARLY}, Fences([FENCE]), {CMD}))
  {
    CommandArrives();
    var s, s1 := AtStart(Idle, {EARLY}, EMPTY, {}), AtStart(Marking("id", false), {EARLY}, Fences([FENCE]), {CMD});
    assert SafeId("id");
    FirstFence("id", true, Now(s));
    CancelIsSaved(s, "id", FENCE, {CMD});
    assert {} + {CMD} == {CMD};
    Reach(s, Cancel("id", Saved), s1);
    NothingIsMarked(s1, "id");
    Reach(s1, Mark(Saved, []), s1.(op := Marked));
    Reach(s1.(op := Marked), GiveUp, s1.(op := Idle));
  }

  // ---------------------------------------------------------------------------
  // The other prefix: it is POSTed, and its key rejected and deleted.

  /** One POST has been sent. */
  function Once(binding: string, keys: map<nat, Key>): World {
    World(0, BOOTS, 1, map[0 := Post(CMD, binding, 0, false, 0)], keys)
  }

  const MINTED := map[0 := Key("key", 0, SECOND, false, None, None)]
  const DELETED := map[0 := Key("key", 0, SECOND, true, None, None)]

  lemma CommandIsFenced(binding: string)
    requires |binding| == 64
    ensures Reached(AtStart(Fenced(EARLY, binding), {}, Fences([FENCE]), {}))
  {
    CommandArrives();
    var s, s1 := AtStart(Idle, {EARLY}, EMPTY, {}), AtStart(Admitted(EARLY, binding), {}, EMPTY, {});
    Begun(s, EARLY, binding);
    assert {EARLY} - {EARLY} == {};
    Reach(s, Begin(EARLY, binding), s1);
    FirstFence("id", false, Now(s1));
    FenceIsSaved(s1, EARLY, binding, FENCE);
    Reach(s1, FenceCreate(Saved), AtStart(Fenced(EARLY, binding), {}, Fences([FENCE]), {}));
  }

  lemma CommandIsPosted(binding: string)
    requires |binding| == 64
    ensures Reached(Booted(Once(binding, map[]), 0, 0, Posted(EARLY, binding, 0), {},
                           CleanupLedger([Tried(CMD, binding, 0)], [FENCE]), {CMD}))
  {
    CommandIsFenced(binding);
    var l := CleanupLedger([Tried(CMD, binding, 0)], [FENCE]);
    var s := AtStart(Fenced(EARLY, binding), {}, Fences([FENCE]), {});
    var s1 := Booted(Untried(0).(attempts := 1), 0, 0, Recorded(EARLY, binding, 0), {}, l, {});
    assert [] + [Tried(CMD, binding, 0)] == l.records;
    UnknownIsSaved(s, EARLY, binding, l);
    Reach(s, WriteUnknown(Saved), s1);
    PostIsSent(s1, EARLY, binding, 0);
    assert {} + {CMD} == {CMD};
    Reach(s1, SendPost, Booted(Once(binding, map[]), 0, 0, Posted(EARLY, binding, 0), {}, l, {CMD}));
  }

  /** The record once the response was noted. */
  function Answered(binding: string): CleanupLedger {
    CleanupLedger([Tried(CMD, binding, 0).(keyId := "key", state := Cleanup)], [FENCE])
  }

  lemma KeyIsNoted(binding: string)
    requires |binding| == 64
    ensures Reached(Booted(Once(binding, MINTED), 0, 0, Noted(EARLY, binding, 0), {}, Answered(binding), {CMD}))
  {
    CommandIsPosted(binding);
    var l := CleanupLedger([Tried(CMD, binding, 0)], [FENCE]);
    var s := Booted(Once(binding, map[]), 0, 0, Posted(EARLY, binding, 0), {}, l, {CMD});
    var s1 := s.(world := Once(binding, MINTED));
    Reach(s, CreateKey(0, "key", SECOND), s1);
    assert SafeId("key");
    ResponseIsNoted(s1, EARLY, binding, 0, "key");
    Reach(s1, Respond("key", Stamp("", None), Saved, false),
          Booted(Once(binding, MINTED), 0, 0, Noted(EARLY, binding, 0), {}, Answered(binding), {CMD}));
  }

  lemma KeyIsRejected(binding: string)
    requires |binding| == 64
    ensures Reached(Booted(Once(binding, DELETED), 0, 0, Idle, {}, Fences([FENCE]), {CMD}))
  {
    KeyIsNoted(binding);
    var s := Booted(Once(binding, MINTED), 0, 0, Noted(EARLY, binding, 0), {}, Answered(binding), {CMD});
    assert SafeId("key");
    KeyIsRefused(s, EARLY, binding, 0);
    assert Deleted(s.world, "key", binding).keys == DELETED;
    Reach(s, Reject(Saved), Booted(Once(binding, DELETED), 0, 0, Idle, {}, Fences([FENCE]), {CMD}));
  }

  // ---------------------------------------------------------------------------
  // The end of every run: the fence falls, and a create that was admitted goes on to its POST.

  predicate Ready(w: World, mono: nat, req: Request, binding: string) {
    |binding| == 64 && w.boots == BOOTS && w.attempts !in w.posts && req.cmd == CMD && mono < req.due
  }

  lemma FenceFalls(w: World, wall: int, mono: nat, req: Request, pending: set<Request>, binding: string)
    returns (f: Fence)
    requires Ready(w, mono, req, binding) && wall >= 10 * SECOND && w.time >= 10 * SECOND
    requires Reached(Booted(w, wall, mono, Admitted(req, binding), pending, Fences([FENCE]), {CMD}))
    ensures Reached(Booted(w, wall, mono, Fenced(req, binding), pending, Fences([f]), {CMD}))
  {
    var s := Booted(w, wall, mono, Admitted(req, binding), pending, Fences([FENCE]), {CMD});
    f := NewFence("id", Now(s));
    NextFence(FENCE, "id", Now(s));
    FenceIsSaved(s, req, binding, f);
    Reach(s, FenceCreate(Saved), Booted(w, wall, mono, Fenced(req, binding), pending, Fences([f]), {CMD}));
  }

  lemma UnknownIsWritten(w: World, wall: int, mono: nat, req: Request, pending: set<Request>, binding: string, f: Fence)
    requires Ready(w, mono, req, binding)
    requires Reached(Booted(w, wall, mono, Fenced(req, binding), pending, Fences([f]), {CMD}))
    ensures Reached(Booted(w.(attempts := w.attempts + 1), wall, mono, Recorded(req, binding, w.attempts), pending,
                           CleanupLedger([Tried(CMD, binding, w.attempts)], [f]), {CMD}))
  {
    var l := CleanupLedger([Tried(CMD, binding, w.attempts)], [f]);
    assert [] + [Tried(CMD, binding, w.attempts)] == l.records;
    var s := Booted(w, wall, mono, Fenced(req, binding), pending, Fences([f]), {CMD});
    UnknownIsSaved(s, req, binding, l);
    Reach(s, WriteUnknown(Saved),
          Booted(w.(attempts := w.attempts + 1), wall, mono, Recorded(req, binding, w.attempts), pending, l, {CMD}));
  }

  /** The POST that goes out then is a repeat. */
  lemma RepeatIsSent(w: World, wall: int, mono: nat, req: Request, pending: set<Request>, binding: string)
    returns (es: seq<Event>)
    requires Ready(w, mono, req, binding) && wall >= 10 * SECOND && w.time >= 10 * SECOND
    requires Reached(Booted(w, wall, mono, Admitted(req, binding), pending, Fences([FENCE]), {CMD}))
    ensures Forward(Start("boot", 0), es)
    ensures Run(Start("boot", 0), es).world.posts
         == w.posts[w.attempts := Post(CMD, binding, wall, true, (wall - mono) - ReceiptLead(req))]
    ensures Run(Start("boot", 0), es).wall == wall && Run(Start("boot", 0), es).world.time == w.time
  {
    var f := FenceFalls(w, wall, mono, req, pending, binding);
    UnknownIsWritten(w, wall, mono, req, pending, binding, f);
    var w' := w.(attempts := w.attempts + 1);
    var l := CleanupLedger([Tried(CMD, binding, w.attempts)], [f]);
    var p := Post(CMD, binding, wall, true, (wall - mono) - ReceiptLead(req));
    var s := Booted(w', wall, mono, Recorded(req, binding, w.attempts), pending, l, {CMD});
    var s' := Booted(w'.(posts := w.posts[w.attempts := p]), wall, mono, Posted(req, binding, w.attempts), pending, l,
                     {CMD});
    PostIsSent(s, req, binding, w.attempts);
    assert {CMD} + {CMD} == {CMD};
    Reach(s, SendPost, s');
    es := Witness(s');
  }

  // ---------------------------------------------------------------------------
  // The clock catches up: the command comes again while the wall clock lags by a nanosecond.

  lemma CommandReturns(w: World, pending: set<Request>)
    requires w.time == 0 && w.boots == BOOTS && LATE !in pending
    requires Reached(Booted(w, 0, 0, Idle, pending, Fences([FENCE]), {CMD}))
    ensures Reached(Booted(w.(time := 9 * SECOND), 9 * SECOND - 1, 9 * SECOND, Idle, pending + {LATE}, Fences([FENCE]),
                           {CMD}))
  {
    var s := Booted(w, 0, 0, Idle, pending, Fences([FENCE]), {CMD});
    var s1 := Booted(w.(time := 9 * SECOND), 0, 9 * SECOND, Idle, pending, Fences([FENCE]), {CMD});
    Reach(s, Tick(9 * SECOND), s1);
    var s2 := s1.(wall := 9 * SECOND - 1);
    Reach(s1, SetWall(9 * SECOND - 1), s2);
    assert SafeId("id");
    Received(s2, LATE);
    assert {CMD} + {CMD} == {CMD};
    Reach(s2, Receive(CMD), s2.(pending := pending + {LATE}));
  }

  lemma CommandIsAdmitted(w: World, pending: set<Request>, binding: string)
    requires |binding| == 64 && w.time == 0 && w.boots == BOOTS && LATE !in pending
    requires Reached(Booted(w, 0, 0, Idle, pending, Fences([FENCE]), {CMD}))
    ensures Reached(Booted(w.(time := 10 * SECOND), 10 * SECOND, 10 * SECOND, Admitted(LATE, binding), pending,
                           Fences([FENCE]), {CMD}))
  {
    CommandReturns(w, pending);
    var s := Booted(w.(time := 9 * SECOND), 9 * SECOND - 1, 9 * SECOND, Idle, pending + {LATE}, Fences([FENCE]), {CMD});
    assert pending + {LATE} - {LATE} == pending;
    var s1 := s.(pending := pending, op := Admitted(LATE, binding));
    Begun(s, LATE, binding);
    Reach(s, Begin(LATE, binding), s1);
    var s2 := s1.(world := w.(time := 10 * SECOND), mono := 10 * SECOND);
    Reach(s1, Tick(SECOND), s2);
    Reach(s2, SetWall(10 * SECOND), s2.(wall := 10 * SECOND));
  }

  /** A run with a wall clock that never steps back, and gains one nanosecond, in which a cancelled command is
      POSTed. */
  lemma PostedAfterCancel(binding: string) returns (es: seq<Event>)
    requires |binding| == 64
    ensures Forward(Start("boot", 0), es)
    ensures Run(Start("boot", 0), es).world.posts == map[0 := Post(CMD, binding, 10 * SECOND, true, 1)]
  {
    CommandIsCancelled();
    CommandIsAdmitted(Untried(0), {EARLY}, binding);
    assert ReceiptLead(LATE) == -1;
    es := RepeatIsSent(Untried(10 * SECOND), 10 * SECOND, 10 * SECOND, LATE, {EARLY}, binding);
  }

  /** One in which a command is POSTed twice. */
  lemma PostedTwice(binding: string) returns (es: seq<Event>)
    requires |binding| == 64
    ensures Forward(Start("boot", 0), es)
    ensures Run(Start("boot", 0), es).world.posts
         == map[0 := Post(CMD, binding, 0, false, 0), 1 := Post(CMD, binding, 10 * SECOND, true, 1)]
  {
    KeyIsRejected(binding);
    var w := Once(binding, DELETED);
    CommandIsAdmitted(w, {}, binding);
    assert ReceiptLead(LATE) == -1;
    es := RepeatIsSent(w.(time := 10 * SECOND), 10 * SECOND, 10 * SECOND, LATE, {}, binding);
  }

  // ---------------------------------------------------------------------------
  // The machine sleeps: the wall clock shows real time throughout.

  lemma MachineSleeps(s: State)
    requires Reached(s) && s.wall == 0
    ensures Reached(s.(world := s.world.(time := s.world.time + 20 * SECOND), wall := 20 * SECOND))
  {
    var s1 := s.(world := s.world.(time := s.world.time + 20 * SECOND));
    Reach(s, Sleep(20 * SECOND), s1);
    Reach(s1, SetWall(20 * SECOND), s1.(wall := 20 * SECOND));
  }

  /** A run in which a command is cancelled and POSTed after twenty seconds of sleep, with a wall clock that shows real
      time when the command is received, which is at the start, and when it is POSTed. */
  lemma PostedAfterSleep(binding: string) returns (es: seq<Event>)
    requires |binding| == 64
    ensures Forward(Start("boot", 0), es)
    ensures var s := Run(Start("boot", 0), es);
            && s.world.posts == map[0 := Post(CMD, binding, 20 * SECOND, true, 20 * SECOND)]
            && s.wall == s.world.time == 20 * SECOND && ReceiptLead(EARLY) == 0
  {
    CommandIsCancelled();
    var s := AtStart(Idle, {EARLY}, Fences([FENCE]), {CMD});
    var s1 := AtStart(Admitted(EARLY, binding), {}, Fences([FENCE]), {CMD});
    Begun(s, EARLY, binding);
    assert {EARLY} - {EARLY} == {};
    Reach(s, Begin(EARLY, binding), s1);
    MachineSleeps(s1);
    es := RepeatIsSent(Untried(20 * SECOND), 20 * SECOND, 0, EARLY, {}, binding);
  }

  // ---------------------------------------------------------------------------
  // The exact condition.

  /** Every run whose wall clock never steps back and whose POSTs gain at most `g`. */
  ghost predicate GainRun(bootId: string, wall: int, es: seq<Event>, g: int) {
    Forward(Start(bootId, wall), es) && Gains(Run(Start(bootId, wall), es).world.posts, g)
  }

  ghost predicate NeverRepeats(g: int) {
    forall bootId: string, wall: int, es: seq<Event> | GainRun(bootId, wall, es, g) ::
      NoRepeat(Run(Start(bootId, wall), es).world.posts)
  }

  ghost predicate AlwaysOnce(g: int) {
    forall bootId: string, wall: int, es: seq<Event> | GainRun(bootId, wall, es, g) ::
      Distinct(Run(Start(bootId, wall), es).world.posts)
  }

  /** The exact clock condition: no command is POSTed after it was POSTed or cancelled, and none is POSTed twice, in all
      runs with a gain of at most `g`, exactly when `g` is not positive. */
  lemma ClockCondition(g: int)
    ensures NeverRepeats(g) <==> g <= 0
    ensures AlwaysOnce(g) <==> g <= 0
  {
    if g <= 0 {
      forall bootId: string, wall: int, es: seq<Event> | GainRun(bootId, wall, es, g)
        ensures NoRepeat(Run(Start(bootId, wall), es).world.posts) && Distinct(Run(Start(bootId, wall), es).world.posts)
      {
        OnceInStep(bootId, wall, es);
      }
    } else {
      RepeatsHappen(g);
    }
  }

  lemma RepeatsHappen(g: int)
    requires g > 0
    ensures !NeverRepeats(g) && !AlwaysOnce(g)
  {
    var binding := seq(64, _ => 'a');
    var es := PostedAfterCancel(binding);
    assert GainRun("boot", 0, es, g);
    assert Run(Start("boot", 0), es).world.posts[0].repeat;
    var es' := PostedTwice(binding);
    assert GainRun("boot", 0, es', g);
    var posts := Run(Start("boot", 0), es').world.posts;
    assert posts[0].cmd == posts[1].cmd;
  }
}
