/**
 One POST per create command, across restarts, reboots and failed saves. With a wall clock that never steps
 back, a command that was POSTed or cancelled is never POSTed again before its deadline, and a repeat needs
 a wall clock that gained on the monotonic clock since the command was received.
 */
module Admission {
  import opened Common
  import opened Ledger
  import opened Issuer

  /** The ledger refuses the command, or it is too late for it. */
  predicate Guarded(fences: seq<Fence>, c: Command, now: int) {
    now >= c.deadline || exists i :: 0 <= i < |fences| && Guards(fences[i], c)
  }

  predicate Guards(f: Fence, c: Command) {
    f.enrollmentId == c.id && f.until >= c.deadline
  }

  predicate AllGuarded(fences: seq<Fence>, cs: set<Command>, now: int) {
    forall c | c in cs :: Guarded(fences, c, now)
  }

  // ---------------------------------------------------------------------------
  // What an attempt does to the guards.

  lemma AttemptGuards(fences: seq<Fence>, id: string, cancel: bool, now: Reading, c: Command)
    requires Guarded(fences, c, UnixMilli(now.wall)) && c.deadline <= UnixMilli(now.wall) + 10000
    ensures Guarded(FenceAttempt(fences, id, cancel, now).fences, c, UnixMilli(now.wall))
  {
    if UnixMilli(now.wall) < c.deadline {
      PrunedFacts(fences, now);
      var i :| 0 <= i < |fences| && Guards(fences[i], c);
      var up := Pruned(fences, now);
      assert FenceRebased(fences[i], now) in up;
      var j :| 0 <= j < |up| && up[j] == FenceRebased(fences[i], now);
      assert Guards(FenceAttempt(fences, id, cancel, now).fences[j], c);
    }
  }

  /** An attempt that is admitted puts up a fence for every command of its id received so far. */
  lemma AdmittedGuards(fences: seq<Fence>, id: string, cancel: bool, now: Reading, c: Command)
    requires FenceAttempt(fences, id, cancel, now).admitted && c.id == id
    requires c.deadline <= UnixMilli(now.wall) + 10000
    ensures Guarded(FenceAttempt(fences, id, cancel, now).fences, c, UnixMilli(now.wall))
  {
    var up := Pruned(fences, now);
    var k := FenceIndex(up, id);
    assert Guards(FenceAttempt(fences, id, cancel, now).fences[k], c);
  }

  /** A create attempt gets past a guard only when the command is too late. */
  lemma AdmittedIsLate(fences: seq<Fence>, now: Reading, c: Command)
    requires FenceAttempt(fences, c.id, false, now).admitted
    requires Guarded(fences, c, UnixMilli(now.wall))
    ensures UnixMilli(now.wall) >= c.deadline
  {
    AdmittedIff(fences, c.id, now);
  }

  lemma AllAttemptGuards(fences: seq<Fence>, id: string, cancel: bool, now: Reading, cs: set<Command>)
    requires AllGuarded(fences, cs, UnixMilli(now.wall))
    requires forall c | c in cs :: c.deadline <= UnixMilli(now.wall) + 10000
    ensures AllGuarded(FenceAttempt(fences, id, cancel, now).fences, cs, UnixMilli(now.wall))
  {
    forall c | c in cs
      ensures Guarded(FenceAttempt(fences, id, cancel, now).fences, c, UnixMilli(now.wall))
    {
      AttemptGuards(fences, id, cancel, now, c);
    }
  }

  // ---------------------------------------------------------------------------
  // The invariant.

  predicate Late(p: Post) {
    UnixMilli(p.wall) >= p.cmd.deadline
  }

  predicate PostsInv(posts: map<nat, Post>, spent: set<Command>) {
    && (forall n | n in posts :: posts[n].cmd in spent)
    && (forall n | n in posts :: posts[n].repeat ==> Late(posts[n]) && posts[n].gain > 0)
    && (forall m, n | m in posts && n in posts && m != n && posts[m].cmd == posts[n].cmd ::
          posts[m].repeat || posts[n].repeat)
  }

  /** The file, and whatever a power loss may leave, guards the commands. */
  predicate DiskGuarded(d: Disk, cs: set<Command>, now: int) {
    d.visible in d.survivors && forall l | l in d.survivors :: AllGuarded(l.fences, cs, now)
  }

  /** A create past its fence: the saved ledger guards the command, and it is not spent unless late. */
  predicate PastFence(s: State, c: Command) {
    && c in s.received
    && (c in s.spent ==> UnixMilli(s.wall) >= c.deadline)
    && Guarded(s.mem.fences, c, UnixMilli(s.wall))
    && s.disk == Disk(s.mem, {s.mem})
  }

  predicate OpInv(s: State) {
    match s.op
    case Admitted(req, _) => req.cmd in s.received
    case Fenced(req, _) => PastFence(s, req.cmd)
    case Recorded(req, _, n) => PastFence(s, req.cmd) && n !in s.world.posts && n < s.world.attempts
    case _ => true
  }

  predicate Inv(s: State) {
    && Rebooted(s)
    && (forall c | c in s.received :: c.deadline <= UnixMilli(s.wall) + 10000)
    && s.spent <= s.received
    && (forall req | req in s.pending :: req.cmd in s.received)
    && PostsInv(s.world.posts, s.spent)
    && (forall n | n in s.world.posts :: n < s.world.attempts)
    && DiskGuarded(s.disk, s.spent, UnixMilli(s.wall))
    && (s.up ==> AllGuarded(s.mem.fences, s.spent, UnixMilli(s.wall)) && OpInv(s))
  }

  // ---------------------------------------------------------------------------
  // Steps keep the invariant.

  lemma LaterGuards(fences: seq<Fence>, cs: set<Command>, now: int, now': int)
    requires AllGuarded(fences, cs, now) && now <= now'
    ensures AllGuarded(fences, cs, now')
  {
    forall c | c in cs
      ensures Guarded(fences, c, now')
    {
      assert Guarded(fences, c, now);
    }
  }

  lemma MachineKeeps(s: State, e: Event)
    requires Inv(s) && MachineEvent(e) && (e.SetWall? ==> e.instant >= s.wall)
    ensures Inv(MachineStep(s, e))
  {
    match e
    case SetWall(w) =>
      forall l | l in s.disk.survivors
        ensures AllGuarded(l.fences, s.spent, UnixMilli(w))
      {
        LaterGuards(l.fences, s.spent, UnixMilli(s.wall), UnixMilli(w));
      }
      LaterGuards(s.mem.fences, if s.up then s.spent else {}, UnixMilli(s.wall), UnixMilli(w));
    case _ =>
  }

  lemma FenceCreateKeeps(s: State, out: SaveResult)
    requires Inv(s) && s.up && s.op.Admitted?
    ensures Inv(CreateStep(s, FenceCreate(out)))
  {
    var c, now := s.op.req.cmd, Now(s);
    var a := FenceAttempt(s.mem.fences, c.id, false, now);
    AllAttemptGuards(s.mem.fences, c.id, false, now, s.spent);
    if a.admitted {
      AdmittedGuards(s.mem.fences, c.id, false, now, c);
      if c in s.spent {
        AdmittedIsLate(s.mem.fences, now, c);
      }
    }
  }

  lemma SendPostKeeps(s: State)
    requires Inv(s) && s.up && s.op.Recorded?
    ensures Inv(CreateStep(s, SendPost))
  {
    assert PastFence(s, s.op.req.cmd);
    if s.mono < s.op.req.due {
      var c := s.op.req.cmd;
      var p := Post(c, s.op.binding, s.wall, c in s.spent, Lead(s) - ReceiptLead(s.op.req));
      PostsGrow(s.world.posts, s.spent, s.op.n, p);
    }
  }

  lemma PostsGrow(posts: map<nat, Post>, spent: set<Command>, n: nat, p: Post)
    requires PostsInv(posts, spent) && n !in posts && p.repeat == (p.cmd in spent)
    requires p.repeat ==> Late(p) && p.gain > 0
    ensures PostsInv(posts[n := p], spent + {p.cmd})
  {
  }

  lemma CreateKeeps(s: State, e: Event)
    requires Inv(s) && CreateEvent(e) && s.up
    ensures Inv(CreateStep(s, e))
  {
    match e
    case FenceCreate(out) =>
      if s.op.Admitted? {
        FenceCreateKeeps(s, out);
      }
    case SendPost =>
      if s.op.Recorded? {
        SendPostKeeps(s);
      }
    case _ =>
  }

  predicate DiskFrom(d: Disk, d': Disk, fences: seq<Fence>) {
    && (d.visible in d.survivors ==> d'.visible in d'.survivors)
    && forall l | l in d'.survivors :: l in d.survivors || l.fences == fences
  }

  /** A step that leaves the fences, the clock and the commands alone. */
  predicate Quiet(s: State, s': State) {
    && Rebooted(s') && s'.wall == s.wall
    && s'.received == s.received && s'.spent == s.spent && s'.pending == s.pending
    && s'.world.posts == s.world.posts && s'.world.attempts == s.world.attempts
    && s'.up == s.up && s'.mem.fences == s.mem.fences
    && DiskFrom(s.disk, s'.disk, s.mem.fences)
    && ((s'.op == s.op && s'.disk == s.disk && s'.mem == s.mem)
        || !(s'.op.Admitted? || s'.op.Fenced? || s'.op.Recorded?))
  }

  lemma QuietKeeps(s: State, s': State)
    requires Inv(s) && s.up && Quiet(s, s')
    ensures Inv(s')
  {
  }

  lemma ResponseKeeps(s: State, e: Event)
    requires Inv(s) && ResponseEvent(e) && s.up && s.mem.records != []
    ensures Inv(ResponseStep(s, e))
  {
    ResponseQuiet(s, e);
    QuietKeeps(s, ResponseStep(s, e));
  }

  lemma CommitQuiet(s: State, w: World, l: CleanupLedger, out: SaveResult, next: Op)
    requires Rebooted(s) && l.fences == s.mem.fences
    requires w.time == s.world.time && w.boots == s.world.boots
    requires w.posts == s.world.posts && w.attempts == s.world.attempts
    requires !(next.Admitted? || next.Fenced? || next.Recorded?)
    ensures Quiet(s, Commit(s.(world := w), l, out, next))
  {
  }

  lemma ResponseQuiet(s: State, e: Event)
    requires Rebooted(s) && ResponseEvent(e) && s.up && s.mem.records != []
    ensures Quiet(s, ResponseStep(s, e))
  {
    match e
    case Respond(id, expires, out, _) => RespondQuiet(s, e);
    case Activate(clock, out, deleted) =>
      if s.op.Validated? {
        var s' := ResponseStep(s, e);
        CommitQuiet(s, s'.world, s'.mem, out, Idle);
      }
    case _ =>
  }

  lemma RespondQuiet(s: State, e: Event)
    requires Rebooted(s) && e.Respond? && s.up && s.mem.records != []
    ensures Quiet(s, ResponseStep(s, e))
  {
  }

  lemma CleanQuiet(s: State, e: Event)
    requires Rebooted(s) && s.up && !e.Cancel?
    ensures Quiet(s, CleanStep(s, e))
  {
    match e
    case Mark(out, nows) => MarkQuiet(s, out, nows);
    case SweepOne(deleted) => SweepQuiet(s, deleted);
    case _ =>
  }

  lemma MarkQuiet(s: State, out: SaveResult, nows: seq<int>)
    requires Rebooted(s) && s.up
    ensures Quiet(s, CleanStep(s, Mark(out, nows)))
  {
  }

  lemma SweepQuiet(s: State, deleted: bool)
    requires Rebooted(s) && s.up
    ensures Quiet(s, CleanStep(s, SweepOne(deleted)))
  {
  }

  lemma CancelKeeps(s: State, id: string, out: SaveResult)
    requires Inv(s) && s.up
    ensures Inv(CleanStep(s, Cancel(id, out)))
  {
    if s.op.Idle? && !s.broken && SafeId(id) {
      var now := Now(s);
      var a := FenceAttempt(s.mem.fences, id, true, now);
      AllAttemptGuards(s.mem.fences, id, true, now, s.spent);
      var cancelled := set c | c in s.received && c.id == id;
      if a.admitted {
        forall c | c in cancelled
          ensures Guarded(a.fences, c, UnixMilli(s.wall))
        {
          AdmittedGuards(s.mem.fences, id, true, now, c);
        }
      }
    }
  }

  lemma CleanKeeps(s: State, e: Event)
    requires Inv(s) && s.up
    ensures Inv(CleanStep(s, e))
  {
    if e.Cancel? {
      CancelKeeps(s, e.id, e.out);
    } else {
      CleanQuiet(s, e);
      QuietKeeps(s, CleanStep(s, e));
    }
  }

  lemma StepKeeps(s: State, e: Event)
    requires Inv(s) && (e.SetWall? ==> e.instant >= s.wall)
    ensures Inv(Step(s, e))
  {
    if MachineEvent(e) {
      MachineKeeps(s, e);
    } else if s.up {
      if CreateEvent(e) {
        CreateKeeps(s, e);
      } else if ResponseEvent(e) {
        if s.mem.records != [] {
          ResponseKeeps(s, e);
        }
      } else {
        CleanKeeps(s, e);
      }
    }
  }

  // ---------------------------------------------------------------------------
  // Whole runs.

  /** The wall clock never steps back. */
  predicate Forward(s: State, es: seq<Event>) {
    es == [] ||
    var e := es[|es| - 1];
    Forward(s, es[..|es| - 1]) && (e.SetWall? ==> e.instant >= Run(s, es[..|es| - 1]).wall)
  }

  lemma {:induction false} RunKeeps(s: State, es: seq<Event>)
    requires Inv(s) && Forward(s, es)
    ensures Inv(Run(s, es))
    decreases |es|
  {
    if es != [] {
      RunKeeps(s, es[..|es| - 1]);
      StepKeeps(Run(s, es[..|es| - 1]), es[|es| - 1]);
    }
  }

  /** No two POSTs of one command are both sent before its deadline. */
  lemma OncePerCommand(bootId: string, wall: int, es: seq<Event>, m: nat, n: nat)
    requires Forward(Start(bootId, wall), es)
    ensures var posts := Run(Start(bootId, wall), es).world.posts;
            m in posts && n in posts && m != n && posts[m].cmd == posts[n].cmd ==> Late(posts[m]) || Late(posts[n])
  {
    RunKeeps(Start(bootId, wall), es);
  }

  lemma {:induction false} SpentMarks(s: State, es: seq<Event>)
    ensures s.spent <= Run(s, es).spent
    ensures forall n | n in Run(s, es).world.posts && n !in s.world.posts ::
              Run(s, es).world.posts[n].cmd in s.spent ==> Run(s, es).world.posts[n].repeat
    decreases |es|
  {
    if es != [] {
      SpentMarks(s, es[..|es| - 1]);
      var a, b := Run(s, es[..|es| - 1]), Run(s, es);
      StepMarks(a, es[|es| - 1]);
    }
  }

  lemma StepMarks(s: State, e: Event)
    ensures s.spent <= Step(s, e).spent
    ensures forall n | n in Step(s, e).world.posts ::
              || (n in s.world.posts && Step(s, e).world.posts[n] == s.world.posts[n])
              || Step(s, e).world.posts[n].repeat == (Step(s, e).world.posts[n].cmd in s.spent)
  {
    if CreateEvent(e) {
      if s.up && Rebooted(s) {
        CreateMarks(s, e);
      }
    } else {
      OtherSteps(s, e);
    }
  }

  /** Only the steps of a create take commands on or POST them. */
  lemma OtherSteps(s: State, e: Event)
    requires !CreateEvent(e)
    ensures Step(s, e).world.posts == s.world.posts && s.spent <= Step(s, e).spent
    ensures Step(s, e).pending <= s.pending
    ensures var op := Step(s, e).op; op == s.op || !(op.Admitted? || op.Fenced? || op.Recorded?)
  {
    if !MachineEvent(e) && s.up && Rebooted(s) {
      if ResponseEvent(e) {
        if s.mem.records != [] {
          ResponseQuiet(s, e);
        }
      } else if e.Cancel? {
        CancelTakesNone(s, e.id, e.out);
      } else {
        CleanQuiet(s, e);
      }
    }
  }

  lemma CancelTakesNone(s: State, id: string, out: SaveResult)
    requires s.up && Rebooted(s)
    ensures var s' := CleanStep(s, Cancel(id, out));
            && s'.world == s.world && s'.pending == s.pending && s.spent <= s'.spent
            && (s'.op == s.op || s'.op.Idle? || s'.op.Marking?)
  {
  }

  lemma CreateMarks(s: State, e: Event)
    requires s.up && Rebooted(s) && CreateEvent(e)
    ensures s.spent <= CreateStep(s, e).spent
    ensures forall n | n in CreateStep(s, e).world.posts ::
              || (n in s.world.posts && CreateStep(s, e).world.posts[n] == s.world.posts[n])
              || CreateStep(s, e).world.posts[n].repeat == (CreateStep(s, e).world.posts[n].cmd in s.spent)
  {
    if !e.SendPost? {
      assert CreateStep(s, e).world.posts == s.world.posts && CreateStep(s, e).spent == s.spent;
    }
  }

  /** A cancel that succeeds spends every command of its id received so far. */
  lemma CancelSpends(s: State, id: string, c: Command)
    requires s.op.Idle? && Step(s, Cancel(id, Saved)).op.Marking? && c in s.received && c.id == id
    ensures c in Step(s, Cancel(id, Saved)).spent
  {
  }

  /** A create received before a cancel that succeeded is not POSTed afterwards, unless it is too late. */
  lemma CancelSticks(bootId: string, wall: int, es: seq<Event>, id: string, es': seq<Event>, n: nat)
    requires Forward(Start(bootId, wall), es)
    requires Forward(Step(Run(Start(bootId, wall), es), Cancel(id, Saved)), es')
    ensures var s := Run(Start(bootId, wall), es);
            var s1 := Step(s, Cancel(id, Saved));
            var s2 := Run(s1, es');
            s.op.Idle? && s1.op.Marking? && n in s2.world.posts && n !in s1.world.posts
            && s2.world.posts[n].cmd in s.received && s2.world.posts[n].cmd.id == id ==>
              s2.world.posts[n].repeat && Late(s2.world.posts[n]) && s2.world.posts[n].gain > 0
  {
    var s := Run(Start(bootId, wall), es);
    RunKeeps(Start(bootId, wall), es);
    var s1 := Step(s, Cancel(id, Saved));
    StepKeeps(s, Cancel(id, Saved));
    RunKeeps(s1, es');
    SpentMarks(s1, es');
    var posts := Run(s1, es').world.posts;
    if s.op.Idle? && s1.op.Marking? && n in posts && posts[n].cmd in s.received && posts[n].cmd.id == id {
      CancelSpends(s, id, posts[n].cmd);
    }
  }

  /** A repeated POST means that the wall clock gained on the monotonic clock since the command was received. */
  lemma RepeatNeedsGain(bootId: string, wall: int, es: seq<Event>, n: nat)
    requires Forward(Start(bootId, wall), es)
    ensures var posts := Run(Start(bootId, wall), es).world.posts;
            n in posts && posts[n].repeat ==> Late(posts[n]) && posts[n].gain > 0
  {
    RunKeeps(Start(bootId, wall), es);
  }

  /** No POST came more than `g` later by the wall clock, after its receipt, than by the monotonic clock. */
  predicate Gains(posts: map<nat, Post>, g: int) {
    forall n | n in posts :: posts[n].gain <= g
  }

  predicate NoRepeat(posts: map<nat, Post>) {
    forall n | n in posts :: !posts[n].repeat
  }

  predicate Distinct(posts: map<nat, Post>) {
    forall m, n | m in posts && n in posts && m != n :: posts[m].cmd != posts[n].cmd
  }

  /** With a wall clock that never steps back and gains nothing between receipt and POST, a command that was POSTed
      or cancelled is not POSTed again, and each command is POSTed at most once. */
  lemma OnceInStep(bootId: string, wall: int, es: seq<Event>)
    requires Forward(Start(bootId, wall), es) && Gains(Run(Start(bootId, wall), es).world.posts, 0)
    ensures var posts := Run(Start(bootId, wall), es).world.posts; NoRepeat(posts) && Distinct(posts)
  {
    RunKeeps(Start(bootId, wall), es);
    NoGainNoRepeat(Run(Start(bootId, wall), es).world.posts, Run(Start(bootId, wall), es).spent);
  }

  lemma NoGainNoRepeat(posts: map<nat, Post>, spent: set<Command>)
    requires PostsInv(posts, spent) && Gains(posts, 0)
    ensures NoRepeat(posts) && Distinct(posts)
  {
  }

  /** Under the same clocks a create received before a cancel that succeeded is never POSTed afterwards. */
  lemma CancelIsFinal(bootId: string, wall: int, es: seq<Event>, id: string, es': seq<Event>, n: nat)
    requires Forward(Start(bootId, wall), es)
    requires var s1 := Step(Run(Start(bootId, wall), es), Cancel(id, Saved));
             Forward(s1, es') && Gains(Run(s1, es').world.posts, 0)
    ensures var s := Run(Start(bootId, wall), es);
            var s1 := Step(s, Cancel(id, Saved));
            var s2 := Run(s1, es');
            s.op.Idle? && s1.op.Marking? && n in s2.world.posts && n !in s1.world.posts ==>
              !(s2.world.posts[n].cmd in s.received && s2.world.posts[n].cmd.id == id)
  {
    CancelSticks(bootId, wall, es, id, es', n);
  }

  // ---------------------------------------------------------------------------
  // What the clocks of a run say about its gains: if no command is received with a smaller lead of the wall clock than
  // `d`, and no POST goes out with a larger one than `d + g`, no POST gains more than `g`.

  predicate InStep(s: State, es: seq<Event>, d: int, g: int) {
    es == [] ||
    var before, e := Run(s, es[..|es| - 1]), es[|es| - 1];
    && InStep(s, es[..|es| - 1], d, g)
    && (e.Receive? ==> Lead(before) >= d)
    && (e.SendPost? ==> Lead(before) <= d + g)
  }

  predicate GainInv(s: State, d: int, g: int) {
    && (forall req | req in s.pending :: ReceiptLead(req) >= d)
    && ((s.op.Admitted? || s.op.Fenced? || s.op.Recorded?) ==> ReceiptLead(s.op.req) >= d)
    && Gains(s.world.posts, g)
  }

  lemma CreateGains(s: State, e: Event, d: int, g: int)
    requires GainInv(s, d, g) && s.up && Rebooted(s) && CreateEvent(e)
    requires (e.Receive? ==> Lead(s) >= d) && (e.SendPost? ==> Lead(s) <= d + g)
    ensures GainInv(CreateStep(s, e), d, g)
  {
  }

  lemma StepGains(s: State, e: Event, d: int, g: int)
    requires GainInv(s, d, g)
    requires (e.Receive? ==> Lead(s) >= d) && (e.SendPost? ==> Lead(s) <= d + g)
    ensures GainInv(Step(s, e), d, g)
  {
    if CreateEvent(e) {
      if s.up && Rebooted(s) {
        CreateGains(s, e, d, g);
      }
    } else {
      OtherSteps(s, e);
    }
  }

  lemma {:induction false} RunGains(s: State, es: seq<Event>, d: int, g: int)
    requires GainInv(s, d, g) && InStep(s, es, d, g)
    ensures GainInv(Run(s, es), d, g)
    decreases |es|
  {
    if es != [] {
      RunGains(s, es[..|es| - 1], d, g);
      StepGains(Run(s, es[..|es| - 1]), es[|es| - 1], d, g);
    }
  }

  lemma StepBoundsGains(bootId: string, wall: int, es: seq<Event>, d: int, g: int)
    requires InStep(Start(bootId, wall), es, d, g)
    ensures Gains(Run(Start(bootId, wall), es).world.posts, g)
  {
    RunGains(Start(bootId, wall), es, d, g);
  }
}
