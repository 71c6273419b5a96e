/**
 Every ledger the issuer leaves on disk passes the checks of the next start, as long as the wall clock
 never reads a time before 1970.
 */
module Reopening {
  import opened Common
  import opened Ledger
  import opened Issuer

  /** The issuer can be started again from the file, and from whatever a power loss leaves. */
  predicate Reopens(s: State) {
    s.disk.visible in s.disk.survivors && forall l | l in s.disk.survivors :: LedgerValid(l)
  }

  predicate RequestValid(req: Request) {
    SafeId(req.cmd.id) && req.cmd.deadline > 0
  }

  predicate OpValid(s: State) {
    match s.op
    case Admitted(req, binding) => RequestValid(req) && |binding| == 64 && |s.mem.records| < MAX_RECORDS
    case Fenced(req, binding) => RequestValid(req) && |binding| == 64 && |s.mem.records| < MAX_RECORDS
    case Recorded(_, _, _) => s.mem.records != [] && Last(s.mem).state.Unknown?
    case Posted(_, _, _) => s.mem.records != [] && Last(s.mem).state.Unknown?
    case Validated(_, _, _, _, expires) =>
      expires >= 30 * SECOND && s.mem.records != [] && SafeId(Last(s.mem).keyId)
    case Sweeping(_, _, kept, todo) => RecordsValid(kept + todo)
    case _ => true
  }

  predicate Inv(s: State) {
    && Rebooted(s) && SafeId(s.bootId) && s.wall >= 0
    && Reopens(s)
    && (s.up ==> LedgerValid(s.mem) && OpValid(s))
    && forall req | req in s.pending :: RequestValid(req)
  }

  lemma CommitKeeps(s: State, l: CleanupLedger, out: SaveResult, next: Op)
    requires Inv(s) && LedgerValid(l)
    requires out.Saved? ==> OpValid(Commit(s, l, out, next))
    ensures Inv(Commit(s, l, out, next))
  {
  }

  lemma RefusedReopens(l: CleanupLedger, id: string, cancel: bool, now: Reading)
    requires LedgerValid(l) && SafeId(now.bootId) && now.bootNanos >= 0
    requires !FenceAttempt(l.fences, id, cancel, now).admitted
    ensures LedgerValid(l.(fences := FenceAttempt(l.fences, id, cancel, now).fences))
  {
    PrunedFacts(l.fences, now);
  }

  lemma FencedReopens(s: State, id: string, cancel: bool)
    requires Inv(s) && s.up && SafeId(id)
    ensures LedgerValid(s.mem.(fences := FenceAttempt(s.mem.fences, id, cancel, Now(s)).fences))
  {
    if FenceAttempt(s.mem.fences, id, cancel, Now(s)).admitted {
      FenceAttemptReopens(s.mem, id, cancel, Now(s));
    } else {
      RefusedReopens(s.mem, id, cancel, Now(s));
    }
  }

  lemma MachineKeeps(s: State, e: Event)
    requires Inv(s) && MachineEvent(e) && (e.SetWall? ==> e.instant >= 0)
    ensures Inv(MachineStep(s, e))
  {
    if e.Restart? && !s.up {
      assert LedgerValid(s.disk.visible.(records := DemoteAll(s.disk.visible.records)));
    }
  }

  lemma CreateKeeps(s: State, e: Event)
    requires Inv(s) && CreateEvent(e) && s.up
    ensures Inv(CreateStep(s, e))
  {
    match e
    case FenceCreate(out) =>
      if s.op.Admitted? {
        FencedReopens(s, s.op.req.cmd.id, false);
        var l := s.mem.(fences := FenceAttempt(s.mem.fences, s.op.req.cmd.id, false, Now(s)).fences);
        CommitKeeps(s, l, out, Fenced(s.op.req, s.op.binding));
      }
    case _ =>
  }

  lemma ResponseKeeps(s: State, e: Event)
    requires Inv(s) && ResponseEvent(e) && s.up && s.mem.records != []
    ensures Inv(ResponseStep(s, e))
  {
    assert RecordValid(s.mem.records[|s.mem.records| - 1]);
    match e
    case Respond(id, stamp, out, deleted) =>
      if s.op.Posted? {
        assert RecordValid(Noting(Last(s.mem), id, stamp));
      }
    case Activate(clock, out, deleted) =>
      if s.op.Validated? {
        assert RecordValid(Activated(s, Last(s.mem), s.op.created, s.op.expires, clock));
      }
    case _ =>
  }

  lemma HeadGone(kept: seq<Record>, todo: seq<Record>)
    requires todo != [] && RecordsValid(kept + todo)
    ensures RecordsValid(kept + todo[1..])
  {
    var rest := kept + todo[1..];
    forall i | 0 <= i < |rest|
      ensures RecordValid(rest[i])
    {
      assert rest[i] == (kept + todo)[if i < |kept| then i else i + 1];
    }
  }

  lemma HeadKept(kept: seq<Record>, todo: seq<Record>, r: Record)
    requires todo != [] && RecordsValid(kept + todo) && RecordValid(r)
    ensures RecordsValid((kept + [r]) + todo[1..])
  {
    assert (kept + [r]) + todo[1..] == (kept + todo)[|kept| := r];
  }

  lemma SweepKeeps(s: State, deleted: bool)
    requires Inv(s) && s.up && s.op.Sweeping? && s.op.todo != []
    ensures Inv(Swept(s, deleted))
  {
    match s.op
    case Sweeping(binding, reading, kept, todo) =>
      var r := todo[0];
      assert (kept + todo)[|kept|] == r && RecordValid(r);
      HeadGone(kept, todo);
      HeadKept(kept, todo, r);
      if reading.Some? {
        HeadKept(kept, todo, Rebased(r, reading.value));
      }
  }

  lemma CleanKeeps(s: State, e: Event)
    requires Inv(s) && s.up
    ensures Inv(CleanStep(s, e))
  {
    match e
    case Cancel(id, out) =>
      if s.op.Idle? && !s.broken && SafeId(id) {
        FencedReopens(s, id, true);
      }
    case Mark(out, nows) =>
      if s.op.Marking? && |nows| == |s.mem.records| {
        var l := s.mem.(records := MarkAll(s.mem.records, s.op.id, s.op.all, nows));
        assert LedgerValid(l);
        CommitKeeps(s, l, out, Marked);
      }
    case StartSweep(binding, clock) => assert [] + s.mem.records == s.mem.records;
    case SweepOne(deleted) =>
      if s.op.Sweeping? && s.op.todo != [] {
        SweepKeeps(s, deleted);
      }
    case FinishSweep(out) =>
      if s.op.Sweeping? && s.op.todo == [] {
        assert s.op.kept + s.op.todo == s.op.kept;
      }
    case _ =>
  }

  /** The wall clock is never set before `w`. */
  predicate NeverBefore(es: seq<Event>, w: int) {
    forall i | 0 <= i < |es| :: es[i].SetWall? ==> es[i].instant >= w
  }

  lemma {:induction false} RunKeeps(s: State, es: seq<Event>)
    requires Inv(s) && NeverBefore(es, 0)
    ensures Inv(Run(s, es))
    decreases |es|
  {
    if es != [] {
      var s', e := Run(s, es[..|es| - 1]), es[|es| - 1];
      RunKeeps(s, es[..|es| - 1]);
      if MachineEvent(e) {
        MachineKeeps(s', e);
      } else if s'.up {
        if CreateEvent(e) {
          CreateKeeps(s', e);
        } else if ResponseEvent(e) {
          if s'.mem.records != [] {
            ResponseKeeps(s', e);
          }
        } else {
          CleanKeeps(s', e);
        }
      }
    }
  }

  /** With a clock never before 1970 every ledger on disk reopens, so a restart succeeds. */
  lemma SavedLedgersReopen(bootId: string, wall: int, es: seq<Event>)
    requires SafeId(bootId) && wall >= 0 && NeverBefore(es, 0)
    ensures var s := Run(Start(bootId, wall), es); Reopens(s) && Step(Step(s, Crash), Restart(Saved)).up
  {
    RunKeeps(Start(bootId, wall), es);
  }

  // ---------------------------------------------------------------------------
  // Any earlier clock fails: a create command accepted before 1970 has a deadline that its own record may not have.

  function EarlyCommand(w: int): Command {
    Command("id", UnixMilli(w) + 1)
  }

  function EarlyRequest(w: int): Request {
    Request(EarlyCommand(w), EarlyCommand(w).deadline * MILLI - w)
  }

  function EarlyRun(w: int, binding: string): seq<Event> {
    [] + [Restart(Saved)] + [Receive(EarlyCommand(w))] + [Begin(EarlyRequest(w), binding)] + [FenceCreate(Saved)]
    + [WriteUnknown(Saved)]
  }

  lemma RunLast(s: State, es: seq<Event>, e: Event)
    ensures Run(s, es + [e]) == Step(Run(s, es), e)
  {
    assert (es + [e])[..|es|] == es;
  }

  /** The issuer at wall reading `w`, with no records. */
  function Early(w: int, op: Op, pending: set<Request>, fences: seq<Fence>): State {
    var l := CleanupLedger([], fences);
    State(Start("boot", w).world, w, 0, "boot", Disk(l, {l}), true, l, false, op, pending, {EarlyCommand(w)}, {})
  }

  lemma EarlyAdmitted(w: int, binding: string)
    requires |binding| == 64
    ensures Run(Start("boot", w),
                [] + [Restart(Saved)] + [Receive(EarlyCommand(w))] + [Begin(EarlyRequest(w), binding)])
         == Early(w, Admitted(EarlyRequest(w), binding), {}, [])
  {
    var s := Start("boot", w);
    assert SafeId("id");
    RunLast(s, [], Restart(Saved));
    RunLast(s, [] + [Restart(Saved)], Receive(EarlyCommand(w)));
    assert DemoteAll([]) == [];
    assert Run(s, [] + [Restart(Saved)] + [Receive(EarlyCommand(w))]) == Early(w, Idle, {EarlyRequest(w)}, []);
    RunLast(s, [] + [Restart(Saved)] + [Receive(EarlyCommand(w))], Begin(EarlyRequest(w), binding));
  }

  lemma EarlyFenced(w: int, binding: string)
    requires |binding| == 64
    ensures Run(Start("boot", w), EarlyRun(w, binding)).disk.visible.records != []
    ensures Run(Start("boot", w), EarlyRun(w, binding)).disk.visible.records[0].deadline == UnixMilli(w) + 1
  {
    var s := Start("boot", w);
    var es := [] + [Restart(Saved)] + [Receive(EarlyCommand(w))] + [Begin(EarlyRequest(w), binding)];
    EarlyAdmitted(w, binding);
    RunLast(s, es, FenceCreate(Saved));
    var now := Now(Early(w, Admitted(EarlyRequest(w), binding), {}, []));
    assert Pruned([], now) == [];
    assert Run(s, es + [FenceCreate(Saved)])
        == Early(w, Fenced(EarlyRequest(w), binding), {}, [] + [NewFence("id", now)]);
    RunLast(s, es + [FenceCreate(Saved)], WriteUnknown(Saved));
  }

  /** At any wall reading before 1970 there is a run that leaves a ledger the next start refuses. */
  lemma RefusedBefore1970(w: int, binding: string)
    requires w < 0 && |binding| == 64
    ensures var s := Run(Start("boot", w), EarlyRun(w, binding));
            NeverBefore(EarlyRun(w, binding), w) && !Reopens(s) && !Step(Step(s, Crash), Restart(Saved)).up
  {
    EarlyFenced(w, binding);
    assert !RecordValid(Run(Start("boot", w), EarlyRun(w, binding)).disk.visible.records[0]);
  }

  ghost predicate AllReopen(w: int) {
    forall bootId: string, wall: int, es: seq<Event> | SafeId(bootId) && wall >= w && NeverBefore(es, w) ::
      Reopens(Run(Start(bootId, wall), es))
  }

  /** The exact clock condition: all runs with a clock never before `w` leave ledgers that reopen exactly when `w`
      is not before 1970. */
  lemma ReopensExactly(w: int)
    ensures AllReopen(w) <==> w >= 0
  {
    if w < 0 {
      RefusedBefore1970(w, seq(64, _ => 'a'));
      assert SafeId("boot");
    } else {
      forall bootId: string, wall: int, es: seq<Event> | SafeId(bootId) && wall >= w && NeverBefore(es, w)
        ensures Reopens(Run(Start(bootId, wall), es))
      {
        SavedLedgersReopen(bootId, wall, es);
      }
    }
  }
}
