/**
 What every step of the phone's enrollment engine keeps, and what follows for whole runs: which contexts
 are live, who may commit, and what a reset fence keeps out.
 */
module EnrollmentSafety {
  import opened Common
  import opened Enrollment

  // ---------------------------------------------------------------------------
  // The invariant.

  /** A permit is reserved only once the one before it is revoked, and claimed once. */
  predicate DeskInv(d: Desk) {
    forall i | 0 <= i < |d.permits| ::
      d.permits[i].claims <= 1 && (!d.permits[i].cancelled ==> d.current == Some(i))
  }

  /** What a current enrollment knows about the registration record. */
  predicate KnowsRecord(pc: Pc, payload: Payload, claimed: bool, registration: Option<Payload>) {
    match pc
    case Read(attempted, same) => attempted == registration.Some? && same == (registration == Some(payload))
    case Cleared => registration == Some(payload) || (registration.None? && !claimed)
    case Registered => registration == Some(payload) && claimed
    case _ => true
  }

  /** What files and engine say to an operation of the current generation. */
  predicate FilesFit(op: Op, shared: Shared, files: Files) {
    && (!op.kind.Resetting? ==> !files.fence)
    && (op.kind.Resetting? && (op.pc.Started? || op.pc.LoggingOut? || op.pc.LoggedOut?) ==> files.fence)
    && (op.kind.Resetting? && (op.pc.LoggingOut? || op.pc.LoggedOut?) ==> shared.mutating.None?)
    && (op.kind.Enrolling? ==> KnowsRecord(op.pc, op.kind.payload, shared.claimed, files.registration))
  }

  /** The window between an enrollment's own cleanup and its cancel. */
  predicate InWindow(op: Op) {
    op.pc.Closing? && op.kind.Enrolling?
  }

  predicate Fits(op: Op, pid: nat, current: bool, shared: Shared, files: Files) {
    && (op.live ==> InWindow(op) || (current && shared.owner == Some(pid)))
    && (op.pc.Done? || (op.pc.Closing? && op.kind.Resetting?) ==> !op.live)
    && (current ==> FilesFit(op, shared, files))
  }

  predicate OpsInv(ops: map<nat, Op>, generation: nat, shared: Shared, files: Files) {
    && (forall p {:trigger ops[p]} | p in ops ::
          ops[p].gen <= generation && Fits(ops[p], p, ops[p].gen == generation, shared, files))
    && (forall p, q | p in ops && q in ops && p != q :: ops[p].gen != ops[q].gen)
  }

  predicate Kept(shared: Shared, files: Files, history: History) {
    && (history.lastAuth.Some? ==> files.registration == history.lastAuth)
    && (shared.tunnel.Some? ==> !files.fence && shared.tunnel.value.origin in files.targets)
  }

  predicate Inv(s: State) {
    && DeskInv(s.desk)
    && OpsInv(s.ops, s.generation, s.shared, s.files)
    && Kept(s.shared, s.files, s.history)
  }

  // ---------------------------------------------------------------------------
  // An operation's own steps.

  predicate ViewFits(op: Op, pid: nat, v: View) {
    Fits(op, pid, v.current, v.shared, v.files) && (v.live ==> op.live) && Kept(v.shared, v.files, v.history)
  }

  /** Only a current operation changes what current operations rely on. */
  predicate Modest(op: Op, pid: nat, v: View, m: Move) {
    && m.op.gen == op.gen && m.op.kind == op.kind
    && (!v.current ==>
          && m.files == v.files && m.shared.owner == v.shared.owner
          && m.shared.claimed == v.shared.claimed && m.shared.tunnel == v.shared.tunnel
          && (m.shared.mutating == v.shared.mutating || m.shared.mutating.None?))
  }

  predicate MoveFits(op: Op, pid: nat, v: View, m: Move) {
    && Fits(m.op, pid, v.current, m.shared, m.files)
    && Kept(m.shared, m.files, m.history)
    && Modest(op, pid, v, m)
  }

  lemma EnrollFits(op: Op, pid: nat, e: Event, v: View)
    requires op.kind.Enrolling? && ViewFits(op, pid, v)
    ensures MoveFits(op, pid, v, EnrollMove(op, pid, e, v))
  {
    if e.EnrollCommit? && op.pc.Targeting? {
      CommitFits(op, pid, v, e.cleared, e.saved, e.handoff);
    } else if e.Register? || e.ClearRegistration? || e.Return? {
      FileFits(op, pid, e, v);
    } else if e.CheckContext? || e.StartAuth? {
      LockFits(op, pid, e, v);
    } else {
      PlainFits(op, pid, e, v);
    }
  }

  lemma FileFits(op: Op, pid: nat, e: Event, v: View)
    requires op.kind.Enrolling? && ViewFits(op, pid, v) && (e.Register? || e.ClearRegistration? || e.Return?)
    ensures MoveFits(op, pid, v, EnrollMove(op, pid, e, v))
  {
  }

  lemma LockFits(op: Op, pid: nat, e: Event, v: View)
    requires op.kind.Enrolling? && ViewFits(op, pid, v) && (e.CheckContext? || e.StartAuth?)
    ensures MoveFits(op, pid, v, EnrollMove(op, pid, e, v))
  {
  }

  lemma PlainFits(op: Op, pid: nat, e: Event, v: View)
    requires op.kind.Enrolling? && ViewFits(op, pid, v)
    requires !(e.Register? || e.ClearRegistration? || e.Return? || e.CheckContext? || e.StartAuth?)
    requires e.EnrollCommit? ==> !op.pc.Targeting?
    ensures MoveFits(op, pid, v, EnrollMove(op, pid, e, v))
  {
  }

  lemma CommitFits(op: Op, pid: nat, v: View, cleared: FileResult, saved: FileResult, handoff: Handoff)
    requires op.kind.Enrolling? && op.pc.Targeting? && ViewFits(op, pid, v)
    ensures MoveFits(op, pid, v, EnrollCommits(op, pid, v, cleared, saved, handoff))
  {
  }

  lemma ResetFits(op: Op, pid: nat, e: Event, v: View)
    requires op.kind.Resetting? && ViewFits(op, pid, v)
    ensures MoveFits(op, pid, v, ResetMove(op, pid, e, v))
  {
  }

  lemma LegacyFits(op: Op, pid: nat, e: Event, v: View)
    requires op.kind.Confirming? && ViewFits(op, pid, v)
    ensures MoveFits(op, pid, v, LegacyMove(op, pid, e, v))
  {
  }

  lemma AnyFits(op: Op, pid: nat, e: Event, v: View)
    requires ViewFits(op, pid, v)
    ensures MoveFits(op, pid, v, AnyMove(op, pid, e, v))
  {
  }

  lemma OpFits(op: Op, pid: nat, e: Event, v: View)
    requires ViewFits(op, pid, v)
    ensures MoveFits(op, pid, v, OpMove(op, pid, e, v))
  {
    if AnyEvent(e) {
      AnyFits(op, pid, e, v);
    } else {
      match op.kind
      case Enrolling(_) => EnrollFits(op, pid, e, v);
      case Resetting => ResetFits(op, pid, e, v);
      case Confirming(_) => LegacyFits(op, pid, e, v);
    }
  }

  /** Everyone else still fits after a modest move. */
  lemma OthersFit(ops: map<nat, Op>, generation: nat, pid: nat, v: View, m: Move)
    requires OpsInv(ops, generation, v.shared, v.files) && pid in ops
    requires v.current == (ops[pid].gen == generation) && MoveFits(ops[pid], pid, v, m)
    ensures OpsInv(ops[pid := m.op], generation, m.shared, m.files)
  {
    forall q | q in ops && q != pid
      ensures Fits(ops[q], q, ops[q].gen == generation, m.shared, m.files)
    {
      assert Fits(ops[q], q, ops[q].gen == generation, v.shared, v.files);
    }
  }

  lemma LocalKeeps(s: State, e: Event, pid: nat)
    requires Inv(s) && pid in s.ops
    ensures Inv(LocalStep(s, e, pid))
  {
    var v := ViewOf(s, pid);
    assert Fits(s.ops[pid], pid, v.current, s.shared, s.files);
    OpFits(s.ops[pid], pid, e, v);
    OthersFit(s.ops, s.generation, pid, v, OpMove(s.ops[pid], pid, e, v));
  }

  // ---------------------------------------------------------------------------
  // Permits, cancellations and starts.

  lemma DeskKeeps(d: Desk, e: Event, generation: nat)
    requires DeskInv(d)
    ensures DeskInv(DeskStep(d, e, generation))
  {
  }

  /** Once the owner is cancelled, nobody needs to be the owner. */
  lemma SilencedFits(ops: map<nat, Op>, generation: nat, shared: Shared, files: Files, pending: bool)
    requires OpsInv(ops, generation, shared, files)
    ensures OpsInv(OwnerCancelled(ops, shared.owner), generation, shared.(owner := None, tunnel := None),
                   files.(pending := pending))
  {
    var ops' := OwnerCancelled(ops, shared.owner);
    forall p | p in ops'
      ensures ops'[p].gen <= generation
      ensures Fits(ops'[p], p, ops'[p].gen == generation, shared.(owner := None, tunnel := None),
                   files.(pending := pending))
    {
      assert Fits(ops[p], p, ops[p].gen == generation, shared, files);
    }
    assert forall p | p in ops' :: p in ops && ops'[p].gen == ops[p].gen;
  }

  /** In a new generation only the window's contexts are live, and no operation is current. */
  lemma NextFits(ops: map<nat, Op>, generation: nat, shared: Shared, files: Files, files': Files)
    requires OpsInv(ops, generation, shared, files) && shared.owner.None?
    ensures OpsInv(ops, generation + 1, shared, files')
    ensures forall p | p in ops :: ops[p].gen < generation + 1
  {
    forall p | p in ops
      ensures Fits(ops[p], p, false, shared, files')
    {
      assert Fits(ops[p], p, ops[p].gen == generation, shared, files);
    }
  }

  lemma NewFits(ops: map<nat, Op>, generation: nat, shared: Shared, files: Files, pid: nat, op: Op, shared': Shared)
    requires OpsInv(ops, generation, shared, files) && pid !in ops && op.gen == generation
    requires forall p | p in ops :: ops[p].gen < generation
    requires Fits(op, pid, true, shared', files)
    ensures OpsInv(ops[pid := op], generation, shared', files)
  {
    forall p | p in ops
      ensures Fits(ops[p], p, false, shared', files)
    {
      assert Fits(ops[p], p, ops[p].gen == generation, shared, files);
    }
  }

  lemma PermitKeeps(s: State, e: Event)
    requires Inv(s) && PermitEvent(e)
    ensures Inv(PermitStep(s, e))
  {
    DeskKeeps(s.desk, e, s.generation);
    if e.StopRevoked? {
      SilencedFits(s.ops, s.generation, s.shared, s.files, Removed(s.files.pending, e.out));
    }
  }

  /** What a start or a cancellation leaves before anybody owns the new generation. */
  lemma AdvanceKeeps(s: State, files: Files)
    requires Inv(s) && files.registration == s.files.registration
    ensures var n := NextGeneration(s);
            && OpsInv(n.ops, n.generation, n.shared, files)
            && (forall p | p in n.ops :: n.ops[p].gen < n.generation)
            && n.ops.Keys == s.ops.Keys
            && Kept(n.shared, files, n.history)
  {
    SilencedFits(s.ops, s.generation, s.shared, s.files, s.files.pending);
    var q := Silenced(s);
    assert s.files.(pending := s.files.pending) == s.files;
    NextFits(q.ops, q.generation, q.shared, s.files, files);
  }

  lemma EnrollStartKeeps(s: State, pid: nat, payload: Payload, out: FileResult)
    requires Inv(s)
    ensures Inv(StartStep(s, EnrollStart(pid, payload, out)))
  {
    if CanStart(s, pid) && !s.shared.resetting && !s.files.fence {
      var n, files := NextGeneration(s), s.files.(pending := s.files.pending || !out.NoEffect?);
      AdvanceKeeps(s, files);
      var op := Op(Enrolling(payload), n.generation, true, if out.Good? then Started else Closing);
      NewFits(n.ops, n.generation, n.shared, files, pid, op, n.shared.(owner := Some(pid)));
    }
  }

  lemma ResetStartKeeps(s: State, pid: nat, out: FileResult)
    requires Inv(s)
    ensures Inv(StartStep(s, ResetStart(pid, out)))
  {
    if CanStart(s, pid) && !s.shared.resetting {
      var n := NextGeneration(s);
      if out.Good? {
        var files := s.files.(fence := true);
        AdvanceKeeps(s, files);
        var op := Op(Resetting, n.generation, true, Started);
        NewFits(n.ops, n.generation, n.shared, files, pid, op, n.shared.(owner := Some(pid), resetting := true));
      } else {
        AdvanceKeeps(s, s.files.(fence := s.files.fence || out.Effect?));
      }
    }
  }

  lemma LegacyStartKeeps(s: State, pid: nat, origin: string)
    requires Inv(s)
    ensures Inv(StartStep(s, LegacyStart(pid, origin)))
  {
    if CanStart(s, pid) && !s.files.fence {
      var n := NextGeneration(s);
      AdvanceKeeps(s, s.files);
      var op := Op(Confirming(origin), n.generation, true, Started);
      NewFits(n.ops, n.generation, n.shared, s.files, pid, op, n.shared.(owner := Some(pid)));
    }
  }

  lemma BindKeeps(s: State, e: Event)
    requires Inv(s) && e.Bind?
    ensures Inv(StartStep(s, e))
  {
    var s' := StartStep(s, e);
    forall p | p in s.ops
      ensures Fits(s.ops[p], p, s.ops[p].gen == s.generation, s'.shared, s'.files)
    {
      assert Fits(s.ops[p], p, s.ops[p].gen == s.generation, s.shared, s.files);
    }
  }

  lemma StepKeeps(s: State, e: Event)
    requires Inv(s)
    ensures Inv(Step(s, e))
  {
    if PermitEvent(e) {
      PermitKeeps(s, e);
    } else if e.EnrollStart? {
      EnrollStartKeeps(s, e.pid, e.payload, e.out);
    } else if e.ResetStart? {
      ResetStartKeeps(s, e.pid, e.out);
    } else if e.LegacyStart? {
      LegacyStartKeeps(s, e.pid, e.origin);
    } else if e.Bind? {
      BindKeeps(s, e);
    } else if e.CancelAll? {
      AdvanceKeeps(s, s.files.(pending := Removed(s.files.pending, e.out)));
    } else if !e.Restart? && e.pid in s.ops {
      LocalKeeps(s, e, e.pid);
    }
  }

  lemma {:induction false} RunKeeps(es: seq<Event>)
    ensures Inv(Run(FRESH, es))
    decreases |es|
  {
    if es != [] {
      RunKeeps(es[..|es| - 1]);
      StepKeeps(Run(FRESH, es[..|es| - 1]), es[|es| - 1]);
    }
  }

  // ---------------------------------------------------------------------------
  // Contexts.

  /** In every run at most one context is live. */
  lemma OneLive(es: seq<Event>, p: nat, q: nat)
    ensures var s := Run(FRESH, es); ContextLive(s, p) && ContextLive(s, q) ==> p == q
  {
    RunKeeps(es);
  }

  /** A live context is the current generation's, except in the window. */
  lemma LiveIsCurrent(es: seq<Event>, pid: nat)
    ensures var s := Run(FRESH, es);
            ContextLive(s, pid) ==> s.ops[pid].gen == s.generation || InWindow(s.ops[pid])
  {
    RunKeeps(es);
    var s := Run(FRESH, es);
    if pid in s.ops {
      assert Fits(s.ops[pid], pid, s.ops[pid].gen == s.generation, s.shared, s.files);
    }
  }

  /** While a context is live no operation can start: only a cancellation past its revocation, or a restart,
      moves the generation. */
  lemma GenerationMoves(s: State, e: Event, pid: nat)
    requires DeskInv(s.desk) && ContextLive(s, pid)
    ensures Step(s, e).generation != s.generation ==> (e.CancelAll? && s.desk.cancels > 0) || e.Restart?
  {
    if e.EnrollStart? || e.ResetStart? || e.LegacyStart? {
      assert !CanStart(s, e.pid);
    }
  }

  lemma LiveHoldsGeneration(es: seq<Event>, pid: nat, e: Event)
    requires ContextLive(Run(FRESH, es), pid)
    ensures var s := Run(FRESH, es);
            Step(s, e).generation != s.generation ==> (e.CancelAll? && s.desk.cancels > 0) || e.Restart?
  {
    RunKeeps(es);
    GenerationMoves(Run(FRESH, es), e, pid);
  }

  /** An operation keeps its generation for as long as it is known. */
  lemma GenIsFixed(s: State, e: Event, pid: nat)
    requires pid in s.ops
    ensures pid in Step(s, e).ops ==> Step(s, e).ops[pid].gen == s.ops[pid].gen
  {
    if !PermitEvent(e) && !StartEvent(e) && !e.Restart? && e.pid in s.ops {
      MoveKeepsGen(s.ops[e.pid], e.pid, e, ViewOf(s, e.pid));
    }
  }

  lemma MoveKeepsGen(op: Op, pid: nat, e: Event, v: View)
    ensures OpMove(op, pid, e, v).op.gen == op.gen
  {
  }

  /** Exactly when a step strands a live context in an old generation: a cancellation past its revocation
      reaches the engine after the operation has handed back the engine's cancel function. */
  lemma StrandedExactly(es: seq<Event>, pid: nat, e: Event)
    requires var s := Run(FRESH, es); ContextLive(s, pid) && s.ops[pid].gen == s.generation
    ensures var s := Run(FRESH, es);
            var s' := Step(s, e);
            && (ContextLive(s', pid) && s'.ops[pid].gen != s'.generation <==>
                  e.CancelAll? && s.desk.cancels > 0 && s.shared.owner != Some(pid))
            && (s.shared.owner != Some(pid) ==> InWindow(s.ops[pid]))
  {
    RunKeeps(es);
    var s := Run(FRESH, es);
    assert Fits(s.ops[pid], pid, true, s.shared, s.files);
    if e.CancelAll? {
      CancelStrands(s, pid, e.out);
    } else {
      GenerationMoves(s, e, pid);
      GenIsFixed(s, e, pid);
    }
  }

  lemma CancelStrands(s: State, pid: nat, out: FileResult)
    requires ContextLive(s, pid) && s.ops[pid].gen == s.generation
    ensures var s' := Step(s, CancelAll(out));
            ContextLive(s', pid) && s'.ops[pid].gen != s'.generation <==>
              s.desk.cancels > 0 && s.shared.owner != Some(pid)
  {
  }

  lemma RunLast(s: State, es: seq<Event>, e: Event)
    ensures Run(s, es + [e]) == Step(Run(s, es), e)
  {
    assert (es + [e])[..|es|] == es;
  }

  function Scanned(payload: Payload): seq<Event> {
    [] + [RevokeNone] + [Reserve] + [Claim(0)] + [EnrollStart(0, payload, Good)]
  }

  /** A cancellation finds nothing to revoke and pauses; a scan is reserved, claimed and started. */
  lemma ScanStarts(payload: Payload)
    ensures var s := Run(FRESH, Scanned(payload));
            && s.ops == map[0 := Op(Enrolling(payload), 1, true, Started)] && s.generation == 1
            && s.shared.owner == Some(0)
            && s.desk == Desk([Permit(false, 1, Some(1))], Some(0), None, false, 1)
  {
    RunLast(FRESH, [], RevokeNone);
    RunLast(FRESH, [] + [RevokeNone], Reserve);
    RunLast(FRESH, [] + [RevokeNone] + [Reserve], Claim(0));
    assert Run(FRESH, [] + [RevokeNone] + [Reserve] + [Claim(0)])
        == FRESH.(desk := Desk([Permit(false, 1, None)], Some(0), None, false, 1));
    RunLast(FRESH, [] + [RevokeNone] + [Reserve] + [Claim(0)], EnrollStart(0, payload, Good));
  }

  lemma FailedScanReturns(s: State, payload: Payload)
    requires s.ops == map[0 := Op(Enrolling(payload), 1, true, Started)] && s.generation == 1
    requires s.shared.owner == Some(0) && s.desk == Desk([Permit(false, 1, Some(1))], Some(0), None, false, 1)
    ensures var s' := Step(Step(s, Fail(0)), Return(0, Good));
            && s'.ops == map[0 := Op(Enrolling(payload), 1, true, Closing)] && s'.generation == 1
            && s'.shared.owner == None && s'.desk == s.desk
  {
    var op := Op(Enrolling(payload), 1, true, Returning);
    assert s.ops[0 := op] == map[0 := op];
    assert Step(s, Fail(0)).ops == map[0 := op];
  }

  lemma ScanCleansUp(payload: Payload)
    ensures var s := Run(FRESH, Scanned(payload) + [Fail(0)] + [Return(0, Good)]);
            && s.ops == map[0 := Op(Enrolling(payload), 1, true, Closing)] && s.generation == 1
            && s.shared.owner == None
            && s.desk == Desk([Permit(false, 1, Some(1))], Some(0), None, false, 1)
  {
    ScanStarts(payload);
    RunLast(FRESH, Scanned(payload), Fail(0));
    RunLast(FRESH, Scanned(payload) + [Fail(0)], Return(0, Good));
    FailedScanReturns(Run(FRESH, Scanned(payload)), payload);
  }

  /** The window is real: the cancellation goes on once the scan has cleaned up, and leaves its context live
      into the next generation. */
  lemma WindowIsReal(payload: Payload)
    ensures var s := Run(FRESH, Scanned(payload) + [Fail(0)] + [Return(0, Good)] + [CancelAll(Good)]);
            ContextLive(s, 0) && s.ops[0].gen != s.generation
  {
    ScanCleansUp(payload);
    RunLast(FRESH, Scanned(payload) + [Fail(0)] + [Return(0, Good)], CancelAll(Good));
  }

  // ---------------------------------------------------------------------------
  // Permits and commits.

  lemma ClaimedOnce(es: seq<Event>, pid: nat)
    ensures pid < |Run(FRESH, es).desk.permits| ==> Run(FRESH, es).desk.permits[pid].claims <= 1
  {
    RunKeeps(es);
  }

  /** Only an operation with a live context commits, and only itself. */
  lemma MoveCommits(op: Op, pid: nat, e: Event, v: View)
    ensures var m := OpMove(op, pid, e, v);
            m.history.committed == v.history.committed
            || (m.history.committed == v.history.committed + {pid} && v.live && v.current)
  {
    if !AnyEvent(e) && op.kind.Enrolling? {
      ScanCommits(op, pid, e, v);
    }
  }

  lemma ScanCommits(op: Op, pid: nat, e: Event, v: View)
    requires op.kind.Enrolling?
    ensures var m := EnrollMove(op, pid, e, v);
            m.history.committed == v.history.committed
            || (m.history.committed == v.history.committed + {pid} && v.live && v.current)
  {
  }

  lemma StepRevoked(s: State, e: Event, pid: nat)
    requires pid < |s.desk.permits| && s.desk.permits[pid].cancelled
    ensures pid < |Step(s, e).desk.permits| && Step(s, e).desk.permits[pid].cancelled
    ensures pid in Step(s, e).history.committed <==> pid in s.history.committed
  {
    if !PermitEvent(e) && !StartEvent(e) && !e.Restart? && e.pid in s.ops {
      MoveCommits(s.ops[e.pid], e.pid, e, ViewOf(s, e.pid));
    }
  }

  lemma {:induction false} RevokedStays(s: State, es: seq<Event>, pid: nat)
    requires pid < |s.desk.permits| && s.desk.permits[pid].cancelled
    ensures var s' := Run(s, es);
            && pid < |s'.desk.permits| && s'.desk.permits[pid].cancelled
            && (pid in s'.history.committed <==> pid in s.history.committed)
    decreases |es|
  {
    if es != [] {
      RevokedStays(s, es[..|es| - 1], pid);
      StepRevoked(Run(s, es[..|es| - 1]), es[|es| - 1], pid);
    }
  }

  /** Nothing commits after its permit was revoked: not a scan, not a reset, not a legacy confirmation. */
  lemma NoCommitAfterRevoke(es: seq<Event>, es': seq<Event>, pid: nat)
    requires pid < |Run(FRESH, es).desk.permits| && Run(FRESH, es).desk.permits[pid].cancelled
    ensures pid in Run(Run(FRESH, es), es').history.committed <==> pid in Run(FRESH, es).history.committed
  {
    RevokedStays(Run(FRESH, es), es', pid);
  }

  // ---------------------------------------------------------------------------
  // The reset fence.

  /** A tunnel never coexists with a reset fence, and its workspace is a saved one. */
  lemma TunnelMeansNoFence(es: seq<Event>)
    ensures var s := Run(FRESH, es);
            s.shared.tunnel.Some? ==> !s.files.fence && s.shared.tunnel.value.origin in s.files.targets
  {
    RunKeeps(es);
  }

  /** The only step that lifts the fence: the commit of a current reset whose logout is confirmed. */
  predicate Lifts(s: State, e: Event) {
    && e.ResetCommit? && e.pid in s.ops && s.ops[e.pid].kind.Resetting? && s.ops[e.pid].pc.LoggedOut?
    && ContextLive(s, e.pid) && s.ops[e.pid].gen == s.generation && e.removed >= 4
  }

  predicate LiftFree(s: State, es: seq<Event>) {
    es == [] || (LiftFree(s, es[..|es| - 1]) && !Lifts(Run(s, es[..|es| - 1]), es[|es| - 1]))
  }

  lemma FencedMove(op: Op, pid: nat, e: Event, v: View)
    requires v.files.fence && (v.current ==> op.kind.Resetting?)
    requires !(e.ResetCommit? && op.kind.Resetting? && op.pc.LoggedOut? && v.live && v.current && e.removed >= 4)
    ensures OpMove(op, pid, e, v).files.fence && OpMove(op, pid, e, v).history.successes == v.history.successes
  {
  }

  /** While the fence stands, a step neither succeeds in anything nor lifts it unless it is that commit. */
  lemma FencedStep(s: State, e: Event)
    requires Inv(s) && s.files.fence && !Lifts(s, e)
    ensures Step(s, e).files.fence && Step(s, e).history.successes == s.history.successes
  {
    if !PermitEvent(e) && !StartEvent(e) && !e.Restart? && e.pid in s.ops {
      assert Fits(s.ops[e.pid], e.pid, s.ops[e.pid].gen == s.generation, s.shared, s.files);
      FencedMove(s.ops[e.pid], e.pid, e, ViewOf(s, e.pid));
    }
  }

  /** Once a reset has begun no scan, bind or confirmation succeeds, through any interleaving and any number
      of restarts, until some reset confirms the logout and lifts the fence. */
  lemma {:induction false} ResetHolds(es: seq<Event>, es': seq<Event>)
    requires Run(FRESH, es).files.fence && LiftFree(Run(FRESH, es), es')
    ensures var s, s' := Run(FRESH, es), Run(Run(FRESH, es), es');
            Inv(s') && s'.files.fence && s'.shared.tunnel.None? && s'.history.successes == s.history.successes
    decreases |es'|
  {
    RunKeeps(es);
    if es' != [] {
      ResetHolds(es, es'[..|es'| - 1]);
      var s := Run(Run(FRESH, es), es'[..|es'| - 1]);
      StepKeeps(s, es'[|es'| - 1]);
      FencedStep(s, es'[|es'| - 1]);
    }
  }
}
