/**
 Which key may start authentication. The registration record is written before a key is handed to the
 node; the node's lock is then held from the look at the context to the start itself.
 */
module Authentication {
  import opened Common
  import opened Enrollment
  import opened EnrollmentSafety

  /** What the holder of the runtime's lock can rely on. */
  predicate RecordStands(payload: Payload, shared: Shared, files: Files, history: History) {
    shared.claimed && files.registration == (if history.cleared then None else Some(payload))
  }

  predicate HolderFits(ops: map<nat, Op>, p: nat, shared: Shared, files: Files, history: History) {
    && p in ops && ops[p].kind.Enrolling? && ops[p].pc.Starting?
    && RecordStands(ops[p].kind.payload, shared, files, history)
  }

  predicate LockInv(s: State) {
    && (s.shared.mutating.Some? ==> HolderFits(s.ops, s.shared.mutating.value, s.shared, s.files, s.history))
    && (forall p {:trigger s.ops[p]} | p in s.ops && s.ops[p].pc.Starting? :: s.shared.mutating == Some(p))
  }

  // ---------------------------------------------------------------------------
  // Steps keep the invariant.

  /** The lock's holder is not disturbed by another operation's step, except that the record may be cleared. */
  lemma HolderUndisturbed(op: Op, pid: nat, e: Event, v: View, payload: Payload)
    requires ViewFits(op, pid, v) && RecordStands(payload, v.shared, v.files, v.history)
    requires v.shared.mutating.Some? && v.shared.mutating != Some(pid) && !op.pc.Starting?
    ensures var m := OpMove(op, pid, e, v);
            && m.shared.mutating == v.shared.mutating && !m.op.pc.Starting?
            && RecordStands(payload, m.shared, m.files, m.history)
  {
    if !AnyEvent(e) && op.kind.Enrolling? {
      EnrollUndisturbed(op, pid, e, v, payload);
    }
  }

  lemma EnrollUndisturbed(op: Op, pid: nat, e: Event, v: View, payload: Payload)
    requires op.kind.Enrolling? && ViewFits(op, pid, v) && RecordStands(payload, v.shared, v.files, v.history)
    requires v.shared.mutating.Some? && v.shared.mutating != Some(pid) && !op.pc.Starting?
    ensures var m := EnrollMove(op, pid, e, v);
            && m.shared.mutating == v.shared.mutating && !m.op.pc.Starting?
            && RecordStands(payload, m.shared, m.files, m.history)
  {
  }

  /** What an operation's step does to a lock that it holds or that is free. */
  lemma OwnLock(op: Op, pid: nat, e: Event, v: View)
    requires ViewFits(op, pid, v)
    requires v.shared.mutating == (if op.pc.Starting? then Some(pid) else None)
    requires op.pc.Starting? ==> op.kind.Enrolling? && RecordStands(op.kind.payload, v.shared, v.files, v.history)
    ensures var m := OpMove(op, pid, e, v);
            && m.op.kind == op.kind
            && m.shared.mutating == (if m.op.pc.Starting? then Some(pid) else None)
            && (m.op.pc.Starting? ==> op.kind.Enrolling? && RecordStands(op.kind.payload, m.shared, m.files, m.history))
  {
    if AnyEvent(e) {
      AnyLock(op, pid, e, v);
    } else if op.kind.Enrolling? {
      EnrollLock(op, pid, e, v);
    } else {
      OthersLeaveLock(op, pid, e, v);
    }
  }

  lemma AnyLock(op: Op, pid: nat, e: Event, v: View)
    requires AnyEvent(e)
    requires v.shared.mutating == (if op.pc.Starting? then Some(pid) else None)
    requires op.pc.Starting? ==> op.kind.Enrolling? && RecordStands(op.kind.payload, v.shared, v.files, v.history)
    ensures var m := AnyMove(op, pid, e, v);
            && m.op.kind == op.kind
            && m.shared.mutating == (if m.op.pc.Starting? then Some(pid) else None)
            && (m.op.pc.Starting? ==> op.kind.Enrolling? && RecordStands(op.kind.payload, m.shared, m.files, m.history))
  {
  }

  lemma OthersLeaveLock(op: Op, pid: nat, e: Event, v: View)
    requires !AnyEvent(e) && !op.kind.Enrolling? && !op.pc.Starting?
    ensures var m := OpMove(op, pid, e, v);
            m.op.kind == op.kind && m.shared.mutating == v.shared.mutating && !m.op.pc.Starting?
  {
  }

  lemma EnrollLock(op: Op, pid: nat, e: Event, v: View)
    requires op.kind.Enrolling? && ViewFits(op, pid, v)
    requires v.shared.mutating == (if op.pc.Starting? then Some(pid) else None)
    requires op.pc.Starting? ==> RecordStands(op.kind.payload, v.shared, v.files, v.history)
    ensures var m := EnrollMove(op, pid, e, v);
            && m.op.kind == op.kind
            && m.shared.mutating == (if m.op.pc.Starting? then Some(pid) else None)
            && (m.op.pc.Starting? ==> RecordStands(op.kind.payload, m.shared, m.files, m.history))
  {
  }

  lemma LocalKeeps(s: State, e: Event, pid: nat)
    requires Inv(s) && LockInv(s) && pid in s.ops
    ensures LockInv(LocalStep(s, e, pid))
  {
    var op, v := s.ops[pid], ViewOf(s, pid);
    assert Fits(op, pid, v.current, s.shared, s.files);
    if s.shared.mutating.Some? && s.shared.mutating != Some(pid) {
      var p := s.shared.mutating.value;
      HolderUndisturbed(op, pid, e, v, s.ops[p].kind.payload);
    } else {
      OwnLock(op, pid, e, v);
    }
  }

  lemma StepKeeps(s: State, e: Event)
    requires Inv(s) && LockInv(s)
    ensures LockInv(Step(s, e))
  {
    if PermitEvent(e) {
      SilencedLocks(s, PermitStep(s, e).ops);
    } else if StartEvent(e) {
      StartLocks(s, e);
    } else if !e.Restart? && e.pid in s.ops {
      LocalKeeps(s, e, e.pid);
    }
  }

  /** Cancelling contexts leaves the lock alone. */
  lemma SilencedLocks(s: State, ops: map<nat, Op>)
    requires LockInv(s) && ops in {s.ops, OwnerCancelled(s.ops, s.shared.owner)}
    ensures s.shared.mutating.Some? ==> HolderFits(ops, s.shared.mutating.value, s.shared, s.files, s.history)
    ensures forall p {:trigger ops[p]} | p in ops && ops[p].pc.Starting? :: s.shared.mutating == Some(p)
  {
  }

  lemma StartLocks(s: State, e: Event)
    requires LockInv(s) && StartEvent(e)
    ensures LockInv(StartStep(s, e))
  {
    SilencedLocks(s, OwnerCancelled(s.ops, s.shared.owner));
  }

  lemma {:induction false} RunLocks(es: seq<Event>)
    ensures Inv(Run(FRESH, es)) && LockInv(Run(FRESH, es))
    decreases |es|
  {
    if es != [] {
      RunLocks(es[..|es| - 1]);
      StepKeeps(Run(FRESH, es[..|es| - 1]), es[|es| - 1]);
      EnrollmentSafety.StepKeeps(Run(FRESH, es[..|es| - 1]), es[|es| - 1]);
    }
  }

  // ---------------------------------------------------------------------------
  // The theorems.

  /** A start of authentication about to happen: the record is there unless it was cleared since the look at
      the context, and no other payload is in the way. */
  predicate AboutToStart(s: State, pid: nat)
    requires pid in s.ops
  {
    && s.ops[pid].kind.Enrolling?
    && var payload := s.ops[pid].kind.payload;
       && (s.files.registration == Some(payload) <==> !s.history.cleared)
       && (s.files.registration.None? <==> s.history.cleared)
       && (s.history.lastAuth.None? || s.history.lastAuth == Some(payload))
  }

  lemma HolderIs(s: State, pid: nat)
    requires LockInv(s) && Kept(s.shared, s.files, s.history) && pid in s.ops && s.ops[pid].pc.Starting?
    ensures AboutToStart(s, pid)
  {
    assert HolderFits(s.ops, pid, s.shared, s.files, s.history);
  }

  /** What is on disk when authentication starts: the payload's own record, or none if a scan removed it since the
      look at the context, and never another payload's; none of their keys started authentication since the
      record was last removed. */
  lemma AuthNeedsRecord(es: seq<Event>, pid: nat)
    requires pid in Run(FRESH, es).ops && Run(FRESH, es).ops[pid].pc.Starting?
    ensures AboutToStart(Run(FRESH, es), pid)
  {
    RunLocks(es);
    HolderIs(Run(FRESH, es), pid);
  }

  /** That is the only place where a key reaches the node. */
  lemma StartsOnlyThere(s: State, e: Event, pid: nat)
    requires pid in s.ops && pid in Step(s, e).ops
    requires Step(s, e).ops[pid].pc.Authenticating? && !s.ops[pid].pc.Authenticating?
    ensures e == StartAuth(pid) && s.ops[pid].pc.Starting?
  {
    if !PermitEvent(e) && !StartEvent(e) && !e.Restart? && e.pid in s.ops {
      AuthMove(s.ops[e.pid], e.pid, e, ViewOf(s, e.pid));
    }
  }

  lemma AuthMove(op: Op, pid: nat, e: Event, v: View)
    ensures OpMove(op, pid, e, v).op.pc.Authenticating? && !op.pc.Authenticating? ==> e.StartAuth? && op.pc.Starting?
  {
  }

  /** A start whose generation is still current, and so any start with a live context, has its record. */
  lemma CurrentStartHasRecord(es: seq<Event>, pid: nat)
    requires var s := Run(FRESH, es);
             pid in s.ops && s.ops[pid].pc.Starting? && (ContextLive(s, pid) || s.ops[pid].gen == s.generation)
    ensures var s := Run(FRESH, es);
            s.ops[pid].kind.Enrolling? && s.files.registration == Some(s.ops[pid].kind.payload)
  {
    RunCurrent(es);
    var s := Run(FRESH, es);
    assert Fits(s.ops[pid], pid, s.ops[pid].gen == s.generation, s.shared, s.files);
  }

  /** Only another generation clears the record under the lock's holder. */
  predicate CurrentHolds(s: State) {
    s.shared.mutating.Some? && s.shared.mutating.value in s.ops
    && s.ops[s.shared.mutating.value].gen == s.generation ==>
      !s.history.cleared
  }

  lemma CurrentStep(s: State, e: Event)
    requires Inv(s) && LockInv(s) && CurrentHolds(s)
    ensures CurrentHolds(Step(s, e))
  {
    if e.EnrollStart? || e.ResetStart? || e.LegacyStart? || e.CancelAll? {
      StartsAreNewer(s, e);
    } else if !PermitEvent(e) && !StartEvent(e) && !e.Restart? && e.pid in s.ops {
      CurrentMove(s, e, e.pid);
    }
  }

  lemma StartsAreNewer(s: State, e: Event)
    requires Inv(s) && LockInv(s) && CurrentHolds(s)
    requires e.EnrollStart? || e.ResetStart? || e.LegacyStart? || e.CancelAll?
    ensures CurrentHolds(Step(s, e))
  {
    if s.shared.mutating.Some? {
      var p := s.shared.mutating.value;
      assert s.ops[p].gen <= s.generation;
    }
  }

  lemma CurrentMove(s: State, e: Event, pid: nat)
    requires Inv(s) && LockInv(s) && CurrentHolds(s) && pid in s.ops
    ensures CurrentHolds(LocalStep(s, e, pid))
  {
    var op, v := s.ops[pid], ViewOf(s, pid);
    assert Fits(op, pid, v.current, s.shared, s.files);
    MoveKeepsGen(op, pid, e, v);
    ClearsAreCurrent(op, pid, e, v);
  }

  lemma ClearsAreCurrent(op: Op, pid: nat, e: Event, v: View)
    requires ViewFits(op, pid, v)
    ensures var m := OpMove(op, pid, e, v);
            && (m.history.cleared && !v.history.cleared ==> v.current && op.pc.Running? && !m.op.pc.Starting?)
            && (m.shared.mutating.Some? && m.shared.mutating != v.shared.mutating ==>
                  m.shared.mutating == Some(pid) && !m.history.cleared)
            && (m.op.pc.Starting? && !op.pc.Starting? ==> !m.history.cleared)
  {
    if !AnyEvent(e) && op.kind.Enrolling? {
      EnrollClears(op, pid, e, v);
    }
  }

  lemma EnrollClears(op: Op, pid: nat, e: Event, v: View)
    requires op.kind.Enrolling? && ViewFits(op, pid, v)
    ensures var m := EnrollMove(op, pid, e, v);
            && (m.history.cleared && !v.history.cleared ==> v.current && op.pc.Running? && !m.op.pc.Starting?)
            && (m.shared.mutating.Some? && m.shared.mutating != v.shared.mutating ==>
                  m.shared.mutating == Some(pid) && !m.history.cleared)
            && (m.op.pc.Starting? && !op.pc.Starting? ==> !m.history.cleared)
  {
  }

  lemma {:induction false} RunCurrent(es: seq<Event>)
    ensures Inv(Run(FRESH, es)) && LockInv(Run(FRESH, es)) && CurrentHolds(Run(FRESH, es))
    decreases |es|
  {
    RunLocks(es);
    if es != [] {
      RunCurrent(es[..|es| - 1]);
      CurrentStep(Run(FRESH, es[..|es| - 1]), es[|es| - 1]);
    }
  }

  // ---------------------------------------------------------------------------
  // The record is held.

  /** The steps that remove the record: a current scan that saw Running, or a reset whose logout is confirmed. */
  predicate Removes(s: State, e: Event) {
    || (e.ClearRegistration? && e.pid in s.ops && s.ops[e.pid].kind.Enrolling? && s.ops[e.pid].pc.Running?
        && s.ops[e.pid].gen == s.generation && !e.out.NoEffect?)
    || (e.ResetCommit? && e.pid in s.ops && s.ops[e.pid].kind.Resetting? && s.ops[e.pid].pc.LoggedOut?
        && ContextLive(s, e.pid) && s.ops[e.pid].gen == s.generation && e.removed >= 1)
  }

  predicate RemovalFree(s: State, es: seq<Event>) {
    es == [] || (RemovalFree(s, es[..|es| - 1]) && !Removes(Run(s, es[..|es| - 1]), es[|es| - 1]))
  }

  lemma HeldMove(op: Op, pid: nat, e: Event, v: View)
    requires ViewFits(op, pid, v) && v.history.lastAuth.Some?
    requires !(e.ClearRegistration? && op.kind.Enrolling? && op.pc.Running? && v.current && !e.out.NoEffect?)
    requires !(e.ResetCommit? && op.kind.Resetting? && op.pc.LoggedOut? && v.live && v.current && e.removed >= 1)
    ensures OpMove(op, pid, e, v).history.lastAuth == v.history.lastAuth
  {
    if !AnyEvent(e) && op.kind.Enrolling? {
      HeldScan(op, pid, e, v);
    }
  }

  lemma HeldScan(op: Op, pid: nat, e: Event, v: View)
    requires op.kind.Enrolling? && ViewFits(op, pid, v) && v.history.lastAuth.Some?
    requires !(e.ClearRegistration? && op.pc.Running? && v.current && !e.out.NoEffect?)
    ensures EnrollMove(op, pid, e, v).history.lastAuth == v.history.lastAuth
  {
  }

  lemma HeldStep(s: State, e: Event)
    requires Inv(s) && s.history.lastAuth.Some? && !Removes(s, e)
    ensures Step(s, e).history.lastAuth == s.history.lastAuth
  {
    if !PermitEvent(e) && !StartEvent(e) && !e.Restart? && e.pid in s.ops {
      assert Fits(s.ops[e.pid], e.pid, s.ops[e.pid].gen == s.generation, s.shared, s.files);
      HeldMove(s.ops[e.pid], e.pid, e, ViewOf(s, e.pid));
    }
  }

  /** Once a key has started authentication with its record in place the record stays, and no other payload's
      key can start it, through cancels, racing scans and restarts, until one of those steps removes it. */
  lemma {:induction false} RecordIsHeld(es: seq<Event>, es': seq<Event>, p: Payload)
    requires Run(FRESH, es).history.lastAuth == Some(p) && RemovalFree(Run(FRESH, es), es')
    ensures var s := Run(Run(FRESH, es), es');
            Inv(s) && s.history.lastAuth == Some(p) && s.files.registration == Some(p)
    decreases |es'|
  {
    RunKeeps(es);
    if es' != [] {
      RecordIsHeld(es, es'[..|es'| - 1], p);
      var s := Run(Run(FRESH, es), es'[..|es'| - 1]);
      EnrollmentSafety.StepKeeps(s, es'[|es'| - 1]);
      HeldStep(s, es'[|es'| - 1]);
    }
  }
}
