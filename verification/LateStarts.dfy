/**
 A start of authentication without its record, and the exact condition for it. A first scan starts authentication
 and is revoked; a second scan of the same invitation is about to start again when it is revoked too; a third scan
 finds the node Running from the first start and removes the record.
 */
module LateStarts {
  import opened Common
  import opened Enrollment
  import opened EnrollmentSafety
  import opened Authentication

  ghost predicate Reached(s: State) {
    exists es :: Run(FRESH, es) == s
  }

  lemma Reach(s: State, e: Event, s': State)
    requires Reached(s) && Step(s, e) == s'
    ensures Reached(s')
  {
    var es :| Run(FRESH, es) == s;
    RunLast(FRESH, es, e);
    assert Run(FRESH, es + [e]) == s';
  }

  // ---------------------------------------------------------------------------
  // Pieces that every scan of the run goes through. `rest` are the permits before the scan's own.

  function Claimed(rest: seq<Permit>): Desk {
    Desk(rest + [Permit(false, 1, None)], Some(|rest|), None, false, 0)
  }

  function Working(rest: seq<Permit>, gen: nat): Desk {
    Desk(rest + [Permit(false, 1, Some(gen))], Some(|rest|), None, false, 0)
  }

  function Over(rest: seq<Permit>): Desk {
    Desk(rest, if rest == [] then None else Some(|rest| - 1), None, false, 0)
  }

  /** Every permit before is revoked. */
  predicate AllOver(rest: seq<Permit>) {
    forall i | 0 <= i < |rest| :: rest[i].cancelled
  }

  lemma PermitIsClaimed(s: State, rest: seq<Permit>)
    requires Reached(s) && s.desk == Over(rest) && AllOver(rest)
    ensures Reached(s.(desk := Claimed(rest)))
  {
    var desk := Desk(rest + [Permit(false, 0, None)], Some(|rest|), None, false, 0);
    Reach(s, Reserve, s.(desk := desk));
    assert desk.permits[|rest| := Permit(false, 1, None)] == Claimed(rest).permits;
    Reach(s.(desk := desk), Claim(|rest|), s.(desk := Claimed(rest)));
  }

  /** Nobody owns the engine, no fence stands, and the next permit is claimed. */
  predicate Open(s: State, rest: seq<Permit>) {
    && s.desk == Claimed(rest) && |rest| !in s.ops
    && s.shared.owner.None? && s.shared.tunnel.None? && !s.shared.resetting && !s.files.fence
  }

  function Scan(payload: Payload, gen: nat, live: bool, pc: Pc): Op {
    Op(Enrolling(payload), gen, live, pc)
  }

  lemma ScanBegins(s: State, rest: seq<Permit>, p: Payload)
    requires Reached(s) && Open(s, rest)
    ensures Reached(State(Working(rest, s.generation + 1), s.generation + 1,
                          s.ops[|rest| := Scan(p, s.generation + 1, true, Started)],
                          s.shared.(owner := Some(|rest|)), s.files.(pending := true), s.history))
  {
    var gen := s.generation + 1;
    assert Claimed(rest).permits[|rest| := Permit(false, 1, Some(gen))] == Working(rest, gen).permits;
    Reach(s, EnrollStart(|rest|, p, Good),
          State(Working(rest, gen), gen, s.ops[|rest| := Scan(p, gen, true, Started)],
                s.shared.(owner := Some(|rest|)), s.files.(pending := true), s.history));
  }

  lemma ScanArrives(s: State, rest: seq<Permit>, p: Payload)
    requires Reached(s) && s.desk == Over(rest) && AllOver(rest) && Open(s.(desk := Claimed(rest)), rest)
    ensures Reached(State(Working(rest, s.generation + 1), s.generation + 1,
                          s.ops[|rest| := Scan(p, s.generation + 1, true, Started)],
                          s.shared.(owner := Some(|rest|)), s.files.(pending := true), s.history))
  {
    PermitIsClaimed(s, rest);
    ScanBegins(s.(desk := Claimed(rest)), rest, p);
  }

  /** Scan `n` is current and live. */
  predicate Current(s: State, n: nat, p: Payload, pc: Pc) {
    && n in s.ops && s.ops[n] == Scan(p, s.generation, true, pc)
    && n < |s.desk.permits| && !s.desk.permits[n].cancelled && s.desk.revoking.None?
  }

  lemma ScanMoves(s: State, n: nat, p: Payload, pc: Pc, e: Event, m: Move)
    requires Reached(s) && Current(s, n, p, pc)
    requires !PermitEvent(e) && !StartEvent(e) && !e.Restart? && e.pid == n
    requires m == OpMove(Scan(p, s.generation, true, pc), n, e, View(true, true, true, s.shared, s.files, s.history))
    ensures Reached(s.(ops := s.ops[n := m.op], shared := m.shared, files := m.files, history := m.history))
  {
    assert ViewOf(s, n) == View(true, true, true, s.shared, s.files, s.history);
    Reach(s, e, s.(ops := s.ops[n := m.op], shared := m.shared, files := m.files, history := m.history));
  }

  lemma ScanClears(s: State, n: nat, p: Payload)
    requires Reached(s) && Current(s, n, p, Started)
    requires s.files.registration == Some(p) || (s.files.registration.None? && !s.shared.claimed)
    ensures Reached(s.(ops := s.ops[n := Scan(p, s.generation, true, Cleared)]))
  {
    var same := s.files.registration == Some(p);
    var read, cleared := Scan(p, s.generation, true, Read(same, same)), Scan(p, s.generation, true, Cleared);
    ScanMoves(s, n, p, Started, ReadRegistration(n), Move(read, s.shared, s.files, s.history));
    var s1 := s.(ops := s.ops[n := read]);
    ScanMoves(s1, n, p, Read(same, same), CheckClaim(n), Move(cleared, s.shared, s.files, s.history));
    assert s1.ops[n := cleared] == s.ops[n := cleared];
  }

  lemma ScanRegisters(s: State, n: nat, p: Payload)
    requires Reached(s) && Current(s, n, p, Started) && s.shared.mutating.None?
    requires s.files.registration == Some(p) || (s.files.registration.None? && !s.shared.claimed)
    ensures Reached(s.(ops := s.ops[n := Scan(p, s.generation, true, Registered)],
                       shared := s.shared.(claimed := true), files := s.files.(registration := Some(p))))
  {
    ScanClears(s, n, p);
    var s1, registered := s.(ops := s.ops[n := Scan(p, s.generation, true, Cleared)]),
                          Scan(p, s.generation, true, Registered);
    var m := Move(registered, s.shared.(claimed := true), s.files.(registration := Some(p)), s.history);
    ScanMoves(s1, n, p, Cleared, Register(n, Good), m);
    assert s1.ops[n := registered] == s.ops[n := registered];
  }

  lemma ScanLocks(s: State, n: nat, p: Payload)
    requires Reached(s) && Current(s, n, p, Registered) && s.shared.mutating.None?
    ensures Reached(s.(ops := s.ops[n := Scan(p, s.generation, true, Starting)],
                       shared := s.shared.(mutating := Some(n)), history := s.history.(cleared := false)))
  {
    var m := Move(Scan(p, s.generation, true, Starting), s.shared.(mutating := Some(n)), s.files,
                  s.history.(cleared := false));
    ScanMoves(s, n, p, Registered, CheckContext(n), m);
  }

  /** The scan that owns the engine is revoked; it stays where it is, with its context ended. */
  lemma ScanIsRevoked(s: State, rest: seq<Permit>, p: Payload, pc: Pc)
    requires Reached(s) && s.desk == Working(rest, s.generation) && Current(s, |rest|, p, pc)
    requires s.shared.owner == Some(|rest|) && s.shared.tunnel.None?
    ensures Reached(s.(desk := Over(rest + [Permit(true, 1, Some(s.generation))]),
                       ops := s.ops[|rest| := Scan(p, s.generation, false, pc)],
                       shared := s.shared.(owner := None), files := s.files.(pending := false)))
  {
    var n, more := |rest|, rest + [Permit(true, 1, Some(s.generation))];
    assert s.desk.permits[n := Permit(true, 1, Some(s.generation))] == more;
    var s1 := s.(desk := Desk(more, Some(n), Some(n), false, 0));
    Reach(s, Revoke(false), s1);
    Reach(s1, StopRevoked(Good),
          s.(desk := Over(more), ops := s.ops[n := Scan(p, s.generation, false, pc)],
             shared := s.shared.(owner := None), files := s.files.(pending := false)));
  }

  // ---------------------------------------------------------------------------
  // The run.

  const FIRST := Permit(true, 1, Some(1))
  const SECOND_PERMIT := Permit(true, 1, Some(2))

  /** After the first scan: it started authentication with `p`, and was revoked. */
  function AfterFirst(p: Payload): State {
    State(Over([FIRST]), 1, map[0 := Scan(p, 1, false, Authenticating)], Shared(None, false, None, true, None),
          Files(false, Some(p), false, {}), History(Some(p), false, {}, 0))
  }

  /** After the second: it holds the runtime's lock with its context ended. */
  function AfterSecond(p: Payload): State {
    State(Over([FIRST, SECOND_PERMIT]), 2,
          map[0 := Scan(p, 1, false, Authenticating), 1 := Scan(p, 2, false, Starting)],
          Shared(None, false, None, true, Some(1)), Files(false, Some(p), false, {}), History(Some(p), false, {}, 0))
  }

  function FirstWorking(p: Payload, pc: Pc, claimed: bool, registration: Option<Payload>): State {
    State(Working([], 1), 1, map[0 := Scan(p, 1, true, pc)], Shared(Some(0), false, None, claimed, None),
          Files(false, registration, true, {}), History(None, false, {}, 0))
  }

  lemma FirstScanBegins(p: Payload)
    ensures Reached(FirstWorking(p, Started, false, None))
  {
    assert Run(FRESH, []) == FRESH;
    ScanArrives(FRESH, [], p);
    assert map[][0 := Scan(p, 1, true, Started)] == FirstWorking(p, Started, false, None).ops;
  }

  lemma FirstScanWorks(p: Payload)
    ensures Reached(FirstWorking(p, Registered, true, Some(p)))
  {
    FirstScanBegins(p);
    var s := FirstWorking(p, Started, false, None);
    ScanRegisters(s, 0, p);
    assert s.ops[0 := Scan(p, 1, true, Registered)] == map[0 := Scan(p, 1, true, Registered)];
  }

  lemma FirstScanStarts(p: Payload)
    ensures Reached(State(Working([], 1), 1, map[0 := Scan(p, 1, true, Authenticating)],
                          Shared(Some(0), false, None, true, None), Files(false, Some(p), true, {}),
                          History(Some(p), false, {}, 0)))
  {
    FirstScanWorks(p);
    var s := FirstWorking(p, Registered, true, Some(p));
    ScanLocks(s, 0, p);
    var s1 := s.(ops := map[0 := Scan(p, 1, true, Starting)], shared := s.shared.(mutating := Some(0)));
    assert s.ops[0 := Scan(p, 1, true, Starting)] == s1.ops;
    var m := Move(Scan(p, 1, true, Authenticating), s.shared, s.files, History(Some(p), false, {}, 0));
    ScanMoves(s1, 0, p, Starting, StartAuth(0), m);
    assert s1.ops[0 := m.op] == map[0 := Scan(p, 1, true, Authenticating)];
  }

  lemma FirstScanEnds(p: Payload)
    ensures Reached(AfterFirst(p))
  {
    FirstScanStarts(p);
    var s := State(Working([], 1), 1, map[0 := Scan(p, 1, true, Authenticating)],
                   Shared(Some(0), false, None, true, None), Files(false, Some(p), true, {}),
                   History(Some(p), false, {}, 0));
    ScanIsRevoked(s, [], p, Authenticating);
    assert [] + [FIRST] == [FIRST];
    assert s.ops[0 := Scan(p, 1, false, Authenticating)] == AfterFirst(p).ops;
  }

  function SecondWorking(p: Payload, pc: Pc, mutating: Option<nat>): State {
    State(Working([FIRST], 2), 2, map[0 := Scan(p, 1, false, Authenticating), 1 := Scan(p, 2, true, pc)],
          Shared(Some(1), false, None, true, mutating), Files(false, Some(p), true, {}), History(Some(p), false, {}, 0))
  }

  lemma SecondScanBegins(p: Payload)
    ensures Reached(SecondWorking(p, Started, None))
  {
    FirstScanEnds(p);
    var s := AfterFirst(p);
    ScanArrives(s, [FIRST], p);
    assert s.ops[1 := Scan(p, 2, true, Started)] == SecondWorking(p, Started, None).ops;
  }

  lemma SecondScanLocks(p: Payload)
    ensures Reached(SecondWorking(p, Starting, Some(1)))
  {
    SecondScanBegins(p);
    var s, s1 := SecondWorking(p, Started, None), SecondWorking(p, Registered, None);
    ScanRegisters(s, 1, p);
    assert s.ops[1 := Scan(p, 2, true, Registered)] == s1.ops;
    ScanLocks(s1, 1, p);
    assert s1.ops[1 := Scan(p, 2, true, Starting)] == SecondWorking(p, Starting, Some(1)).ops;
  }

  lemma SecondScanEnds(p: Payload)
    ensures Reached(AfterSecond(p))
  {
    SecondScanLocks(p);
    var s := SecondWorking(p, Starting, Some(1));
    ScanIsRevoked(s, [FIRST], p, Starting);
    assert [FIRST] + [SECOND_PERMIT] == [FIRST, SECOND_PERMIT];
    assert s.ops[1 := Scan(p, 2, false, Starting)] == AfterSecond(p).ops;
  }

  function ThirdWorking(p: Payload, q: Payload, pc: Pc): State {
    State(Working([FIRST, SECOND_PERMIT], 3), 3,
          map[0 := Scan(p, 1, false, Authenticating), 1 := Scan(p, 2, false, Starting), 2 := Scan(q, 3, true, pc)],
          Shared(Some(2), false, None, true, Some(1)), Files(false, Some(p), true, {}), History(Some(p), false, {}, 0))
  }

  lemma ThirdScanBegins(p: Payload, q: Payload)
    ensures Reached(ThirdWorking(p, q, Started))
  {
    SecondScanEnds(p);
    ScanArrives(AfterSecond(p), [FIRST, SECOND_PERMIT], q);
    assert AfterSecond(p).ops[2 := Scan(q, 3, true, Started)] == ThirdWorking(p, q, Started).ops;
  }

  lemma ThirdScanSees(p: Payload, q: Payload)
    ensures Reached(ThirdWorking(p, q, Running))
  {
    ThirdScanBegins(p, q);
    var s := ThirdWorking(p, q, Started);
    ScanMoves(s, 2, q, Started, SeeRunning(2), Move(Scan(q, 3, true, Running), s.shared, s.files, s.history));
    assert s.ops[2 := Scan(q, 3, true, Running)] == ThirdWorking(p, q, Running).ops;
  }

  function RecordGone(p: Payload, q: Payload): State {
    ThirdWorking(p, q, Targeting).(files := Files(false, None, true, {}), history := History(None, true, {}, 0))
  }

  lemma RecordIsCleared(p: Payload, q: Payload)
    ensures Reached(RecordGone(p, q))
  {
    ThirdScanSees(p, q);
    var s := ThirdWorking(p, q, Running);
    var m := Move(Scan(q, 3, true, Targeting), s.shared, RecordGone(p, q).files, RecordGone(p, q).history);
    ScanMoves(s, 2, q, Running, ClearRegistration(2, Good, true), m);
    assert s.ops[2 := m.op] == RecordGone(p, q).ops;
  }

  /** A run in which a third scan, having seen the node Running, clears the record under the second scan's start. */
  lemma LateStart(p: Payload, q: Payload) returns (es: seq<Event>)
    ensures var s := Run(FRESH, es);
            && 0 in s.ops && s.ops[0] == Scan(p, 1, false, Authenticating)
            && 1 in s.ops && s.ops[1] == Scan(p, 2, false, Starting)
            && s.generation == 3 && s.files.registration.None?
  {
    RecordIsCleared(p, q);
    es :| Run(FRESH, es) == RecordGone(p, q);
  }

  // ---------------------------------------------------------------------------
  // The condition.

  predicate UnderWay(s: State, pid: nat, current: bool) {
    pid in s.ops && s.ops[pid].pc.Starting? && (s.ops[pid].gen == s.generation) == current
  }

  predicate HasRecord(s: State, pid: nat) {
    pid in s.ops && s.ops[pid].kind.Enrolling? && s.files.registration == Some(s.ops[pid].kind.payload)
  }

  /** In every run, every start under way in a generation that is current, or is not, has its record. */
  ghost predicate StartsHaveRecord(current: bool) {
    forall es: seq<Event>, pid: nat | UnderWay(Run(FRESH, es), pid, current) :: HasRecord(Run(FRESH, es), pid)
  }

  /** A start is sure of its record exactly while its generation is current. */
  lemma RecordCondition(current: bool)
    ensures StartsHaveRecord(current) <==> current
  {
    if current {
      forall es: seq<Event>, pid: nat | UnderWay(Run(FRESH, es), pid, true)
        ensures HasRecord(Run(FRESH, es), pid)
      {
        CurrentStartHasRecord(es, pid);
      }
    } else {
      var p := Payload("", "", "", "");
      var es := LateStart(p, p);
      assert UnderWay(Run(FRESH, es), 1, false) && !HasRecord(Run(FRESH, es), 1);
    }
  }
}
