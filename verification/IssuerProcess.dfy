/**
 The issuer as the object it is: its ledger and broken flag, updated in place by the loops of a restart,
 an admission and a cleanup pass, with the ledger file beside it. Each loop is proved to compute the
 step of the issuer's state machine.
 */
module IssuerProcess {
  import opened Common
  import opened Ledger
  import opened Issuer

  /** What the cleanup pass keeps of `rs`; `answers[i]` says whether a DELETE for record i is confirmed. */
  function Survivors(rs: seq<Record>, binding: string, reading: Option<Reading>, answers: seq<bool>): seq<Record>
    requires |answers| == |rs|
  {
    if rs == [] then []
    else
      var n := |rs| - 1;
      Survivors(rs[..n], binding, reading, answers[..n]) + Survivor(rs[n], binding, reading, answers[n])
  }

  predicate Sweepable(r: Record, binding: string) {
    r.bindingHash == binding && r.state.Cleanup? && SafeId(r.keyId)
  }

  function Survivor(r: Record, binding: string, reading: Option<Reading>, deleted: bool): seq<Record> {
    if !Sweepable(r, binding) then [r]
    else if (reading.Some? && Expired(r, reading.value)) || deleted then []
    else [if reading.Some? then Rebased(r, reading.value) else r]
  }

  /** The pass of the state machine, one record after the other. */
  function SweepAll(s: State, answers: seq<bool>): State
    requires s.op.Sweeping? && |answers| == |s.op.todo|
    decreases |answers|
  {
    if answers == [] then s else SweepAll(Swept(s, answers[0]), answers[1..])
  }

  lemma SweepOneKeeps(s: State, deleted: bool)
    requires s.op.Sweeping? && s.op.todo != []
    ensures var s' := Swept(s, deleted);
            && s'.op.Sweeping? && s'.op.todo == s.op.todo[1..]
            && s'.op.binding == s.op.binding && s'.op.reading == s.op.reading
            && s'.op.kept == s.op.kept + Survivor(s.op.todo[0], s.op.binding, s.op.reading, deleted)
  {
  }

  /** The machine's pass leaves exactly the survivors, in order. */
  lemma {:induction false} SweepAllSurvivors(s: State, answers: seq<bool>)
    requires s.op.Sweeping? && |answers| == |s.op.todo|
    ensures var s' := SweepAll(s, answers);
            && s'.op.Sweeping? && s'.op.todo == []
            && s'.op.kept == s.op.kept + Survivors(s.op.todo, s.op.binding, s.op.reading, answers)
    decreases |answers|
  {
    if answers != [] {
      SweepOneKeeps(s, answers[0]);
      SweepAllSurvivors(Swept(s, answers[0]), answers[1..]);
      SurvivorsSplit(s.op.todo, s.op.binding, s.op.reading, answers);
    }
  }

  lemma {:induction false} SurvivorsSplit(rs: seq<Record>, binding: string, reading: Option<Reading>,
                                          answers: seq<bool>)
    requires |answers| == |rs| > 0
    ensures Survivors(rs, binding, reading, answers)
         == Survivor(rs[0], binding, reading, answers[0]) + Survivors(rs[1..], binding, reading, answers[1..])
    decreases |rs|
  {
    var n := |rs| - 1;
    if n > 0 {
      SurvivorsSplit(rs[..n], binding, reading, answers[..n]);
      assert rs[..n][1..] == rs[1..][..n - 1] && answers[..n][1..] == answers[1..][..n - 1];
    }
  }

  /** The machine's process is in the object's state. */
  predicate Matches(s: State, ledger: CleanupLedger, broken: bool, file: Disk) {
    s.mem == ledger && s.broken == broken && s.disk == file
  }

  lemma MarkMatches(s: State, id: string, all: bool, nows: seq<int>, out: SaveResult)
    requires s.up && Rebooted(s) && s.op == Marking(id, all) && |nows| == |s.mem.records|
    ensures var l := s.mem.(records := MarkAll(s.mem.records, id, all, nows));
            Matches(Step(s, Mark(out, nows)), l, s.broken || !out.Saved?, Written(s.disk, l, out))
  {
    assert Step(s, Mark(out, nows)) == CleanStep(s, Mark(out, nows));
  }

  /** The ledger file after an attempt whose save, if it came to one, ended with `out`. */
  function Attempted(file: Disk, l: CleanupLedger, admitted: bool, out: SaveResult): Disk {
    if admitted then Written(file, l, out) else file
  }

  lemma FenceMatches(s: State, a: Attempt, out: SaveResult)
    requires s.up && Rebooted(s) && s.op.Admitted?
    requires a == FenceAttempt(s.mem.fences, s.op.req.cmd.id, false, Now(s))
    ensures var l := s.mem.(fences := a.fences);
            Matches(Step(s, FenceCreate(out)), l, s.broken || (a.admitted && !out.Saved?),
                    Attempted(s.disk, l, a.admitted, out))
  {
    assert Step(s, FenceCreate(out)) == CreateStep(s, FenceCreate(out));
  }

  lemma CancelMatches(s: State, id: string, a: Attempt, out: SaveResult)
    requires s.up && Rebooted(s) && s.op.Idle? && !s.broken && SafeId(id)
    requires a == FenceAttempt(s.mem.fences, id, true, Now(s))
    ensures var l := s.mem.(fences := a.fences);
            Matches(Step(s, Cancel(id, out)), l, s.broken || (a.admitted && !out.Saved?),
                    Attempted(s.disk, l, a.admitted, out))
  {
    assert Step(s, Cancel(id, out)) == CleanStep(s, Cancel(id, out));
  }

  lemma MarkSteps(l: CleanupLedger, broken: bool, file: Disk, id: string, all: bool, nows: seq<int>, out: SaveResult)
    requires |nows| == |l.records|
    ensures var l' := l.(records := MarkAll(l.records, id, all, nows));
            forall s: State | s.up && Rebooted(s) && s.op == Marking(id, all) && Matches(s, l, broken, file) ::
              Matches(Step(s, Mark(out, nows)), l', broken || !out.Saved?, Written(file, l', out))
  {
    forall s: State | s.up && Rebooted(s) && s.op == Marking(id, all) && Matches(s, l, broken, file)
      ensures var l' := l.(records := MarkAll(l.records, id, all, nows));
              Matches(Step(s, Mark(out, nows)), l', broken || !out.Saved?, Written(file, l', out))
    {
      MarkMatches(s, id, all, nows, out);
    }
  }

  lemma FenceSteps(l: CleanupLedger, broken: bool, file: Disk, id: string, cancel: bool, now: Reading, a: Attempt,
                   out: SaveResult)
    requires a == FenceAttempt(l.fences, id, cancel, now)
    ensures var l' := l.(fences := a.fences);
            var broken', file' := broken || (a.admitted && !out.Saved?), Attempted(file, l', a.admitted, out);
            && (forall s: State | s.up && Rebooted(s) && s.op.Admitted? && s.op.req.cmd.id == id && !cancel
                    && Now(s) == now && Matches(s, l, broken, file) ::
                  Matches(Step(s, FenceCreate(out)), l', broken', file'))
            && (forall s: State | s.up && Rebooted(s) && s.op.Idle? && !s.broken && SafeId(id) && cancel
                    && Now(s) == now && Matches(s, l, broken, file) ::
                  Matches(Step(s, Cancel(id, out)), l', broken', file'))
  {
    var l' := l.(fences := a.fences);
    var broken', file' := broken || (a.admitted && !out.Saved?), Attempted(file, l', a.admitted, out);
    forall s: State | s.up && Rebooted(s) && s.op.Admitted? && s.op.req.cmd.id == id && !cancel && Now(s) == now
                      && Matches(s, l, broken, file)
      ensures Matches(Step(s, FenceCreate(out)), l', broken', file')
    {
      FenceMatches(s, a, out);
    }
    forall s: State | s.up && Rebooted(s) && s.op.Idle? && !s.broken && SafeId(id) && cancel && Now(s) == now
                      && Matches(s, l, broken, file)
      ensures Matches(Step(s, Cancel(id, out)), l', broken', file')
    {
      CancelMatches(s, id, a, out);
    }
  }

  lemma {:induction false} SweepAllMatches(s: State, answers: seq<bool>)
    requires s.op.Sweeping? && |answers| == |s.op.todo|
    ensures var s' := SweepAll(s, answers);
            && Matches(s', s.mem, s.broken, s.disk) && s'.up == s.up && s'.bootId == s.bootId
            && s'.world.boots == s.world.boots && s'.world.time == s.world.time
    decreases |answers|
  {
    if answers != [] {
      SweepOneKeeps(s, answers[0]);
      SweepAllMatches(Swept(s, answers[0]), answers[1..]);
    }
  }

  class KeyIssuer {
    var ledger: CleanupLedger
    var broken: bool
    var file: Disk

    /** A restart: active records become cleanup records, and the ledger is saved. */
    constructor (disk: Disk, out: SaveResult)
      ensures ledger == disk.visible.(records := DemoteAll(disk.visible.records))
      ensures file == Written(disk, ledger, out) && broken == !out.Saved?
      ensures forall s: State | !s.up && s.disk == disk && LedgerValid(disk.visible) ::
                var s' := Step(s, Restart(out));
                s'.disk == file && s'.mem == ledger && s'.up == !broken
    {
      ledger := disk.visible;
      broken := false;
      file := disk;
      new;
      for n := 0 to |ledger.records|
        invariant |ledger.records| == |disk.visible.records| && ledger.fences == disk.visible.fences
        invariant forall i | 0 <= i < n :: ledger.records[i] == Demoted(disk.visible.records[i])
        invariant forall i | n <= i < |ledger.records| :: ledger.records[i] == disk.visible.records[i]
        invariant file == disk && !broken
      {
        if ledger.records[n].state == Active {
          ledger := ledger.(records := ledger.records[n := ledger.records[n].(state := Cleanup)]);
        }
      }
      assert ledger.records == DemoteAll(disk.visible.records);
      var _ := Save(out);
    }

    method Save(out: SaveResult) returns (ok: bool)
      modifies this
      ensures ledger == old(ledger) && file == Written(old(file), ledger, out)
      ensures ok == out.Saved? && broken == (old(broken) || !ok)
    {
      ok := out.Saved?;
      file := Written(file, ledger, out);
      if !ok {
        broken := true;
      }
    }

    /** An admission: what is left in memory, and on disk when it is saved, is the attempt's fences. */
    method FenceId(id: string, cancel: bool, now: Reading, out: SaveResult) returns (ok: bool)
      modifies this
      ensures var a := FenceAttempt(old(ledger.fences), id, cancel, now);
              && ledger == old(ledger).(fences := a.fences)
              && ok == (a.admitted && out.Saved?)
              && file == Attempted(old(file), ledger, a.admitted, out)
              && broken == (old(broken) || (a.admitted && !out.Saved?))
      ensures forall s: State | s.up && Rebooted(s) && s.op.Admitted? && s.op.req.cmd.id == id && !cancel
                  && Now(s) == now && Matches(s, old(ledger), old(broken), old(file)) ::
                Matches(Step(s, FenceCreate(out)), ledger, broken, file)
      ensures forall s: State | s.up && Rebooted(s) && s.op.Idle? && !s.broken && SafeId(id) && cancel && Now(s) == now
                  && Matches(s, old(ledger), old(broken), old(file)) ::
                Matches(Step(s, Cancel(id, out)), ledger, broken, file)
    {
      var a := TryFence(ledger.fences, id, cancel, now);
      FenceSteps(ledger, broken, file, id, cancel, now, a, out);
      ledger := ledger.(fences := a.fences);
      if !a.admitted {
        return false;
      }
      ok := Save(out);
    }

    /** The first half of a cleanup: active records that are asked for or overdue become cleanup records. */
    method MarkRecords(id: string, all: bool, nows: seq<int>, out: SaveResult) returns (ok: bool)
      requires |nows| == |ledger.records|
      modifies this
      ensures ledger == old(ledger).(records := MarkAll(old(ledger).records, id, all, nows))
      ensures file == Written(old(file), ledger, out) && ok == out.Saved? && broken == (old(broken) || !ok)
      ensures forall s: State | s.up && Rebooted(s) && s.op == Marking(id, all)
                  && Matches(s, old(ledger), old(broken), old(file)) ::
                Matches(Step(s, Mark(out, nows)), ledger, broken, file)
    {
      var rs := ledger.records;
      for n := 0 to |rs|
        invariant |ledger.records| == |rs| && ledger.fences == old(ledger.fences)
        invariant forall i | 0 <= i < n :: ledger.records[i] == MarkOne(rs[i], id, all, nows[i])
        invariant forall i | n <= i < |rs| :: ledger.records[i] == rs[i]
        invariant file == old(file) && broken == old(broken)
      {
        var r := ledger.records[n];
        if r.state == Active && (all || r.enrollmentId == id || nows[n] >= r.deadline) {
          ledger := ledger.(records := ledger.records[n := r.(state := Cleanup)]);
        }
      }
      assert ledger.records == MarkAll(rs, id, all, nows);
      MarkSteps(old(ledger), broken, file, id, all, nows, out);
      ok := Save(out);
    }

    /** The second half: what remains is exactly what the machine's pass keeps. */
    method SweepRecords(binding: string, reading: Option<Reading>, answers: seq<bool>, out: SaveResult)
      returns (ok: bool)
      requires |answers| == |ledger.records|
      modifies this
      ensures ledger == old(ledger).(records := Survivors(old(ledger.records), binding, reading, answers))
      ensures file == Written(old(file), ledger, out) && ok == out.Saved? && broken == (old(broken) || !ok)
    {
      var remaining := SweepPass(ledger.records, binding, reading, answers);
      ledger := ledger.(records := remaining);
      ok := Save(out);
    }
  }

  method SweepPass(rs: seq<Record>, binding: string, reading: Option<Reading>, answers: seq<bool>)
    returns (remaining: seq<Record>)
    requires |answers| == |rs|
    ensures remaining == Survivors(rs, binding, reading, answers)
  {
    remaining := [];
    for n := 0 to |rs|
      invariant remaining == Survivors(rs[..n], binding, reading, answers[..n])
    {
      assert rs[..n + 1][..n] == rs[..n] && answers[..n + 1][..n] == answers[..n];
      var r := rs[n];
      if r.bindingHash != binding || r.state != Cleanup || !SafeId(r.keyId) {
        remaining := remaining + [r];
      } else {
        var retired := reading.Some? && Expired(r, reading.value);
        if !retired && !answers[n] {
          remaining := remaining + [if reading.Some? then Rebased(r, reading.value) else r];
        }
      }
    }
    assert rs[..|rs|] == rs && answers[..|rs|] == answers;
  }

  /** The machine's whole pass, from its first record to its save, does what `SweepRecords` does. */
  lemma SweepIsPass(s: State, answers: seq<bool>, out: SaveResult)
    requires s.up && Rebooted(s) && s.op.Sweeping? && s.op.kept == [] && s.op.todo == s.mem.records
    requires |answers| == |s.mem.records|
    ensures var l := s.mem.(records := Survivors(s.mem.records, s.op.binding, s.op.reading, answers));
            Matches(Step(SweepAll(s, answers), FinishSweep(out)), l, s.broken || !out.Saved?, Written(s.disk, l, out))
  {
    SweepAllSurvivors(s, answers);
    SweepAllMatches(s, answers);
    var rest := Survivors(s.mem.records, s.op.binding, s.op.reading, answers);
    assert [] + rest == rest;
  }
}
