/**
 The key issuer's cleanup ledger: its records, its admission fences, the checks a saved ledger must
 pass when it is reopened, and the two clock rules (expiry evidence and fences). Instants and the
 boot clock are in nanoseconds, deadlines in milliseconds.
 */
module Ledger {
  import opened Common

  const MILLI: int := 1_000_000
  const SECOND: int := 1_000_000_000
  // The zero time of the Go runtime: 1 January of year 1.
  const ZERO_TIME: int := -62_135_596_800_000_000_000

  /** A timestamp text and the instant it parses to, if any. */
  datatype Stamp = Stamp(text: string, at: Option<int>)

  datatype Reading = Reading(wall: int, bootId: string, bootNanos: int)

  datatype Evidence = Evidence(created: int, expires: Stamp, receivedAt: int, bootId: string, bootNanos: int)

  datatype RecordState = Unknown | Active | Cleanup

  /** `attempt` is a history number: which key POST the record was written for. */
  datatype Record = Record(
    enrollmentId: string,
    bindingHash: string,
    keyId: string,
    expires: Stamp,
    state: RecordState,
    deadline: int,
    evidence: Option<Evidence>,
    attempt: nat)

  datatype Fence = Fence(enrollmentId: string, until: int, bootId: string, bootNanos: int)

  datatype CleanupLedger = CleanupLedger(records: seq<Record>, fences: seq<Fence>)

  const MAX_RECORDS: nat := 64
  const MAX_FENCES: nat := 128

  function UnixMilli(instant: int): int {
    instant / MILLI
  }

  predicate IsIdChar(c: char) {
    'a' <= c <= 'z' || 'A' <= c <= 'Z' || '0' <= c <= '9' || c == '_' || c == '-'
  }

  predicate SafeId(s: string) {
    0 < |s| <= 128 && forall i | 0 <= i < |s| :: IsIdChar(s[i])
  }

  // ---------------------------------------------------------------------------
  // The checks of a ledger being reopened.

  predicate FenceValid(f: Fence) {
    SafeId(f.enrollmentId) && SafeId(f.bootId) && f.until > 0 && f.bootNanos >= 0
  }

  predicate RecordValid(r: Record) {
    && SafeId(r.enrollmentId)
    && |r.bindingHash| == 64
    && |r.expires.text| <= 128
    && r.deadline > 0
    && (!r.state.Unknown? ==> SafeId(r.keyId))
  }

  predicate RecordsValid(records: seq<Record>) {
    |records| <= MAX_RECORDS && forall i | 0 <= i < |records| :: RecordValid(records[i])
  }

  predicate FencesValid(fences: seq<Fence>) {
    |fences| <= MAX_FENCES && forall i | 0 <= i < |fences| :: FenceValid(fences[i])
  }

  predicate LedgerValid(l: CleanupLedger) {
    RecordsValid(l.records) && FencesValid(l.fences)
  }

  // ---------------------------------------------------------------------------
  // Expiry evidence.

  predicate EvidenceUsable(r: Record, now: Reading) {
    && r.evidence.Some?
    && var p := r.evidence.value;
       && r.expires == p.expires && p.receivedAt > 0 && SafeId(p.bootId) && p.bootNanos >= 0
       && now.bootNanos >= 0 && SafeId(now.bootId)
       && p.expires.at.Some?
       && var lifetime := p.expires.at.value - p.created;
          && p.created != ZERO_TIME
          && 0 < lifetime <= 300 * SECOND
          && p.receivedAt >= UnixMilli(p.created - 5 * SECOND)
          && p.receivedAt < UnixMilli(p.expires.at.value)
          && UnixMilli(now.wall) >= p.receivedAt
  }

  /** Evidence from another boot starts a fresh wait on this one. */
  function Rebased(r: Record, now: Reading): Record {
    if EvidenceUsable(r, now) && r.evidence.value.bootId != now.bootId
    then r.(evidence := Some(r.evidence.value.(bootId := now.bootId, bootNanos := now.bootNanos)))
    else r
  }

  predicate Expired(r: Record, now: Reading) {
    && EvidenceUsable(r, now)
    && var p := r.evidence.value;
       && p.bootId == now.bootId
       && now.bootNanos >= p.bootNanos
       && now.bootNanos - p.bootNanos >= (p.expires.at.value - p.created) + 5 * SECOND
       && now.wall >= p.expires.at.value + 5 * SECOND
  }

  // ---------------------------------------------------------------------------
  // Admission fences.

  function FenceRebased(f: Fence, now: Reading): Fence {
    if f.bootId != now.bootId then f.(bootId := now.bootId, bootNanos := now.bootNanos) else f
  }

  predicate FenceOver(f: Fence, now: Reading) {
    && UnixMilli(now.wall) >= f.until
    && now.bootNanos >= f.bootNanos && now.bootNanos - f.bootNanos >= 10 * SECOND
  }

  /** Fences that are still up, rebased to the current boot. */
  function Pruned(fences: seq<Fence>, now: Reading): seq<Fence> {
    if fences == [] then []
    else
      var f := FenceRebased(fences[|fences| - 1], now);
      Pruned(fences[..|fences| - 1], now) + (if FenceOver(f, now) then [] else [f])
  }

  function FenceIndex(fences: seq<Fence>, id: string): (k: nat)
    ensures k <= |fences|
    ensures k < |fences| ==> fences[k].enrollmentId == id
    ensures forall j | 0 <= j < k :: fences[j].enrollmentId != id
  {
    if fences == [] || fences[0].enrollmentId == id then 0 else 1 + FenceIndex(fences[1..], id)
  }

  function NewFence(id: string, now: Reading): Fence {
    Fence(id, UnixMilli(now.wall + 10 * SECOND), now.bootId, now.bootNanos)
  }

  /** What an attempt leaves in memory, and whether it is to be saved (otherwise it is refused). */
  datatype Attempt = Attempt(fences: seq<Fence>, admitted: bool)

  function FenceAttempt(fences: seq<Fence>, id: string, cancel: bool, now: Reading): Attempt {
    var up := Pruned(fences, now);
    var k := FenceIndex(up, id);
    if k < |up| then
      if cancel then Attempt(up[k := NewFence(id, now)], true) else Attempt(up, false)
    else if |up| >= MAX_FENCES then Attempt(up, false)
    else Attempt(up + [NewFence(id, now)], true)
  }

  method PruneFences(fences: seq<Fence>, now: Reading) returns (remaining: seq<Fence>)
    ensures remaining == Pruned(fences, now)
  {
    remaining := [];
    for i := 0 to |fences|
      invariant remaining == Pruned(fences[..i], now)
    {
      assert fences[..i + 1][..i] == fences[..i];
      var f := fences[i];
      if f.bootId != now.bootId {
        f := f.(bootId := now.bootId, bootNanos := now.bootNanos);
      }
      var elapsed := now.bootNanos >= f.bootNanos && now.bootNanos - f.bootNanos >= 10 * SECOND;
      if !(UnixMilli(now.wall) >= f.until && elapsed) {
        remaining := remaining + [f];
      }
    }
    assert fences[..|fences|] == fences;
  }

  method FindFence(fences: seq<Fence>, id: string) returns (n: nat)
    ensures n == FenceIndex(fences, id)
  {
    n := 0;
    while n < |fences| && fences[n].enrollmentId != id
      invariant n <= |fences| && forall j | 0 <= j < n :: fences[j].enrollmentId != id
    {
      n := n + 1;
    }
    FirstIsIndex(fences, id, n);
  }

  method TryFence(fences: seq<Fence>, id: string, cancel: bool, now: Reading) returns (a: Attempt)
    ensures a == FenceAttempt(fences, id, cancel, now)
  {
    var remaining := PruneFences(fences, now);
    var n := FindFence(remaining, id);
    if n < |remaining| {
      if !cancel {
        return Attempt(remaining, false);
      }
      var f := remaining[n];
      f := f.(until := UnixMilli(now.wall + 10 * SECOND));
      f := f.(bootNanos := now.bootNanos);
      f := f.(bootId := now.bootId);
      return Attempt(remaining[n := f], true);
    }
    if |remaining| >= MAX_FENCES {
      return Attempt(remaining, false);
    }
    a := Attempt(remaining + [Fence(id, UnixMilli(now.wall + 10 * SECOND), now.bootId, now.bootNanos)], true);
  }

  /** A create attempt is admitted exactly when every fence of its id is over and there is room. */
  lemma AdmittedIff(fences: seq<Fence>, id: string, now: Reading)
    ensures FenceAttempt(fences, id, false, now).admitted <==>
              && |Pruned(fences, now)| < MAX_FENCES
              && forall i | 0 <= i < |fences| && fences[i].enrollmentId == id ::
                   FenceOver(FenceRebased(fences[i], now), now)
  {
    PrunedFacts(fences, now);
    var up := Pruned(fences, now);
    var k := FenceIndex(up, id);
    if k < |up| {
      PrunedAreUp(fences, now, k);
      var j :| 0 <= j < |fences| && up[k] == FenceRebased(fences[j], now);
      assert fences[j].enrollmentId == id;
    }
  }

  lemma {:induction false} PrunedAreUp(fences: seq<Fence>, now: Reading, k: nat)
    requires k < |Pruned(fences, now)|
    ensures !FenceOver(Pruned(fences, now)[k], now)
    decreases |fences|
  {
    if k < |Pruned(fences[..|fences| - 1], now)| {
      PrunedAreUp(fences[..|fences| - 1], now, k);
    }
  }

  lemma {:induction false} FirstIsIndex(fences: seq<Fence>, id: string, n: nat)
    requires n <= |fences| && forall j | 0 <= j < n :: fences[j].enrollmentId != id
    requires n < |fences| ==> fences[n].enrollmentId == id
    ensures FenceIndex(fences, id) == n
  {
  }

  /** Pruning keeps exactly the fences that are not over. */
  lemma {:induction false} PrunedFacts(fences: seq<Fence>, now: Reading)
    ensures |Pruned(fences, now)| <= |fences|
    ensures forall i | 0 <= i < |Pruned(fences, now)| ::
              exists j :: 0 <= j < |fences| && Pruned(fences, now)[i] == FenceRebased(fences[j], now)
    ensures forall j | 0 <= j < |fences| ::
              FenceOver(FenceRebased(fences[j], now), now) || FenceRebased(fences[j], now) in Pruned(fences, now)
    decreases |fences|
  {
    if fences != [] {
      var init, n := fences[..|fences| - 1], |fences| - 1;
      PrunedFacts(init, now);
      var up := Pruned(fences, now);
      forall i | 0 <= i < |up|
        ensures exists j :: 0 <= j < |fences| && up[i] == FenceRebased(fences[j], now)
      {
        if i < |Pruned(init, now)| {
          var j :| 0 <= j < |init| && Pruned(init, now)[i] == FenceRebased(init[j], now);
          assert fences[j] == init[j];
        } else {
          assert up[i] == FenceRebased(fences[n], now);
        }
      }
      forall j | 0 <= j < |fences|
        ensures FenceOver(FenceRebased(fences[j], now), now) || FenceRebased(fences[j], now) in up
      {
        if j < n {
          assert init[j] == fences[j];
        }
      }
    }
  }

  /** A fenced attempt writes a ledger that reopens exactly when the wall clock is past the last ten
      seconds before the epoch. */
  lemma FenceAttemptReopens(l: CleanupLedger, id: string, cancel: bool, now: Reading)
    requires LedgerValid(l) && SafeId(id) && SafeId(now.bootId) && now.bootNanos >= 0
    requires FenceAttempt(l.fences, id, cancel, now).admitted
    ensures LedgerValid(l.(fences := FenceAttempt(l.fences, id, cancel, now).fences)) <==>
              now.wall + 10 * SECOND >= MILLI
  {
    PrunedFacts(l.fences, now);
    var up := Pruned(l.fences, now);
    var k := FenceIndex(up, id);
    var a := FenceAttempt(l.fences, id, cancel, now);
    assert (if k < |up| then a.fences[k] else a.fences[|up|]) == NewFence(id, now);
    assert FenceValid(NewFence(id, now)) <==> now.wall + 10 * SECOND >= MILLI;
  }

  /** A wall clock in 1969: the fence it writes makes the saved ledger unreadable. */
  lemma FenceBeforeEpoch()
    ensures var now := Reading(-10 * SECOND, "boot", 0);
            var l := CleanupLedger([], []);
            && LedgerValid(l)
            && FenceAttempt(l.fences, "id", true, now).admitted
            && !LedgerValid(l.(fences := FenceAttempt(l.fences, "id", true, now).fences))
  {
    var now := Reading(-10 * SECOND, "boot", 0);
    assert Pruned([], now) == [];
    var a := FenceAttempt([], "id", true, now);
    assert a.fences == [NewFence("id", now)];
    assert a.fences[0].until == 0;
  }
}
