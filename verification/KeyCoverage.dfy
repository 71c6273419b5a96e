/**
 No key is forgotten: in every run of the issuer, with crashes, power loss, failed saves and late keys,
 a key that is neither deleted nor past its lifetime has a record in the ledger on disk; and a record
 is retired as expired only after the key's lifetime and five more seconds have really passed.
 */
module KeyCoverage {
  import opened Common
  import opened Ledger
  import opened Issuer

  // ---------------------------------------------------------------------------
  // What a ledger must say about the control plane.

  /** Nothing is left to clean up for attempt `n`. */
  predicate Settled(w: World, n: nat) {
    n in w.keys && (w.keys[n].gone || w.time >= w.keys[n].createdAt + w.keys[n].lifetime)
  }

  /** The record holds attempt `n` open, by its key's id or as an unknown result. */
  predicate Tracks(w: World, r: Record, n: nat)
    requires n in w.posts
  {
    && r.attempt == n && r.enrollmentId == w.posts[n].cmd.id && r.bindingHash == w.posts[n].binding
    && (r.state.Unknown? || (n in w.keys && r.keyId == w.keys[n].id))
  }

  predicate Tracked(w: World, rs: seq<Record>, n: nat)
    requires n in w.posts
  {
    exists i :: 0 <= i < |rs| && Tracks(w, rs[i], n)
  }

  predicate Covered(w: World, rs: seq<Record>) {
    forall n {:trigger Tracked(w, rs, n)} | n in w.posts :: Settled(w, n) || Tracked(w, rs, n)
  }

  /** Evidence never claims more elapsed time than has passed since it was read. */
  predicate EvidenceSound(w: World, p: Evidence, k: Key) {
    && k.witnessed.Some?
    && p.bootId in w.boots && w.boots[p.bootId] + p.bootNanos >= k.witnessed.value
    && (p.expires.at.Some? ==> p.expires.at.value - p.created == k.lifetime)
  }

  /** The record names the key of its own attempt. */
  predicate Named(w: World, r: Record) {
    && r.attempt in w.posts && r.attempt in w.keys
    && r.keyId == w.keys[r.attempt].id
    && r.bindingHash == w.posts[r.attempt].binding && r.enrollmentId == w.posts[r.attempt].cmd.id
  }

  predicate Sound(w: World, r: Record) {
    && (!r.state.Unknown? ==> Named(w, r))
    && (r.evidence.Some? ==> r.attempt in w.keys && EvidenceSound(w, r.evidence.value, w.keys[r.attempt]))
  }

  predicate AllSound(w: World, rs: seq<Record>) {
    forall i {:trigger Sound(w, rs[i])} | 0 <= i < |rs| :: Sound(w, rs[i])
  }

  predicate Book(w: World, rs: seq<Record>) {
    Covered(w, rs) && AllSound(w, rs)
  }

  // ---------------------------------------------------------------------------
  // The world only moves forward.

  predicate KeyLater(k: Key, k': Key) {
    && k'.id == k.id && k'.createdAt == k.createdAt && k'.lifetime == k.lifetime
    && (k.gone ==> k'.gone)
    && (k.witnessed.Some? ==> k'.witnessed == k.witnessed)
  }

  predicate Later(w: World, w': World) {
    && w.time <= w'.time && w.attempts <= w'.attempts && w'.posts == w.posts
    && (forall b | b in w.boots :: b in w'.boots && w'.boots[b] == w.boots[b])
    && (forall n | n in w.keys :: n in w'.keys && KeyLater(w.keys[n], w'.keys[n]))
  }

  predicate KeyInv(w: World, k: Key) {
    && k.createdAt <= w.time && k.lifetime > 0
    && (k.witnessed.Some? ==> k.createdAt <= k.witnessed.value <= w.time)
    && (k.retired.Some? ==> k.witnessed.Some? && k.retired.value >= k.witnessed.value + k.lifetime + 5 * SECOND)
  }

  predicate WorldInv(w: World) {
    && (forall n | n in w.posts :: n < w.attempts)
    && (forall n | n in w.keys :: n in w.posts && KeyInv(w, w.keys[n]))
    && (forall b | b in w.boots :: w.boots[b] <= w.time)
  }

  // ---------------------------------------------------------------------------
  // The invariant.

  predicate NoUnknown(rs: seq<Record>) {
    forall i | 0 <= i < |rs| :: !rs[i].state.Unknown?
  }

  /** The record the create operation works on is the last one. */
  predicate Own(l: CleanupLedger, req: Request, binding: string, n: nat) {
    && l.records != []
    && Last(l).attempt == n && Last(l).enrollmentId == req.cmd.id && Last(l).bindingHash == binding
    && Last(l).evidence.None?
  }

  predicate Sent(w: World, req: Request, binding: string, n: nat) {
    n in w.posts && w.posts[n].cmd == req.cmd && w.posts[n].binding == binding
  }

  predicate ReadingPast(w: World, r: Reading) {
    r.bootId in w.boots && w.boots[r.bootId] + r.bootNanos <= w.time
  }

  /** The record's evidence, if any, was read no later than `reading`. */
  predicate ReadBefore(w: World, r: Record, reading: Reading)
    requires ReadingPast(w, reading)
  {
    r.evidence.Some? && r.attempt in w.keys && w.keys[r.attempt].witnessed.Some? ==>
      w.keys[r.attempt].witnessed.value <= w.boots[reading.bootId] + reading.bootNanos
  }

  predicate ReadingFits(w: World, reading: Option<Reading>, rs: seq<Record>) {
    reading.Some? ==>
      ReadingPast(w, reading.value) && forall i | 0 <= i < |rs| :: ReadBefore(w, rs[i], reading.value)
  }

  predicate OpInv(s: State) {
    match s.op
    case Admitted(_, _) => NoUnknown(s.mem.records)
    case Fenced(_, _) => NoUnknown(s.mem.records)
    case Recorded(req, binding, n) =>
      && Own(s.mem, req, binding, n) && Last(s.mem).state.Unknown?
      && NoUnknown(s.mem.records[..|s.mem.records| - 1])
      && s.disk == Disk(s.mem, {s.mem})
      && n < s.world.attempts && n !in s.world.posts
    case Posted(req, binding, n) =>
      Own(s.mem, req, binding, n) && Last(s.mem).state.Unknown? && Sent(s.world, req, binding, n)
    case Noted(req, binding, n) =>
      && Own(s.mem, req, binding, n) && Sent(s.world, req, binding, n) && n in s.world.keys
      && (SafeId(Last(s.mem).keyId) ==> Last(s.mem).state.Cleanup?)
    case Validated(req, binding, n, created, expires) =>
      && Own(s.mem, req, binding, n) && Sent(s.world, req, binding, n) && n in s.world.keys
      && Last(s.mem).state.Cleanup?
      && expires - created == s.world.keys[n].lifetime
      && (Last(s.mem).expires.at == Some(expires) || Last(s.mem).expires.at.None?)
    case Sweeping(_, reading, kept, todo) =>
      Book(s.world, kept + todo) && ReadingFits(s.world, reading, kept + todo)
    case _ => true
  }

  /** The file, and whatever a power loss may leave, keeps the books. */
  predicate DiskBook(w: World, d: Disk) {
    d.visible in d.survivors && forall l | l in d.survivors :: Book(w, l.records)
  }

  predicate Inv(s: State) {
    && WorldInv(s.world) && Rebooted(s)
    && DiskBook(s.world, s.disk)
    && (s.up ==> Book(s.world, s.mem.records) && OpInv(s))
  }

  // ---------------------------------------------------------------------------
  // Carrying a ledger over.

  /** `r'` stands for the same attempt as `r`. */
  predicate Keeps(w: World, r: Record, r': Record) {
    && r'.attempt == r.attempt && r'.enrollmentId == r.enrollmentId && r'.bindingHash == r.bindingHash
    && (r'.state.Unknown? || (r.attempt in w.keys && r'.keyId == w.keys[r.attempt].id))
  }

  predicate Carried(w: World, r: Record, rs: seq<Record>) {
    Settled(w, r.attempt) || exists j :: 0 <= j < |rs| && Keeps(w, r, rs[j])
  }

  lemma BookTransfer(w: World, w': World, rs: seq<Record>, rs': seq<Record>)
    requires Later(w, w') && Book(w, rs)
    requires forall i | 0 <= i < |rs| :: Carried(w', rs[i], rs')
    requires AllSound(w', rs')
    ensures Book(w', rs')
  {
    forall n | n in w'.posts
      ensures Settled(w', n) || Tracked(w', rs', n)
    {
      if Settled(w, n) {
        assert KeyLater(w.keys[n], w'.keys[n]);
      } else {
        assert Tracked(w, rs, n);
        var i :| 0 <= i < |rs| && Tracks(w, rs[i], n);
        assert Carried(w', rs[i], rs');
        if !Settled(w', n) {
          var j :| 0 <= j < |rs'| && Keeps(w', rs[i], rs'[j]);
          assert Tracks(w', rs'[j], n);
        }
      }
    }
  }

  lemma SoundLater(w: World, w': World, r: Record)
    requires Later(w, w') && Sound(w, r)
    ensures Sound(w', r)
  {
    if r.attempt in w.keys {
      assert KeyLater(w.keys[r.attempt], w'.keys[r.attempt]);
    }
  }

  lemma SelfCarried(w: World, rs: seq<Record>, i: nat)
    requires i < |rs| && Sound(w, rs[i])
    ensures Carried(w, rs[i], rs)
  {
    assert Keeps(w, rs[i], rs[i]);
  }

  lemma BookLater(w: World, w': World, rs: seq<Record>)
    requires Later(w, w') && Book(w, rs)
    ensures Book(w', rs)
  {
    forall i | 0 <= i < |rs|
      ensures Sound(w', rs[i]) && Carried(w', rs[i], rs)
    {
      SoundLater(w, w', rs[i]);
      SelfCarried(w', rs, i);
    }
    BookTransfer(w, w', rs, rs);
  }

  /** A record-wise change that keeps every record's attempt. */
  lemma BookMapped(w: World, rs: seq<Record>, rs': seq<Record>)
    requires Book(w, rs) && |rs'| == |rs|
    requires forall i | 0 <= i < |rs| :: Keeps(w, rs[i], rs'[i]) && Sound(w, rs'[i])
    ensures Book(w, rs')
  {
    forall i | 0 <= i < |rs|
      ensures Carried(w, rs[i], rs')
    {
      assert Keeps(w, rs[i], rs'[i]);
    }
    BookTransfer(w, w, rs, rs');
  }

  lemma BookReplaced(w: World, rs: seq<Record>, k: nat, r: Record)
    requires Book(w, rs) && k < |rs| && Keeps(w, rs[k], r) && Sound(w, r)
    ensures Book(w, rs[k := r])
  {
    forall i | 0 <= i < |rs|
      ensures Keeps(w, rs[i], rs[k := r][i]) && Sound(w, rs[k := r][i])
    {
      assert Sound(w, rs[i]);
    }
    BookMapped(w, rs, rs[k := r]);
  }

  lemma BookGrown(w: World, rs: seq<Record>, r: Record)
    requires Book(w, rs) && Sound(w, r)
    ensures Book(w, rs + [r])
  {
    forall i | 0 <= i < |rs|
      ensures Carried(w, rs[i], rs + [r])
    {
      assert (rs + [r])[i] == rs[i];
      SelfCarried(w, rs + [r], i);
    }
    BookTransfer(w, w, rs, rs + [r]);
  }

  lemma BookWithout(w: World, rs: seq<Record>, k: nat)
    requires Book(w, rs) && k < |rs| && Settled(w, rs[k].attempt)
    ensures Book(w, rs[..k] + rs[k + 1..])
  {
    var rs' := rs[..k] + rs[k + 1..];
    forall i | 0 <= i < |rs|
      ensures Carried(w, rs[i], rs')
    {
      if i != k {
        var j := if i < k then i else i - 1;
        assert rs'[j] == rs[i];
        SelfCarried(w, rs', j);
      }
    }
    BookTransfer(w, w, rs, rs');
  }

  // ---------------------------------------------------------------------------
  // Steps keep the invariant.

  lemma DiskLater(w: World, w': World, d: Disk)
    requires Later(w, w') && DiskBook(w, d)
    ensures DiskBook(w', d)
  {
    forall l | l in d.survivors
      ensures Book(w', l.records)
    {
      BookLater(w, w', l.records);
    }
  }

  lemma WorldMoves(s: State, w: World)
    requires Inv(s) && Later(s.world, w) && WorldInv(w)
    ensures Inv(s.(world := w))
  {
    DiskLater(s.world, w, s.disk);
    if s.up {
      BookLater(s.world, w, s.mem.records);
      OpMoves(s, w);
    }
  }

  lemma OpChanges(s: State, w: World, op: Op)
    requires Inv(s) && s.up && Later(s.world, w) && WorldInv(w)
    requires OpInv(s.(world := w, op := op))
    ensures Inv(s.(world := w, op := op))
  {
    DiskLater(s.world, w, s.disk);
    BookLater(s.world, w, s.mem.records);
  }

  lemma OpMoves(s: State, w: World)
    requires OpInv(s) && Later(s.world, w)
    ensures OpInv(s.(world := w))
  {
    match s.op
    case Sweeping(_, reading, kept, todo) =>
      BookLater(s.world, w, kept + todo);
      FitsLater(s.world, w, reading, kept + todo);
    case Validated(_, _, n, _, _) => assert KeyLater(s.world.keys[n], w.keys[n]);
    case _ =>
  }

  lemma FitsLater(w: World, w': World, reading: Option<Reading>, rs: seq<Record>)
    requires Later(w, w') && AllSound(w, rs) && ReadingFits(w, reading, rs)
    ensures ReadingFits(w', reading, rs)
  {
    if reading.Some? {
      forall i | 0 <= i < |rs|
        ensures ReadBefore(w', rs[i], reading.value)
      {
        assert Sound(w, rs[i]) && ReadBefore(w, rs[i], reading.value);
        if rs[i].evidence.Some? {
          assert KeyLater(w.keys[rs[i].attempt], w'.keys[rs[i].attempt]);
        }
      }
    }
  }

  lemma CommitKeeps(s: State, l: CleanupLedger, out: SaveResult, next: Op)
    requires Inv(s) && Book(s.world, l.records)
    requires out.Saved? ==> OpInv(Commit(s, l, out, next))
    ensures Inv(Commit(s, l, out, next))
  {
  }

  /** A save that ends the operation, together with a change of the world. */
  lemma SaveKeeps(s: State, w: World, l: CleanupLedger, out: SaveResult)
    requires Inv(s) && Later(s.world, w) && WorldInv(w) && Book(w, l.records)
    ensures Inv(Commit(s.(world := w), l, out, Idle))
  {
    WorldMoves(s, w);
    CommitKeeps(s.(world := w), l, out, Idle);
  }

  lemma DeletedIsLater(w: World, id: string, binding: string)
    requires WorldInv(w)
    ensures Later(w, Deleted(w, id, binding)) && WorldInv(Deleted(w, id, binding))
  {
    var w' := Deleted(w, id, binding);
    forall n | n in w'.keys
      ensures n in w'.posts && KeyInv(w', w'.keys[n])
    {
      assert KeyInv(w, w.keys[n]);
    }
  }

  lemma WitnessedIsLater(w: World, n: nat)
    requires WorldInv(w)
    ensures Later(w, Witnessed(w, n)) && WorldInv(Witnessed(w, n))
    ensures n in w.keys ==> Witnessed(w, n).keys[n].witnessed.Some?
    ensures n in w.keys ==> Witnessed(w, n).keys[n].witnessed.value <= w.time
  {
    if n in w.keys {
      assert KeyInv(w, w.keys[n]);
    }
  }

  /** The step that drops a record as expired: its key's lifetime and five seconds have passed. */
  lemma ExpiredIsPast(w: World, r: Record, reading: Reading)
    requires WorldInv(w) && Sound(w, r) && ReadingPast(w, reading) && Expired(r, reading)
    ensures r.attempt in w.keys && w.keys[r.attempt].witnessed.Some?
    ensures w.time >= w.keys[r.attempt].witnessed.value + w.keys[r.attempt].lifetime + 5 * SECOND
    ensures Settled(w, r.attempt)
  {
    assert KeyInv(w, w.keys[r.attempt]);
    assert EvidenceSound(w, r.evidence.value, w.keys[r.attempt]);
  }

  lemma RetiredIsLater(w: World, r: Record, reading: Reading)
    requires WorldInv(w) && Sound(w, r) && ReadingPast(w, reading) && Expired(r, reading)
    ensures Later(w, Retired(w, r.attempt)) && WorldInv(Retired(w, r.attempt))
    ensures Settled(Retired(w, r.attempt), r.attempt)
  {
    ExpiredIsPast(w, r, reading);
    assert KeyInv(w, w.keys[r.attempt]);
  }

  lemma RestartKeeps(s: State, out: SaveResult)
    requires Inv(s)
    ensures Inv(MachineStep(s, Restart(out)))
  {
    if !s.up && LedgerValid(s.disk.visible) {
      var rs := s.disk.visible.records;
      var rs' := DemoteAll(rs);
      forall i | 0 <= i < |rs|
        ensures Keeps(s.world, rs[i], rs'[i]) && Sound(s.world, rs'[i])
      {
        assert Sound(s.world, rs[i]);
      }
      BookMapped(s.world, rs, rs');
    }
  }

  lemma RebootKeeps(s: State, id: string, left: CleanupLedger)
    requires Inv(s)
    ensures Inv(MachineStep(s, Reboot(id, left)))
  {
    if SafeId(id) && id !in s.world.boots && left in s.disk.survivors {
      WorldMoves(Stop(s).(disk := Disk(left, {left})), s.world.(boots := s.world.boots[id := s.world.time]));
    }
  }

  lemma NewKeyIsLater(s: State, n: nat, id: string, lifetime: int)
    requires WorldInv(s.world)
    ensures var w := MachineStep(s, CreateKey(n, id, lifetime)).world; Later(s.world, w) && WorldInv(w)
  {
  }

  lemma TimePasses(s: State, d: nat)
    requires Inv(s)
    ensures Inv(s.(world := s.world.(time := s.world.time + d)))
  {
    WorldMoves(s, s.world.(time := s.world.time + d));
  }

  lemma NewKeyKeeps(s: State, n: nat, id: string, lifetime: int)
    requires Inv(s)
    ensures Inv(MachineStep(s, CreateKey(n, id, lifetime)))
  {
    NewKeyIsLater(s, n, id, lifetime);
    WorldMoves(s, MachineStep(s, CreateKey(n, id, lifetime)).world);
  }

  lemma MachineKeeps(s: State, e: Event)
    requires Inv(s) && MachineEvent(e)
    ensures Inv(MachineStep(s, e))
  {
    match e
    case Tick(d) => TimePasses(s, d);
    case Sleep(d) => TimePasses(s, d);
    case Reboot(id, left) => RebootKeeps(s, id, left);
    case Restart(out) => RestartKeeps(s, out);
    case CreateKey(n, id, lifetime) => NewKeyKeeps(s, n, id, lifetime);
    case _ =>
  }

  lemma CreateKeeps(s: State, e: Event)
    requires Inv(s) && CreateEvent(e) && s.up
    ensures Inv(CreateStep(s, e))
  {
    match e
    case FenceCreate(out) =>
      if s.op.Admitted? {
        var a := FenceAttempt(s.mem.fences, s.op.req.cmd.id, false, Now(s));
        if a.admitted {
          CommitKeeps(s, s.mem.(fences := a.fences), out, Fenced(s.op.req, s.op.binding));
        }
      }
    case WriteUnknown(out) => WriteUnknownKeeps(s, out);
    case SendPost => SendPostKeeps(s);
    case _ =>
  }

  lemma WriteUnknownKeeps(s: State, out: SaveResult)
    requires Inv(s) && s.up
    ensures Inv(CreateStep(s, WriteUnknown(out)))
  {
    if s.op.Fenced? {
      var n, cmd := s.world.attempts, s.op.req.cmd;
      var r := Record(cmd.id, s.op.binding, "", Stamp("", None), Unknown, cmd.deadline, None, n);
      var w := s.world.(attempts := n + 1);
      var l := s.mem.(records := s.mem.records + [r]);
      var next := Recorded(s.op.req, s.op.binding, n);
      assert CreateStep(s, WriteUnknown(out)) == Commit(s.(world := w), l, out, next);
      assert l.records[..|l.records| - 1] == s.mem.records;
      BookLater(s.world, w, s.mem.records);
      BookGrown(w, s.mem.records, r);
      WorldMoves(s, w);
      CommitKeeps(s.(world := w), l, out, next);
    }
  }

  /** A POST goes out only once its unknown record is saved, so the new attempt is tracked at once. */
  lemma SendPostKeeps(s: State)
    requires Inv(s) && s.up
    ensures Inv(CreateStep(s, SendPost))
  {
    if s.op.Recorded? && s.mono < s.op.req.due {
      var s' := CreateStep(s, SendPost);
      var n := s.op.n;
      BookWithPost(s.world, s'.world, s.mem.records, n);
    }
  }

  lemma BookWithPost(w: World, w': World, rs: seq<Record>, n: nat)
    requires Book(w, rs) && WorldInv(w) && n !in w.posts && n in w'.posts
    requires w' == w.(posts := w.posts[n := w'.posts[n]])
    requires rs != [] && Tracks(w', rs[|rs| - 1], n)
    ensures Book(w', rs)
  {
    forall m | m in w'.posts
      ensures Settled(w', m) || Tracked(w', rs, m)
    {
      if m == n {
        assert Tracks(w', rs[|rs| - 1], n);
      } else if !Settled(w, m) {
        assert Tracked(w, rs, m);
        var i :| 0 <= i < |rs| && Tracks(w, rs[i], m);
        assert Tracks(w', rs[i], m);
      }
    }
    forall i | 0 <= i < |rs|
      ensures Sound(w', rs[i])
    {
      assert Sound(w, rs[i]);
    }
  }

  lemma RespondKeeps(s: State, id: string, stamp: Stamp, out: SaveResult, deleted: bool)
    requires Inv(s) && s.up && s.mem.records != []
    ensures Inv(ResponseStep(s, Respond(id, stamp, out, deleted)))
  {
    if s.op.Posted? && s.op.n in s.world.keys && (id == s.world.keys[s.op.n].id || !SafeId(id)) {
      var k := |s.mem.records| - 1;
      var r' := Noting(Last(s.mem), id, stamp);
      BookReplaced(s.world, s.mem.records, k, r');
      var next := Noted(s.op.req, s.op.binding, s.op.n);
      CommitKeeps(s, WithLast(s.mem, r'), out, next);
      if !out.Saved? && deleted && SafeId(r'.keyId) {
        DeletedIsLater(s.world, r'.keyId, s.op.binding);
        WorldMoves(Commit(s, WithLast(s.mem, r'), out, next), Deleted(s.world, r'.keyId, s.op.binding));
      }
    }
  }

  lemma RejectKeeps(s: State, out: SaveResult)
    requires Inv(s) && s.up && s.mem.records != []
    ensures Inv(ResponseStep(s, Reject(out)))
  {
    var r := Last(s.mem);
    if s.op.Noted? && SafeId(r.keyId) {
      var k := |s.mem.records| - 1;
      var w := Deleted(s.world, r.keyId, s.op.binding);
      var l := s.mem.(records := s.mem.records[..k]);
      assert r.state.Cleanup? && r.bindingHash == s.op.binding;
      RejectIs(s, out);
      DeletedIsLater(s.world, r.keyId, s.op.binding);
      LastDeleted(s.world, s.mem.records, s.op.binding);
      SaveKeeps(s, w, l, out);
    }
  }

  lemma RejectIs(s: State, out: SaveResult)
    requires s.up && Rebooted(s) && s.mem.records != [] && s.op.Noted? && SafeId(Last(s.mem).keyId)
    ensures ResponseStep(s, Reject(out))
         == Commit(s.(world := Deleted(s.world, Last(s.mem).keyId, s.op.binding)),
                   s.mem.(records := s.mem.records[..|s.mem.records| - 1]), out, Idle)
  {
  }

  /** The last record's key is confirmed deleted, so the record may go. */
  lemma LastDeleted(w: World, rs: seq<Record>, binding: string)
    requires WorldInv(w) && Book(w, rs) && rs != []
    requires var r := rs[|rs| - 1]; !r.state.Unknown? && r.bindingHash == binding
    ensures Book(Deleted(w, rs[|rs| - 1].keyId, binding), rs[..|rs| - 1])
  {
    var k := |rs| - 1;
    var w' := Deleted(w, rs[k].keyId, binding);
    assert Sound(w, rs[k]);
    DeletedIsLater(w, rs[k].keyId, binding);
    BookLater(w, w', rs);
    BookWithout(w', rs, k);
    assert rs[..k] + rs[k + 1..] == rs[..k];
  }

  lemma ActivateKeeps(s: State, clock: bool, out: SaveResult, deleted: bool)
    requires Inv(s) && s.up && s.mem.records != []
    ensures Inv(ResponseStep(s, Activate(clock, out, deleted)))
  {
    if s.op.Validated? {
      var w := ActivateWorld(s, clock, out, deleted);
      var l := WithLast(s.mem, Activated(s, Last(s.mem), s.op.created, s.op.expires, clock));
      ActivateIs(s, clock, out, deleted, l);
      ActivateIsLater(s, clock, out, deleted);
      ActivatedBook(s, w, clock);
      SaveKeeps(s, w, l, out);
    }
  }

  function ActivateWorld(s: State, clock: bool, out: SaveResult, deleted: bool): World
    requires s.op.Validated? && s.mem.records != []
  {
    var w := if clock then Witnessed(s.world, s.op.n) else s.world;
    if !out.Saved? && deleted then Deleted(w, Last(s.mem).keyId, s.op.binding) else w
  }

  lemma ActivateIsLater(s: State, clock: bool, out: SaveResult, deleted: bool)
    requires WorldInv(s.world) && s.op.Validated? && s.mem.records != [] && s.op.n in s.world.keys
    ensures var w := ActivateWorld(s, clock, out, deleted);
            && Later(s.world, w) && WorldInv(w) && w.time == s.world.time
            && (clock ==> w.keys[s.op.n].witnessed.Some? && w.keys[s.op.n].witnessed.value <= w.time)
  {
    var w := if clock then Witnessed(s.world, s.op.n) else s.world;
    var w' := ActivateWorld(s, clock, out, deleted);
    WitnessedIsLater(s.world, s.op.n);
    DeletedIsLater(w, Last(s.mem).keyId, s.op.binding);
    LaterTwice(s.world, w, w');
    assert KeyLater(w.keys[s.op.n], w'.keys[s.op.n]);
  }

  lemma ActivateIs(s: State, clock: bool, out: SaveResult, deleted: bool, l: CleanupLedger)
    requires Rebooted(s) && s.up && s.mem.records != [] && s.op.Validated?
    requires l == WithLast(s.mem, Activated(s, Last(s.mem), s.op.created, s.op.expires, clock))
    ensures ResponseStep(s, Activate(clock, out, deleted))
         == Commit(s.(world := ActivateWorld(s, clock, out, deleted)), l, out, Idle)
  {
  }

  lemma LaterTwice(a: World, b: World, c: World)
    requires Later(a, b) && Later(b, c)
    ensures Later(a, c)
  {
    forall n | n in a.keys
      ensures n in c.keys && KeyLater(a.keys[n], c.keys[n])
    {
      assert KeyLater(a.keys[n], b.keys[n]) && KeyLater(b.keys[n], c.keys[n]);
    }
  }

  lemma ActivatedBook(s: State, w: World, clock: bool)
    requires Inv(s) && s.up && s.op.Validated?
    requires Later(s.world, w) && w.time == s.world.time
    requires clock ==> w.keys[s.op.n].witnessed.Some? && w.keys[s.op.n].witnessed.value <= w.time
    ensures Book(w, WithLast(s.mem, Activated(s, Last(s.mem), s.op.created, s.op.expires, clock)).records)
  {
    var k := |s.mem.records| - 1;
    assert Sound(s.world, s.mem.records[k]);
    SoundLater(s.world, w, s.mem.records[k]);
    assert KeyLater(s.world.keys[s.op.n], w.keys[s.op.n]);
    BookLater(s.world, w, s.mem.records);
    BookReplaced(w, s.mem.records, k, Activated(s, Last(s.mem), s.op.created, s.op.expires, clock));
  }

  lemma ResponseKeeps(s: State, e: Event)
    requires Inv(s) && ResponseEvent(e) && s.up && s.mem.records != []
    ensures Inv(ResponseStep(s, e))
  {
    match e
    case Respond(id, stamp, out, deleted) => RespondKeeps(s, id, stamp, out, deleted);
    case Reject(out) => RejectKeeps(s, out);
    case Activate(clock, out, deleted) => ActivateKeeps(s, clock, out, deleted);
    case Validate(created, expires) =>
      if s.op.Noted? && SafeId(Last(s.mem).keyId) {
        assert Last(s.mem).state.Cleanup?;
      }
  }

  /** The record at the head of the pass is dropped: its attempt is settled. */
  lemma SweepDrops(s: State, w: World)
    requires Inv(s) && s.up && s.op.Sweeping? && s.op.todo != []
    requires Later(s.world, w) && WorldInv(w) && Settled(w, s.op.todo[0].attempt)
    ensures Inv(s.(world := w, op := s.op.(todo := s.op.todo[1..])))
  {
    assert OpInv(s);
    match s.op
    case Sweeping(binding, reading, kept, todo) =>
      HeadDropped(s.world, w, reading, kept, todo);
      OpChanges(s, w, Sweeping(binding, reading, kept, todo[1..]));
  }

  lemma HeadDropped(w: World, w': World, reading: Option<Reading>, kept: seq<Record>, todo: seq<Record>)
    requires todo != [] && Book(w, kept + todo) && ReadingFits(w, reading, kept + todo)
    requires Later(w, w') && Settled(w', todo[0].attempt)
    ensures Book(w', kept + todo[1..]) && ReadingFits(w', reading, kept + todo[1..])
  {
    var all, k := kept + todo, |kept|;
    BookLater(w, w', all);
    FitsLater(w, w', reading, all);
    BookWithout(w', all, k);
    FitsWithout(w', reading, all, k);
    assert all[..k] + all[k + 1..] == kept + todo[1..];
  }

  lemma FitsWithout(w: World, reading: Option<Reading>, rs: seq<Record>, k: nat)
    requires k < |rs| && ReadingFits(w, reading, rs)
    ensures ReadingFits(w, reading, rs[..k] + rs[k + 1..])
  {
    if reading.Some? {
      var rest := rs[..k] + rs[k + 1..];
      forall i | 0 <= i < |rest|
        ensures ReadBefore(w, rest[i], reading.value)
      {
        assert ReadBefore(w, rs[if i < k then i else i + 1], reading.value);
      }
    }
  }

  /** The record at the head of the pass is kept. */
  lemma SweepHolds(s: State, r: Record)
    requires Inv(s) && s.up && s.op.Sweeping? && s.op.todo != []
    requires r == s.op.todo[0] || (s.op.reading.Some? && r == Rebased(s.op.todo[0], s.op.reading.value))
    ensures Inv(s.(op := s.op.(kept := s.op.kept + [r], todo := s.op.todo[1..])))
  {
    var all, k := s.op.kept + s.op.todo, |s.op.kept|;
    assert all[k] == s.op.todo[0] && Sound(s.world, all[k]);
    assert ReadingFits(s.world, s.op.reading, [all[k]]);
    RebasedSound(s.world, all[k], s.op.reading);
    BookReplaced(s.world, all, k, r);
    assert (s.op.kept + [r]) + s.op.todo[1..] == all[k := r];
  }

  lemma SweepKeeps(s: State, deleted: bool)
    requires Inv(s) && s.up && s.op.Sweeping? && s.op.todo != []
    ensures Inv(Swept(s, deleted))
  {
    var r := s.op.todo[0];
    assert (s.op.kept + s.op.todo)[|s.op.kept|] == r;
    assert Sound(s.world, r);
    if r.bindingHash != s.op.binding || !r.state.Cleanup? || !SafeId(r.keyId) {
      SweepHolds(s, r);
    } else if s.op.reading.Some? && Expired(r, s.op.reading.value) {
      RetiredIsLater(s.world, r, s.op.reading.value);
      SweepDrops(s, Retired(s.world, r.attempt));
    } else if deleted {
      DeletedIsLater(s.world, r.keyId, s.op.binding);
      SweepDrops(s, Deleted(s.world, r.keyId, s.op.binding));
    } else {
      SweepHolds(s, if s.op.reading.Some? then Rebased(r, s.op.reading.value) else r);
    }
  }

  /** Rebasing starts a fresh wait: the reading's instant is not before the receipt. */
  lemma RebasedSound(w: World, r: Record, reading: Option<Reading>)
    requires Sound(w, r) && ReadingFits(w, reading, [r])
    ensures reading.Some? ==> Sound(w, Rebased(r, reading.value))
  {
    if reading.Some? {
      assert ReadBefore(w, [r][0], reading.value);
    }
  }

  lemma CleanKeeps(s: State, e: Event)
    requires Inv(s) && s.up
    ensures Inv(CleanStep(s, e))
  {
    match e
    case Cancel(id, out) => CancelKeeps(s, id, out);
    case Mark(out, nows) => MarkKeeps(s, out, nows);
    case StartSweep(binding, clock) =>
      if s.op.Marked? {
        StartSweepKeeps(s, binding, clock);
      }
    case SweepOne(deleted) =>
      if s.op.Sweeping? && s.op.todo != [] {
        SweepKeeps(s, deleted);
      }
    case FinishSweep(out) =>
      if s.op.Sweeping? && s.op.todo == [] {
        assert s.op.kept + s.op.todo == s.op.kept;
        CommitKeeps(s, s.mem.(records := s.op.kept), out, Idle);
      }
    case _ =>
  }

  lemma CancelKeeps(s: State, id: string, out: SaveResult)
    requires Inv(s) && s.up
    ensures Inv(CleanStep(s, Cancel(id, out)))
  {
    if s.op.Idle? && !s.broken && SafeId(id) {
      var a := FenceAttempt(s.mem.fences, id, true, Now(s));
      if a.admitted {
        var cancelled := if out.Saved? then set c | c in s.received && c.id == id else {};
        var s' := s.(spent := s.spent + cancelled);
        assert CleanStep(s, Cancel(id, out)) == Commit(s', s.mem.(fences := a.fences), out, Marking(id, false));
        CommitKeeps(s', s.mem.(fences := a.fences), out, Marking(id, false));
      }
    }
  }

  lemma StartSweepKeeps(s: State, binding: string, clock: bool)
    requires Inv(s) && s.up && s.op.Marked?
    ensures Inv(CleanStep(s, StartSweep(binding, clock)))
  {
    assert [] + s.mem.records == s.mem.records;
    ReadingNowFits(s);
  }

  lemma ReadingNowFits(s: State)
    requires Inv(s) && s.up
    ensures ReadingFits(s.world, Some(Now(s)), s.mem.records)
  {
    forall i | 0 <= i < |s.mem.records|
      ensures ReadBefore(s.world, s.mem.records[i], Now(s))
    {
      var n := s.mem.records[i].attempt;
      if n in s.world.keys {
        assert KeyInv(s.world, s.world.keys[n]);
      }
    }
  }

  lemma MarkKeeps(s: State, out: SaveResult, nows: seq<int>)
    requires Inv(s) && s.up
    ensures Inv(CleanStep(s, Mark(out, nows)))
  {
    if s.op.Marking? && |nows| == |s.mem.records| {
      var rs := s.mem.records;
      var rs' := MarkAll(rs, s.op.id, s.op.all, nows);
      forall i | 0 <= i < |rs|
        ensures Keeps(s.world, rs[i], rs'[i]) && Sound(s.world, rs'[i])
      {
        assert Sound(s.world, rs[i]);
      }
      BookMapped(s.world, rs, rs');
      CommitKeeps(s, s.mem.(records := rs'), out, Marked);
    }
  }

  lemma StepKeeps(s: State, e: Event)
    requires Inv(s)
    ensures Inv(Step(s, e))
  {
    if MachineEvent(e) {
      MachineKeeps(s, e);
    } else if s.up {
      if CreateEvent(e) {
        CreateKeeps(s, e);
      } else if ResponseEvent(e) {
        if s.mem.records != [] {
          ResponseKeeps(s, e);
        }
      } else {
        CleanKeeps(s, e);
      }
    }
  }

  lemma {:induction false} RunKeeps(s: State, es: seq<Event>)
    requires Inv(s)
    ensures Inv(Run(s, es))
    decreases |es|
  {
    if es != [] {
      RunKeeps(s, es[..|es| - 1]);
      StepKeeps(Run(s, es[..|es| - 1]), es[|es| - 1]);
    }
  }

  lemma StartInv(bootId: string, wall: int)
    ensures Inv(Start(bootId, wall))
  {
  }

  // ---------------------------------------------------------------------------
  // The theorems.

  /** A ledger has a record for every key that may still be used. */
  predicate Remembers(w: World, l: CleanupLedger) {
    forall n | n in w.keys && !w.keys[n].gone && w.time < w.keys[n].createdAt + w.keys[n].lifetime ::
      n in w.posts && Tracked(w, l.records, n)
  }

  /** No key is forgotten, by the file a restart reads, by what survives a power loss, or by memory. */
  lemma NoKeyForgotten(bootId: string, wall: int, es: seq<Event>)
    ensures var s := Run(Start(bootId, wall), es);
            && Remembers(s.world, s.disk.visible)
            && (forall l | l in s.disk.survivors :: Remembers(s.world, l))
            && (s.up ==> Remembers(s.world, s.mem))
  {
    StartInv(bootId, wall);
    RunKeeps(Start(bootId, wall), es);
  }

  /** A key whose record was retired as expired had been gone for five seconds by then, whatever the
      wall clock did and however often the machine rebooted. */
  lemma RetirementIsLate(bootId: string, wall: int, es: seq<Event>, n: nat)
    ensures var w := Run(Start(bootId, wall), es).world;
            n in w.keys && w.keys[n].retired.Some? ==>
              w.keys[n].witnessed.Some?
              && w.keys[n].createdAt <= w.keys[n].witnessed.value
              && w.keys[n].retired.value >= w.keys[n].witnessed.value + w.keys[n].lifetime + 5 * SECOND
  {
    StartInv(bootId, wall);
    RunKeeps(Start(bootId, wall), es);
    var w := Run(Start(bootId, wall), es).world;
    if n in w.keys {
      assert KeyInv(w, w.keys[n]);
    }
  }

  /** A POST is sent only while its own unknown record, saved, is the only unknown one. */
  lemma PostIsAlone(bootId: string, wall: int, es: seq<Event>)
    ensures var s := Run(Start(bootId, wall), es);
            var s' := Step(s, SendPost);
            s'.world.posts != s.world.posts ==>
              var l := s.disk.visible;
              && s.disk.survivors == {l} && l.records != [] && Last(l).state.Unknown?
              && Last(l).attempt !in s.world.posts && Last(l).attempt in s'.world.posts
              && NoUnknown(l.records[..|l.records| - 1])
  {
    StartInv(bootId, wall);
    RunKeeps(Start(bootId, wall), es);
    SendPostAlone(Run(Start(bootId, wall), es));
  }

  lemma SendPostAlone(s: State)
    requires s.up ==> OpInv(s)
    ensures var s' := Step(s, SendPost);
            s'.world.posts != s.world.posts ==>
              var l := s.disk.visible;
              && s.disk.survivors == {l} && l.records != [] && Last(l).state.Unknown?
              && Last(l).attempt !in s.world.posts && Last(l).attempt in s'.world.posts
              && NoUnknown(l.records[..|l.records| - 1])
  {
    if s.up && s.op.Recorded? {
      assert s.disk.visible == s.mem;
    }
  }
}
