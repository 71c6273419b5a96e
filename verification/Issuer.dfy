/**
 The key issuer as a state machine. Each step is one effect of the helper process (a ledger save, a
 request to the control plane, a response), of the control plane, or of the machine it runs on; the
 issuer's mutex lets at most one operation be under way. A step that is not enabled changes nothing.
 */
module Issuer {
  import opened Common
  import opened Ledger

  datatype Command = Command(id: string, deadline: int)

  /** A create command being handled; its context ends at `due` on the monotonic clock, which stands still while
      the machine sleeps. */
  datatype Request = Request(cmd: Command, due: int)

  /** A key POST that was sent. `repeat`: the command had been POSTed or cancelled before; `gain`: how much the
      wall clock gained on the monotonic clock since the command was received. */
  datatype Post = Post(cmd: Command, binding: string, wall: int, repeat: bool, gain: int)

  /** A key at the control plane. `witnessed` and `retired` are history: when the receipt evidence was
      read, and when the record was dropped as expired. */
  datatype Key = Key(
    id: string,
    createdAt: nat,
    lifetime: int,
    gone: bool,
    witnessed: Option<nat>,
    retired: Option<nat>)

  /** Real time, the boots so far with their start times, and the control plane. */
  datatype World = World(
    time: nat,
    boots: map<string, nat>,
    attempts: nat,
    posts: map<nat, Post>,
    keys: map<nat, Key>)

  /** The file as the next start reads it, and every version a power loss may leave in its place. */
  datatype Disk = Disk(visible: CleanupLedger, survivors: set<CleanupLedger>)

  /** How a save ends: written, failed before the rename, or failed after it. */
  datatype SaveResult = Saved | FailedBefore | FailedAfter

  datatype Op =
    | Idle
    | Admitted(req: Request, binding: string)
    | Fenced(req: Request, binding: string)
    | Recorded(req: Request, binding: string, n: nat)
    | Posted(req: Request, binding: string, n: nat)
    | Noted(req: Request, binding: string, n: nat)
    | Validated(req: Request, binding: string, n: nat, created: int, expires: int)
    | Marking(id: string, all: bool)
    | Marked
    | Sweeping(binding: string, reading: Option<Reading>, kept: seq<Record>, todo: seq<Record>)

  datatype State = State(
    world: World,
    wall: int,
    mono: nat,
    bootId: string,
    disk: Disk,
    up: bool,
    mem: CleanupLedger,
    broken: bool,
    op: Op,
    pending: set<Request>,
    received: set<Command>,
    spent: set<Command>)

  datatype Event =
    // the machine
    | Tick(elapsed: nat)
    | Sleep(elapsed: nat)
    | SetWall(instant: int)
    | Crash
    | Reboot(id: string, left: CleanupLedger)
    | Restart(out: SaveResult)
    // the control plane
    | CreateKey(n: nat, id: string, lifetime: int)
    // create commands
    | Receive(cmd: Command)
    | Begin(req: Request, binding: string)
    | FenceCreate(out: SaveResult)
    | WriteUnknown(out: SaveResult)
    | SendPost
    | Respond(id: string, stamp: Stamp, out: SaveResult, deleted: bool)
    | Validate(created: int, expires: int)
    | Reject(out: SaveResult)
    | Activate(clock: bool, out: SaveResult, deleted: bool)
    | GiveUp
    // cancel and cleanup commands
    | Cancel(id: string, out: SaveResult)
    | Clean(all: bool)
    | Mark(out: SaveResult, nows: seq<int>)  // the wall clock, in milliseconds, as read for each record
    | StartSweep(binding: string, clock: bool)
    | SweepOne(deleted: bool)
    | FinishSweep(out: SaveResult)

  // ---------------------------------------------------------------------------
  // Pieces of the steps.

  predicate Rebooted(s: State) {
    s.bootId in s.world.boots && s.world.boots[s.bootId] <= s.world.time
  }

  function Now(s: State): Reading
    requires Rebooted(s)
  {
    Reading(s.wall, s.bootId, s.world.time - s.world.boots[s.bootId])
  }

  /** How far the wall clock is ahead of the monotonic clock. */
  function Lead(s: State): int {
    s.wall - s.mono
  }

  /** The same when the command was received. */
  function ReceiptLead(req: Request): int {
    req.cmd.deadline * MILLI - req.due
  }

  function Written(d: Disk, l: CleanupLedger, out: SaveResult): Disk {
    match out
    case Saved => Disk(l, {l})
    case FailedBefore => d
    case FailedAfter => Disk(l, d.survivors + {l})
  }

  /** Saves a new ledger and goes on to `next`; a failed save breaks the issuer and ends the operation. */
  function Commit(s: State, l: CleanupLedger, out: SaveResult, next: Op): State {
    s.(mem := l,
       disk := Written(s.disk, l, out),
       broken := s.broken || !out.Saved?,
       op := if out.Saved? then next else Idle)
  }

  /** A DELETE that the control plane confirmed; a key of another binding is answered with a 404 and stays. */
  function Deleted(w: World, id: string, binding: string): World {
    w.(keys := map n | n in w.keys ::
         if n in w.posts && w.posts[n].binding == binding && w.keys[n].id == id
         then w.keys[n].(gone := true) else w.keys[n])
  }

  function Last(l: CleanupLedger): Record
    requires l.records != []
  {
    l.records[|l.records| - 1]
  }

  function WithLast(l: CleanupLedger, r: Record): CleanupLedger
    requires l.records != []
  {
    l.(records := l.records[|l.records| - 1 := r])
  }

  function Demoted(r: Record): Record {
    if r.state.Active? then r.(state := Cleanup) else r
  }

  function MarkOne(r: Record, id: string, all: bool, now: int): Record {
    if all || r.enrollmentId == id || now >= r.deadline then Demoted(r) else r
  }

  function MarkAll(rs: seq<Record>, id: string, all: bool, nows: seq<int>): seq<Record>
    requires |nows| == |rs|
  {
    seq(|rs|, i requires 0 <= i < |rs| => MarkOne(rs[i], id, all, nows[i]))
  }

  function DemoteAll(rs: seq<Record>): seq<Record> {
    seq(|rs|, i requires 0 <= i < |rs| => Demoted(rs[i]))
  }

  function Noting(r: Record, id: string, expires: Stamp): Record {
    r.(keyId := if SafeId(id) then id else "",
       state := if SafeId(id) then Cleanup else r.state,
       expires := if |expires.text| > 128 then Stamp("", None) else expires)
  }

  function Stop(s: State): State {
    s.(up := false, op := Idle, pending := {})
  }

  predicate CanAdmit(s: State, req: Request) {
    && s.mono < req.due && UnixMilli(s.wall) < req.cmd.deadline
    && !s.broken && |s.mem.records| < MAX_RECORDS
    && forall i | 0 <= i < |s.mem.records| ::
         !s.mem.records[i].state.Unknown? && s.mem.records[i].enrollmentId != req.cmd.id
  }

  /** The checks on a returned key; `created` and `expires` are the provider's own statement. */
  predicate KeyAcceptable(s: State, r: Record, lifetime: int, created: int, expires: int, deadline: int) {
    && SafeId(r.keyId)
    && (r.expires.at == Some(expires) || r.expires == Stamp("", None))
    && expires - created == lifetime
    && created != ZERO_TIME && expires != ZERO_TIME
    && created <= s.wall + 5 * SECOND
    && 0 < lifetime <= 300 * SECOND
    && s.wall + 30 * SECOND < expires <= s.wall + 300 * SECOND
    && UnixMilli(s.wall) < deadline
  }

  function Activated(s: State, r: Record, created: int, expires: int, clock: bool): Record
    requires Rebooted(s)
  {
    var now := Now(s);
    r.(state := Active,
       deadline := UnixMilli(Min(s.wall + 180 * SECOND, expires)),
       evidence := if clock then Some(Evidence(created, r.expires, UnixMilli(now.wall), now.bootId, now.bootNanos))
                   else r.evidence)
  }

  /** History: the receipt evidence of key `n` is read now. */
  function Witnessed(w: World, n: nat): World {
    if n in w.keys && w.keys[n].witnessed.None?
    then w.(keys := w.keys[n := w.keys[n].(witnessed := Some(w.time))]) else w
  }

  /** History: the record of key `n` is dropped as expired now. */
  function Retired(w: World, n: nat): World {
    if n in w.keys && w.keys[n].retired.None?
    then w.(keys := w.keys[n := w.keys[n].(retired := Some(w.time))]) else w
  }

  /** One record of the cleanup pass. */
  function Swept(s: State, deleted: bool): State
    requires s.op.Sweeping? && s.op.todo != []
  {
    var r, rest := s.op.todo[0], s.op.todo[1..];
    if r.bindingHash != s.op.binding || !r.state.Cleanup? || !SafeId(r.keyId) then
      s.(op := s.op.(kept := s.op.kept + [r], todo := rest))
    else if s.op.reading.Some? && Expired(r, s.op.reading.value) then
      s.(world := Retired(s.world, r.attempt), op := s.op.(todo := rest))
    else if deleted then
      s.(world := Deleted(s.world, r.keyId, s.op.binding), op := s.op.(todo := rest))
    else
      var r' := if s.op.reading.Some? then Rebased(r, s.op.reading.value) else r;
      s.(op := s.op.(kept := s.op.kept + [r'], todo := rest))
  }

  // ---------------------------------------------------------------------------
  // Steps.

  function MachineStep(s: State, e: Event): State {
    match e
    case Tick(d) => s.(world := s.world.(time := s.world.time + d), mono := s.mono + d)
    case Sleep(d) => s.(world := s.world.(time := s.world.time + d))
    case SetWall(w) => s.(wall := w)
    case Crash => Stop(s)
    case Reboot(id, left) =>
      if SafeId(id) && id !in s.world.boots && left in s.disk.survivors then
        Stop(s).(bootId := id, disk := Disk(left, {left}),
                 world := s.world.(boots := s.world.boots[id := s.world.time]))
      else s
    case Restart(out) =>
      if !s.up && LedgerValid(s.disk.visible) then
        var l := s.disk.visible.(records := DemoteAll(s.disk.visible.records));
        Commit(s, l, out, Idle).(up := out.Saved?, broken := false)
      else s
    case CreateKey(n, id, lifetime) =>
      if n in s.world.posts && n !in s.world.keys && lifetime > 0
         && forall m | m in s.world.keys :: s.world.keys[m].id != id
      then s.(world := s.world.(keys := s.world.keys[n := Key(id, s.world.time, lifetime, false, None, None)]))
      else s
    case _ => s
  }

  function CreateStep(s: State, e: Event): State
    requires s.up && Rebooted(s)
  {
    match e
    case Receive(cmd) =>
      var now := UnixMilli(s.wall);
      if SafeId(cmd.id) && now < cmd.deadline <= now + 10000 then
        s.(pending := s.pending + {Request(cmd, s.mono + (cmd.deadline * MILLI - s.wall))},
           received := s.received + {cmd})
      else s
    case Begin(req, binding) =>
      if s.op.Idle? && req in s.pending then
        s.(pending := s.pending - {req},
           op := if |binding| == 64 && CanAdmit(s, req) then Admitted(req, binding) else Idle)
      else s
    case FenceCreate(out) =>
      if s.op.Admitted? then
        var a := FenceAttempt(s.mem.fences, s.op.req.cmd.id, false, Now(s));
        var l := s.mem.(fences := a.fences);
        if a.admitted then Commit(s, l, out, Fenced(s.op.req, s.op.binding)) else s.(mem := l, op := Idle)
      else s
    case WriteUnknown(out) =>
      if s.op.Fenced? then
        var n, cmd := s.world.attempts, s.op.req.cmd;
        var r := Record(cmd.id, s.op.binding, "", Stamp("", None), Unknown, cmd.deadline, None, n);
        Commit(s.(world := s.world.(attempts := n + 1)), s.mem.(records := s.mem.records + [r]), out,
               Recorded(s.op.req, s.op.binding, n))
      else s
    case SendPost =>
      if s.op.Recorded? then
        if s.mono < s.op.req.due then
          var cmd := s.op.req.cmd;
          var p := Post(cmd, s.op.binding, s.wall, cmd in s.spent, Lead(s) - ReceiptLead(s.op.req));
          s.(world := s.world.(posts := s.world.posts[s.op.n := p]),
             spent := s.spent + {cmd},
             op := Posted(s.op.req, s.op.binding, s.op.n))
        else s.(op := Idle)
      else s
    case _ => s
  }

  function ResponseStep(s: State, e: Event): State
    requires s.up && Rebooted(s) && s.mem.records != []
  {
    var r := Last(s.mem);
    match e
    case Respond(id, expires, out, deleted) =>
      if s.op.Posted? && s.op.n in s.world.keys && (id == s.world.keys[s.op.n].id || !SafeId(id)) then
        var r' := Noting(r, id, expires);
        var s' := Commit(s, WithLast(s.mem, r'), out, Noted(s.op.req, s.op.binding, s.op.n));
        if !out.Saved? && deleted && SafeId(r'.keyId)
        then s'.(world := Deleted(s.world, r'.keyId, s.op.binding)) else s'
      else s
    case Validate(created, expires) =>
      if s.op.Noted? && s.op.n in s.world.keys && s.mono < s.op.req.due
         && KeyAcceptable(s, r, s.world.keys[s.op.n].lifetime, created, expires, s.op.req.cmd.deadline)
      then s.(op := Validated(s.op.req, s.op.binding, s.op.n, created, expires))
      else s
    case Reject(out) =>
      if s.op.Noted? && SafeId(r.keyId) then
        Commit(s.(world := Deleted(s.world, r.keyId, s.op.binding)),
               s.mem.(records := s.mem.records[..|s.mem.records| - 1]), out, Idle)
      else s
    case Activate(clock, out, deleted) =>
      if s.op.Validated? then
        var w := if clock then Witnessed(s.world, s.op.n) else s.world;
        Commit(s.(world := if !out.Saved? && deleted then Deleted(w, r.keyId, s.op.binding) else w),
               WithLast(s.mem, Activated(s, r, s.op.created, s.op.expires, clock)), out, Idle)
      else s
    case _ => s
  }

  function CleanStep(s: State, e: Event): State
    requires s.up && Rebooted(s)
  {
    match e
    case GiveUp =>
      if s.op.Validated? || s.op.Marking? || s.op.Sweeping? then s else s.(op := Idle)
    case Cancel(id, out) =>
      if s.op.Idle? && !s.broken && SafeId(id) then
        var a := FenceAttempt(s.mem.fences, id, true, Now(s));
        var l := s.mem.(fences := a.fences);
        if a.admitted then
          var cancelled := if out.Saved? then set c | c in s.received && c.id == id else {};
          Commit(s.(spent := s.spent + cancelled), l, out, Marking(id, false))
        else s.(mem := l)
      else s
    case Clean(all) =>
      if s.op.Idle? && !s.broken then s.(op := Marking("", all)) else s
    case Mark(out, nows) =>
      if s.op.Marking? && |nows| == |s.mem.records|
      then Commit(s, s.mem.(records := MarkAll(s.mem.records, s.op.id, s.op.all, nows)), out, Marked) else s
    case StartSweep(binding, clock) =>
      if s.op.Marked? then
        s.(op := Sweeping(binding, if clock then Some(Now(s)) else None, [], s.mem.records))
      else s
    case SweepOne(deleted) =>
      if s.op.Sweeping? && s.op.todo != [] then Swept(s, deleted) else s
    case FinishSweep(out) =>
      if s.op.Sweeping? && s.op.todo == [] then Commit(s, s.mem.(records := s.op.kept), out, Idle) else s
    case _ => s
  }

  predicate MachineEvent(e: Event) {
    e.Tick? || e.Sleep? || e.SetWall? || e.Crash? || e.Reboot? || e.Restart? || e.CreateKey?
  }

  predicate CreateEvent(e: Event) {
    e.Receive? || e.Begin? || e.FenceCreate? || e.WriteUnknown? || e.SendPost?
  }

  predicate ResponseEvent(e: Event) {
    e.Respond? || e.Validate? || e.Reject? || e.Activate?
  }

  function Step(s: State, e: Event): State {
    if MachineEvent(e) then MachineStep(s, e)
    else if !s.up || !Rebooted(s) then s
    else if CreateEvent(e) then CreateStep(s, e)
    else if ResponseEvent(e) then if s.mem.records != [] then ResponseStep(s, e) else s
    else CleanStep(s, e)
  }

  function Run(s: State, es: seq<Event>): State {
    if es == [] then s else Step(Run(s, es[..|es| - 1]), es[|es| - 1])
  }

  const EMPTY: CleanupLedger := CleanupLedger([], [])

  function Start(bootId: string, wall: int): State {
    State(World(0, map[bootId := 0], 0, map[], map[]), wall, 0, bootId,
          Disk(EMPTY, {EMPTY}), false, EMPTY, false, Idle, {}, {}, {})
  }
}
