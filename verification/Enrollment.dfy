/**
 The phone's enrollment engine as a state machine. Every region the code runs under the permit and
 enrollment locks is one step; everything between two regions can interleave with other operations.
 A step that is not enabled changes nothing.
 */
module Enrollment {
  import opened Common
  import Targets

  /** A scanned invitation. Equal digests are taken to mean equal payloads. */
  datatype Payload = Payload(enrollmentId: string, origin: string, authKey: string, ticket: string)

  /** `claims` counts how often the token was claimed; `stop` is the generation its revocation stops. */
  datatype Permit = Permit(cancelled: bool, claims: nat, stop: Option<nat>)

  /** The permits reserved so far and the current one. `revoking` is the permit whose revocation is under
      way, `forAll` whether that is the first half of a cancellation of everything, and `cancels` how many
      such cancellations have their first half behind them. */
  datatype Desk = Desk(permits: seq<Permit>, current: Option<nat>, revoking: Option<nat>, forAll: bool, cancels: nat)

  datatype Kind = Enrolling(payload: Payload) | Resetting | Confirming(origin: string)

  datatype Pc =
    | Started
    | Read(attempted: bool, same: bool)
    | Cleared
    | Registered
    | Starting
    | Authenticating
    | Running
    | Targeting
    | LoggingOut
    | LoggedOut
    | Returning
    | Closing
    | Done

  /** One claimed operation. `live`: its own context has been neither cancelled nor timed out. */
  datatype Op = Op(kind: Kind, gen: nat, live: bool, pc: Pc)

  /** An installed tunnel; it stays installed after its listener was closed. */
  datatype Tunnel = Tunnel(origin: string, open: bool)

  /** The engine's fields. `owner` is the operation whose cancel function it holds; `mutating` holds the
      runtime's lock for a start of authentication. */
  datatype Shared = Shared(
    owner: Option<nat>,
    resetting: bool,
    tunnel: Option<Tunnel>,
    claimed: bool,
    mutating: Option<nat>)

  /** The private directory: reset fence, registration record, pending record, saved origins. */
  datatype Files = Files(fence: bool, registration: Option<Payload>, pending: bool, targets: set<string>)

  /** History: `lastAuth` is the payload whose key last started authentication with its record in place,
      since the record was last removed; `cleared` says that the record was removed since the runtime's
      lock was taken; `committed` are the operations that committed; `successes` counts commits and binds. */
  datatype History = History(lastAuth: Option<Payload>, cleared: bool, committed: set<nat>, successes: nat)

  datatype State = State(
    desk: Desk,
    generation: nat,
    ops: map<nat, Op>,
    shared: Shared,
    files: Files,
    history: History)

  /** How writing or removing a file ends: done, failed without effect, or failed after the effect. */
  datatype FileResult = Good | NoEffect | Effect

  /** The end of an enrollment's commit: no listener, no document for the tunnel just installed, or both. */
  datatype Handoff = NoListener | NoDocument | Handed

  datatype Event =
    // permits
    | Reserve
    | Claim(pid: nat)
    | Revoke(all: bool)
    | RevokeNone
    | StopRevoked(out: FileResult)
    // whole operations under one lock
    | CancelAll(out: FileResult)
    | Bind(origin: string, reuse: bool, listening: bool)
    // starts
    | EnrollStart(pid: nat, payload: Payload, out: FileResult)
    | ResetStart(pid: nat, out: FileResult)
    | LegacyStart(pid: nat, origin: string)
    // an enrollment
    | ReadRegistration(pid: nat)
    | CheckClaim(pid: nat)
    | Register(pid: nat, out: FileResult)
    | CheckContext(pid: nat)
    | StartAuth(pid: nat)
    | SeeRunning(pid: nat)
    | ClearRegistration(pid: nat, out: FileResult, kept: bool)
    | EnrollCommit(pid: nat, cleared: FileResult, saved: FileResult, handoff: Handoff)
    | Return(pid: nat, out: FileResult)
    // a reset
    | LogOut(pid: nat)
    | ConfirmLogout(pid: nat)
    | ResetCommit(pid: nat, removed: nat, good: bool)
    | ResetReturn(pid: nat)
    // a legacy confirmation
    | LegacyCommit(pid: nat, migrate: bool, out: FileResult)
    // any operation
    | Expire(pid: nat)
    | Fail(pid: nat)
    | Close(pid: nat)
    // the process
    | Restart

  // ---------------------------------------------------------------------------
  // Permits.

  /** The revocation under way stops the current generation. */
  predicate Stops(d: Desk, generation: nat) {
    d.revoking.Some? && d.revoking.value < |d.permits| && d.permits[d.revoking.value].stop == Some(generation)
  }

  function DeskStep(d: Desk, e: Event, generation: nat): Desk {
    match e
    case Reserve =>
      if d.revoking.None?
         && (d.current.None? || (d.current.value < |d.permits| && d.permits[d.current.value].cancelled))
      then d.(permits := d.permits + [Permit(false, 0, None)], current := Some(|d.permits|))
      else d
    case Claim(pid) =>
      if d.revoking.None? && d.current == Some(pid) && pid < |d.permits|
         && d.permits[pid].claims == 0 && !d.permits[pid].cancelled
      then d.(permits := d.permits[pid := d.permits[pid].(claims := d.permits[pid].claims + 1)])
      else d
    case Revoke(all) =>
      if d.revoking.None? && d.current.Some? && d.current.value < |d.permits|
      then d.(permits := d.permits[d.current.value := d.permits[d.current.value].(cancelled := true)],
              revoking := d.current, forAll := all)
      else d
    case RevokeNone =>
      if d.revoking.None? && d.current.None? then d.(cancels := d.cancels + 1) else d
    case StopRevoked(out) =>
      if d.revoking.Some?
      then d.(revoking := None,
              cancels := if d.forAll && (!Stops(d, generation) || out.Good?) then d.cancels + 1 else d.cancels)
      else d
    case _ => d
  }

  /** The permit is claimed, not revoked, and its lock is free. */
  predicate Usable(d: Desk, pid: nat) {
    pid < |d.permits| && d.permits[pid].claims > 0 && d.revoking != Some(pid) && !d.permits[pid].cancelled
  }

  // ---------------------------------------------------------------------------
  // Contexts and generations.

  /** The operation's context: ended by its own cancel function, a timeout, or its permit. */
  predicate ContextLive(s: State, pid: nat) {
    pid in s.ops && s.ops[pid].live && pid < |s.desk.permits| && !s.desk.permits[pid].cancelled
  }

  /** Runs the engine's cancel function, if any. */
  function OwnerCancelled(ops: map<nat, Op>, owner: Option<nat>): map<nat, Op> {
    if owner.Some? && owner.value in ops then ops[owner.value := ops[owner.value].(live := false)] else ops
  }

  function Removed(present: bool, out: FileResult): bool {
    present && out.NoEffect?
  }

  /** The previous operation is cancelled and its tunnel closed. */
  function Silenced(s: State): State {
    s.(ops := OwnerCancelled(s.ops, s.shared.owner), shared := s.shared.(owner := None, tunnel := None))
  }

  function NextGeneration(s: State): State {
    Silenced(s).(generation := s.generation + 1)
  }

  /** `pid` becomes the owner of the current generation. */
  function Owned(s: State, pid: nat, kind: Kind, pc: Pc): State
    requires pid < |s.desk.permits|
  {
    s.(ops := s.ops[pid := Op(kind, s.generation, true, pc)],
       shared := s.shared.(owner := Some(pid)),
       desk := s.desk.(permits := s.desk.permits[pid := s.desk.permits[pid].(stop := Some(s.generation))]))
  }

  predicate CanStart(s: State, pid: nat) {
    Usable(s.desk, pid) && pid !in s.ops
  }

  // ---------------------------------------------------------------------------
  // What an operation sees and does in one of its own steps.

  /** `live`: its context; `current`: its generation is the engine's; `free`: its permit's lock is. */
  datatype View = View(live: bool, current: bool, free: bool, shared: Shared, files: Files, history: History)

  datatype Move = Move(op: Op, shared: Shared, files: Files, history: History)

  function To(op: Op, v: View, pc: Pc): Move {
    Move(op.(pc := pc), v.shared, v.files, v.history)
  }

  function EnrollMove(op: Op, pid: nat, e: Event, v: View): Move
    requires op.kind.Enrolling?
  {
    var payload := op.kind.payload;
    match e
    case ReadRegistration(_) =>
      if op.pc.Started?
      then To(op, v, Read(v.files.registration.Some?, v.files.registration == Some(payload))) else To(op, v, op.pc)
    case CheckClaim(_) =>
      if op.pc.Read? then
        var refused := (op.pc.attempted && !op.pc.same) || (v.shared.claimed && !op.pc.same);
        To(op, v, if refused then Returning else Cleared)
      else To(op, v, op.pc)
    case Register(_, out) =>
      if op.pc.Cleared? then
        if v.current && v.live then
          To(op, v, if out.Good? then Registered else Returning).(
            shared := v.shared.(claimed := v.shared.claimed || out.Good?),
            files := if out.NoEffect? then v.files else v.files.(registration := Some(payload)))
        else To(op, v, Returning)
      else To(op, v, op.pc)
    case CheckContext(_) =>
      // the runtime's lock is taken, then the context looked at
      if op.pc.Registered? && v.shared.mutating.None? then
        if v.live then
          To(op, v, Starting).(shared := v.shared.(mutating := Some(pid)), history := v.history.(cleared := false))
        else To(op, v, Returning)
      else To(op, v, op.pc)
    case StartAuth(_) =>
      // the key reaches the node, whatever became of the context since
      if op.pc.Starting? then
        To(op, v, Authenticating).(
          shared := v.shared.(mutating := None),
          history := if v.files.registration == Some(payload) then v.history.(lastAuth := Some(payload)) else v.history)
      else To(op, v, op.pc)
    case SeeRunning(_) =>
      if op.pc.Started? || op.pc.Authenticating? then To(op, v, Running) else To(op, v, op.pc)
    case ClearRegistration(_, out, kept) =>
      if op.pc.Running? then
        if !v.current then To(op, v, Returning)
        else if out.NoEffect? then To(op, v, Returning)
        else
          To(op, v, if out.Good? && kept then Targeting else Returning).(
            files := v.files.(registration := None),
            history := v.history.(lastAuth := None, cleared := true))
      else To(op, v, op.pc)
    case EnrollCommit(_, cleared, saved, handoff) =>
      if op.pc.Targeting? && v.free then EnrollCommits(op, pid, v, cleared, saved, handoff) else To(op, v, op.pc)
    case Return(_, out) =>
      if op.pc.Returning? then
        if v.current then
          To(op, v, Closing).(
            shared := v.shared.(owner := None),
            files := v.files.(pending := Removed(v.files.pending, out)))
        else To(op, v, Closing)
      else To(op, v, op.pc)
    case _ => To(op, v, op.pc)
  }

  /** The commit region of an enrollment, up to its first failure. */
  function EnrollCommits(op: Op, pid: nat, v: View, cleared: FileResult, saved: FileResult, handoff: Handoff): Move
    requires op.kind.Enrolling?
  {
    var origin := op.kind.payload.origin;
    var m := To(op, v, Returning);
    if !v.live || !v.current then m
    else
      var f := v.files.(pending := Removed(v.files.pending, cleared));
      if !cleared.Good? || (origin !in f.targets && |f.targets| == Targets.MAX_TARGETS) then m.(files := f)
      else
        var f' := if saved.NoEffect? then f else f.(targets := f.targets + {origin});
        if !saved.Good? then m.(files := f')
        else
          match handoff
          case NoListener => m.(files := f', shared := v.shared.(tunnel := None))
          case NoDocument => m.(files := f', shared := v.shared.(tunnel := Some(Tunnel(origin, false))))
          case Handed =>
            m.(files := f',
               shared := v.shared.(tunnel := Some(Tunnel(origin, true))),
               history := v.history.(committed := v.history.committed + {pid}, successes := v.history.successes + 1))
  }

  function ResetMove(op: Op, pid: nat, e: Event, v: View): Move {
    match e
    case LogOut(_) =>
      // under the runtime's lock
      if op.pc.Started? && v.shared.mutating.None?
      then To(op, v, if v.live then LoggingOut else Returning) else To(op, v, op.pc)
    case ConfirmLogout(_) => To(op, v, if op.pc.LoggingOut? then LoggedOut else op.pc)
    case ResetCommit(_, removed, good) =>
      if op.pc.LoggedOut? && v.free then
        if !v.live || !v.current then To(op, v, Returning)
        else
          var done := good && removed >= 4;
          To(op, v, Returning).(
            files := Files(
              v.files.fence && removed < 4,
              if removed >= 1 then None else v.files.registration,
              v.files.pending && removed < 2,
              if removed >= 3 then {} else v.files.targets),
            shared := v.shared.(claimed := v.shared.claimed && !done),
            history := v.history.(
              lastAuth := if removed >= 1 then None else v.history.lastAuth,
              committed := if done then v.history.committed + {pid} else v.history.committed))
      else To(op, v, op.pc)
    case ResetReturn(_) =>
      if op.pc.Closing? then
        To(op, v, Done).(shared := v.shared.(resetting := false, owner := if v.current then None else v.shared.owner))
      else To(op, v, op.pc)
    case _ => To(op, v, op.pc)
  }

  function LegacyMove(op: Op, pid: nat, e: Event, v: View): Move
    requires op.kind.Confirming?
  {
    match e
    case LegacyCommit(_, migrate, out) =>
      if op.pc.Started? && v.free then
        if !v.live || !v.current then To(op, v, Returning)
        else
          var saves := migrate && !out.NoEffect?;
          var m := To(op, v, Returning).(
            files := v.files.(targets := if saves then v.files.targets + {op.kind.origin} else v.files.targets));
          if migrate && !out.Good? then m
          else
            m.(history := v.history.(committed := v.history.committed + {pid}, successes := v.history.successes + 1))
      else To(op, v, op.pc)
    case _ => To(op, v, op.pc)
  }

  /** Timeouts, errors, and the operation's own cancel function when it returns. */
  function AnyMove(op: Op, pid: nat, e: Event, v: View): Move {
    match e
    case Expire(_) => To(op.(live := false), v, op.pc)
    case Fail(_) =>
      if op.pc.Closing? || op.pc.Done? then To(op, v, op.pc)
      else
        To(op, v, Returning).(
          shared := v.shared.(mutating := if v.shared.mutating == Some(pid) then None else v.shared.mutating))
    case Close(_) =>
      if op.pc.Closing? && op.kind.Enrolling? then To(op.(live := false), v, Done)
      else if op.pc.Returning? && op.kind.Confirming? then To(op.(live := false), v, Done)
      else if op.pc.Returning? && op.kind.Resetting? then To(op.(live := false), v, Closing)
      else To(op, v, op.pc)
    case _ => To(op, v, op.pc)
  }

  predicate AnyEvent(e: Event) {
    e.Expire? || e.Fail? || e.Close?
  }

  function OpMove(op: Op, pid: nat, e: Event, v: View): Move {
    if AnyEvent(e) then AnyMove(op, pid, e, v)
    else match op.kind
      case Enrolling(_) => EnrollMove(op, pid, e, v)
      case Resetting => ResetMove(op, pid, e, v)
      case Confirming(_) => LegacyMove(op, pid, e, v)
  }

  // ---------------------------------------------------------------------------
  // Steps.

  predicate PermitEvent(e: Event) {
    e.Reserve? || e.Claim? || e.Revoke? || e.RevokeNone? || e.StopRevoked?
  }

  predicate StartEvent(e: Event) {
    e.CancelAll? || e.Bind? || e.EnrollStart? || e.ResetStart? || e.LegacyStart?
  }

  function PermitStep(s: State, e: Event): State {
    var s' := s.(desk := DeskStep(s.desk, e, s.generation));
    if e.StopRevoked? && Stops(s.desk, s.generation)
    then Silenced(s').(files := s.files.(pending := Removed(s.files.pending, e.out)))
    else s'
  }

  function StartStep(s: State, e: Event): State {
    match e
    case CancelAll(out) =>
      if s.desk.cancels > 0 then
        NextGeneration(s).(
          desk := s.desk.(cancels := s.desk.cancels - 1),
          files := s.files.(pending := Removed(s.files.pending, out)))
      else s
    case Bind(origin, reuse, listening) =>
      if !s.files.fence && origin in s.files.targets then
        var t := Tunnel(origin, true);
        if (reuse && s.shared.tunnel == Some(t)) || listening
        then s.(shared := s.shared.(tunnel := Some(t)), history := s.history.(successes := s.history.successes + 1))
        else s.(shared := s.shared.(tunnel := None))
      else s
    case EnrollStart(pid, payload, out) =>
      if CanStart(s, pid) && !s.shared.resetting && !s.files.fence then
        Owned(NextGeneration(s), pid, Enrolling(payload), if out.Good? then Started else Closing).(
          files := s.files.(pending := s.files.pending || !out.NoEffect?))
      else s
    case ResetStart(pid, out) =>
      if CanStart(s, pid) && !s.shared.resetting then
        var n := NextGeneration(s);
        if out.Good? then
          var o := Owned(n, pid, Resetting, Started);
          o.(shared := o.shared.(resetting := true), files := s.files.(fence := true))
        else n.(files := s.files.(fence := s.files.fence || out.Effect?))
      else s
    case LegacyStart(pid, origin) =>
      if CanStart(s, pid) && !s.files.fence
      then Owned(NextGeneration(s), pid, Confirming(origin), Started) else s
    case _ => s
  }

  function ViewOf(s: State, pid: nat): View
    requires pid in s.ops
  {
    View(ContextLive(s, pid), s.ops[pid].gen == s.generation, s.desk.revoking != Some(pid), s.shared, s.files,
         s.history)
  }

  function LocalStep(s: State, e: Event, pid: nat): State
    requires pid in s.ops
  {
    var m := OpMove(s.ops[pid], pid, e, ViewOf(s, pid));
    s.(ops := s.ops[pid := m.op], shared := m.shared, files := m.files, history := m.history)
  }

  /** The process dies, and starts again once the pending record is cleared: memory is lost. */
  function Restarted(s: State): State {
    var permits := s.desk.permits;
    State(
      Desk(seq(|permits|, i requires 0 <= i < |permits| => permits[i].(cancelled := true)), None, None, false, 0),
      0, map[], Shared(None, false, None, false, None), s.files.(pending := false), s.history)
  }

  function Step(s: State, e: Event): State {
    if PermitEvent(e) then PermitStep(s, e)
    else if StartEvent(e) then StartStep(s, e)
    else if e.Restart? then Restarted(s)
    else if e.pid in s.ops then LocalStep(s, e, e.pid)
    else s
  }

  function Run(s: State, es: seq<Event>): State {
    if es == [] then s else Step(Run(s, es[..|es| - 1]), es[|es| - 1])
  }

  /** A first start over an empty directory. */
  const FRESH: State :=
    State(Desk([], None, None, false, 0), 0, map[], Shared(None, false, None, false, None),
          Files(false, None, false, {}), History(None, false, {}, 0))
}
