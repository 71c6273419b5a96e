/**
 How terminal entries are reclaimed. An entry is shared by reference counting: the registry, the
 reader thread, the waiter thread, request handlers and the list of entries being destroyed each
 hold it, and the last release reaps the process leader. The sweeper takes an entry out of the
 registry only behind a gate (exit recorded, master at end of file, removal due).
 */
module Reclaim {
  import opened Common

  datatype Kind = Pty | Pipe

  datatype Reader = Reading | AtEof | Broken

  /** `Unwinding` and `Resealed`: the waiter panicked, and its completion guard is at work. */
  datatype Waiter = Waiting | Observed | Stamped | Scheduled | Unwinding | Resealed | Ended

  datatype Holder = ByRegistry | ByReader | ByWaiter | ByHandler(n: nat) | Doomed

  datatype Entry = Entry(
    kind: Kind,
    leader: bool,  // the leader's handle is still there, so it is not reaped
    holders: set<Holder>,
    reader: Reader,
    waiter: Waiter,
    exitObserved: bool,
    exitRecorded: bool,
    eofReached: bool,
    removeAfter: Option<nat>,
    swept: bool,  // history: the sweeper took it
    reaped: nat)  // history: how often its leader was reaped

  type Entries = map<nat, Entry>

  /** `entries` keeps the entries nothing refers to any more. */
  datatype State = State(
    now: nat,
    next: nat,
    entries: Entries,
    registry: map<string, nat>,
    pinCount: int)

  datatype Event =
    | Tick(elapsed: nat)
    | SpawnPty(procId: string)
    | SpawnPipe(procId: string)
    | ReaderEof(id: nat)
    | ReaderStops(id: nat)  // read error or panic
    | ReaderDone(id: nat)  // the thread ends
    | ObserveExit(id: nat)
    | SealExit(id: nat)
    | Schedule(id: nat, grace: Option<nat>)  // None: the due instant overflows
    | WaiterEnds(id: nat)
    | WaiterPanics(id: nat)
    | GuardSeals(id: nat)
    | GuardSchedules(id: nat)
    | Lookup(procId: string, n: nat)
    | Cleanup(id: nat, n: nat)
    | Release(id: nat, n: nat)
    | Sweep(sampled: nat)
    | DropDoomed(id: nat)
    | PipeGone(procId: string)

  function Init(): State {
    State(0, 0, map[], map[], 0)
  }

  // ---------------------------------------------------------------------------
  // The steps.

  /** A scheduled removal only moves earlier. */
  function ScheduleAt(e: Entry, at: nat): Entry {
    e.(removeAfter := Some(if e.removeAfter.Some? then Min(e.removeAfter.value, at) else at))
  }

  predicate Removable(e: Entry, now: nat) {
    && e.removeAfter.Some? && e.removeAfter.value <= now
    && e.kind.Pty?
    && e.exitRecorded
    && e.eofReached
  }

  predicate StillRunning(e: Entry) {
    match e.kind
    case Pty => !e.exitObserved && !e.exitRecorded
    case Pipe => !e.exitRecorded
  }

  /** One holder lets go; the last one drops the entry, which reaps a leader still held. */
  function LetGo(e: Entry, h: Holder): Entry {
    var e' := e.(holders := e.holders - {h});
    if e'.holders == {} && e.leader then e'.(leader := false, reaped := e.reaped + 1) else e'
  }

  /** Entry `id` becomes `e`, and a reaped leader is taken off the pin counter. */
  function Put(s: State, id: nat, e: Entry): State
    requires id in s.entries
  {
    s.(entries := s.entries[id := e],
       pinCount := if s.entries[id].leader && !e.leader then s.pinCount - 1 else s.pinCount)
  }

  /** Taking an entry out of the registry moves the registry's reference to the doomed list. */
  function Evicted(e: Entry): Entry {
    e.(holders := e.holders - {ByRegistry} + {Doomed})
  }

  function Unregister(s: State, procId: string): State
    requires procId in s.registry && s.registry[procId] in s.entries
  {
    var id := s.registry[procId];
    Put(s.(registry := s.registry - {procId}), id, Evicted(s.entries[id]))
  }

  function Spawned(kind: Kind): Entry {
    var holders := if kind.Pty? then {ByRegistry, ByReader, ByWaiter} else {ByRegistry};
    Entry(kind, kind.Pty?, holders, Reading, Waiting, false, false, false, None, false, 0)
  }

  function Register(s: State, procId: string, kind: Kind): State {
    var cleared :=
      if procId in s.registry && s.registry[procId] in s.entries then Unregister(s, procId) else s;
    cleared.(
      next := s.next + 1,
      entries := cleared.entries[s.next := Spawned(kind)],
      registry := cleared.registry[procId := s.next],
      pinCount := if kind.Pty? then cleared.pinCount + 1 else cleared.pinCount)
  }

  function DoomedProcs(s: State, sampled: nat): set<string> {
    set p | p in s.registry && s.registry[p] in s.entries && Removable(s.entries[s.registry[p]], sampled)
  }

  function SweepAll(s: State, sampled: nat): State {
    var procs := DoomedProcs(s, sampled);
    var ids := set p | p in procs :: s.registry[p];
    s.(registry := s.registry - procs,
       entries := map id | id in s.entries ::
                    if id in ids then Evicted(s.entries[id]).(swept := true) else s.entries[id])
  }

  predicate Enabled(s: State, e: Event) {
    match e
    case Tick(_) => true
    case SpawnPty(_) => true
    case SpawnPipe(_) => true
    case ReaderEof(id) => id in s.entries && s.entries[id].kind.Pty? && s.entries[id].reader.Reading?
    case ReaderStops(id) => id in s.entries && s.entries[id].kind.Pty? && s.entries[id].reader.Reading?
    case ReaderDone(id) => id in s.entries && !s.entries[id].reader.Reading? && ByReader in s.entries[id].holders
    case ObserveExit(id) => id in s.entries && s.entries[id].kind.Pty? && s.entries[id].waiter.Waiting?
    case SealExit(id) => id in s.entries && s.entries[id].kind.Pty? && s.entries[id].waiter.Observed?
    case Schedule(id, _) => id in s.entries && s.entries[id].kind.Pty? && s.entries[id].waiter.Stamped?
    case WaiterEnds(id) => id in s.entries && s.entries[id].kind.Pty? && s.entries[id].waiter.Scheduled?
    case WaiterPanics(id) => id in s.entries && s.entries[id].kind.Pty? && !s.entries[id].waiter.Ended?
    case GuardSeals(id) => id in s.entries && s.entries[id].kind.Pty? && s.entries[id].waiter.Unwinding?
    case GuardSchedules(id) => id in s.entries && s.entries[id].kind.Pty? && s.entries[id].waiter.Resealed?
    case Lookup(procId, _) => procId in s.registry && s.registry[procId] in s.entries
    case Cleanup(id, n) => id in s.entries && ByHandler(n) in s.entries[id].holders
    case Release(id, n) => id in s.entries && ByHandler(n) in s.entries[id].holders
    case Sweep(sampled) => sampled <= s.now
    case DropDoomed(id) => id in s.entries && Doomed in s.entries[id].holders
    case PipeGone(procId) => procId in s.registry && s.registry[procId] in s.entries
  }

  /** The steps that change one entry. */
  function EntryStep(e: Entry, ev: Event, now: nat): Entry {
    match ev
    case ReaderEof(_) => e.(reader := AtEof, eofReached := true)
    case ReaderStops(_) => e.(reader := Broken)
    case ReaderDone(_) => LetGo(e, ByReader)
    case ObserveExit(_) => e.(waiter := Observed, exitObserved := true)
    case SealExit(_) => e.(waiter := Stamped, exitRecorded := true)
    case Schedule(_, grace) =>
      var s := e.(waiter := Scheduled);
      if grace.Some? then ScheduleAt(s, now + grace.value) else s
    case WaiterEnds(_) => LetGo(e.(waiter := Ended), ByWaiter)
    case WaiterPanics(_) => e.(waiter := Unwinding)
    case GuardSeals(_) => e.(waiter := Resealed, exitRecorded := true)
    case GuardSchedules(_) => ScheduleAt(e.(waiter := Scheduled), now)
    case Lookup(_, n) => e.(holders := e.holders + {ByHandler(n)})
    case Cleanup(_, _) => if StillRunning(e) then e else ScheduleAt(e, now)
    case Release(_, n) => LetGo(e, ByHandler(n))
    case DropDoomed(_) => LetGo(e, Doomed)
    case _ => e
  }

  function Step(s: State, e: Event): State {
    if !Enabled(s, e) then s
    else
      match e
      case Tick(elapsed) => s.(now := s.now + elapsed)
      case SpawnPty(procId) => Register(s, procId, Pty)
      case SpawnPipe(procId) => Register(s, procId, Pipe)
      case Sweep(sampled) => SweepAll(s, sampled)
      case PipeGone(procId) => Unregister(s, procId)
      case Lookup(procId, _) => Put(s, s.registry[procId], EntryStep(s.entries[s.registry[procId]], e, s.now))
      case _ => Put(s, e.id, EntryStep(s.entries[e.id], e, s.now))
  }

  function Run(s: State, events: seq<Event>): State
    decreases |events|
  {
    if events == [] then s else Run(Step(s, events[0]), events[1..])
  }

  // ---------------------------------------------------------------------------
  // What every step keeps.

  /** Facts about one entry: the handle is there exactly while a pty entry is referenced, and it is
      reaped exactly once it is not. */
  ghost predicate EntryInv(e: Entry, now: nat) {
    && (e.leader <==> e.kind.Pty? && e.holders != {})
    && e.reaped == (if e.kind.Pty? && e.holders == {} then 1 else 0)
    && (e.eofReached <==> e.reader.AtEof?)
    && (ByReader in e.holders ==> e.kind.Pty?)
    && (e.kind.Pty? && e.reader.Reading? ==> ByReader in e.holders)
    && (ByWaiter in e.holders <==> e.kind.Pty? && !e.waiter.Ended?)
    && (e.waiter.Stamped? || e.waiter.Scheduled? || e.waiter.Resealed? || e.waiter.Ended? ==> e.exitRecorded)
    && (e.removeAfter.Some? ==> e.exitObserved || e.exitRecorded)
    && (e.swept ==> Removable(e, now))
  }

  ghost predicate RegistryInv(s: State) {
    && (forall p | p in s.registry :: s.registry[p] in s.entries && ByRegistry in s.entries[s.registry[p]].holders)
    && (forall p, q | p in s.registry && q in s.registry && s.registry[p] == s.registry[q] :: p == q)
  }

  /** The entries that still hold their leader's handle. */
  function Pinned(entries: Entries): set<nat> {
    set id | id in entries && entries[id].leader
  }

  ghost predicate Inv(s: State) {
    && RegistryInv(s)
    && (forall id | id in s.entries :: id < s.next && EntryInv(s.entries[id], s.now))
    && s.pinCount == |Pinned(s.entries)|
  }

  lemma PinnedPut(entries: Entries, id: nat, e: Entry)
    ensures Pinned(entries[id := e]) == if e.leader then Pinned(entries) + {id} else Pinned(entries) - {id}
  {
  }

  /** Replacing one entry, with the counter following its handle. */
  lemma PutKeeps(s: State, id: nat, e: Entry)
    requires Inv(s) && id in s.entries
    requires EntryInv(e, s.now)
    requires e.leader ==> s.entries[id].leader
    requires ByRegistry in s.entries[id].holders ==> ByRegistry in e.holders
    ensures Inv(Put(s, id, e))
  {
    PinnedPut(s.entries, id, e);
  }

  lemma EntryStepKeeps(e: Entry, ev: Event, now: nat)
    requires EntryInv(e, now)
    requires match ev
             case ReaderEof(_) => e.kind.Pty? && e.reader.Reading?
             case ReaderStops(_) => e.kind.Pty? && e.reader.Reading?
             case ReaderDone(_) => !e.reader.Reading? && ByReader in e.holders
             case ObserveExit(_) => e.kind.Pty? && e.waiter.Waiting?
             case SealExit(_) => e.kind.Pty? && e.waiter.Observed?
             case Schedule(_, _) => e.kind.Pty? && e.waiter.Stamped?
             case WaiterEnds(_) => e.kind.Pty? && e.waiter.Scheduled?
             case WaiterPanics(_) => e.kind.Pty? && !e.waiter.Ended?
             case GuardSeals(_) => e.kind.Pty? && e.waiter.Unwinding?
             case GuardSchedules(_) => e.kind.Pty? && e.waiter.Resealed?
             case Release(_, n) => ByHandler(n) in e.holders
             case DropDoomed(_) => Doomed in e.holders
             case Lookup(_, _) => ByRegistry in e.holders
             case _ => true
    ensures EntryInv(EntryStep(e, ev, now), now)
    ensures EntryStep(e, ev, now).leader ==> e.leader
    ensures ByRegistry in e.holders ==> ByRegistry in EntryStep(e, ev, now).holders
  {
  }

  lemma UnregisterKeeps(s: State, procId: string)
    requires Inv(s) && procId in s.registry
    ensures Inv(Unregister(s, procId))
  {
    var id := s.registry[procId];
    var e := Evicted(s.entries[id]);
    EvictedInv(s.entries[id], s.now);
    PinnedPut(s.entries, id, e);
    assert Pinned(s.entries) == Pinned(s.entries[id := e]);
    UnregisteredInv(s, procId);
  }

  lemma EvictedInv(e: Entry, now: nat)
    requires EntryInv(e, now) && e.holders != {}
    ensures EntryInv(Evicted(e), now)
  {
    assert Doomed in Evicted(e).holders;
  }

  lemma UnregisteredInv(s: State, procId: string)
    requires RegistryInv(s) && procId in s.registry
    ensures RegistryInv(Unregister(s, procId))
  {
  }

  lemma RegisterKeeps(s: State, procId: string, kind: Kind)
    requires Inv(s)
    ensures Inv(Register(s, procId, kind))
  {
    var c := s;
    if procId in s.registry {
      UnregisterKeeps(s, procId);
      c := Unregister(s, procId);
    }
    assert Inv(c) && c.next == s.next && procId !in c.registry;
    FreshKeeps(c, procId, kind);
  }

  lemma FreshKeeps(s: State, procId: string, kind: Kind)
    requires Inv(s) && procId !in s.registry
    ensures Inv(Register(s, procId, kind))
  {
    assert s.next !in s.entries;
    PinnedPut(s.entries, s.next, Spawned(kind));
    assert s.next !in Pinned(s.entries);
    assert EntryInv(Spawned(kind), s.now);
    RegisteredInv(s, procId, kind);
  }

  lemma RegisteredInv(s: State, procId: string, kind: Kind)
    requires RegistryInv(s) && procId !in s.registry && s.next !in s.entries
    ensures RegistryInv(Register(s, procId, kind))
  {
  }

  lemma SweepKeeps(s: State, sampled: nat)
    requires Inv(s) && sampled <= s.now
    ensures Inv(SweepAll(s, sampled))
  {
    var t := SweepAll(s, sampled);
    forall id | id in t.entries
      ensures EntryInv(t.entries[id], t.now)
    {
      assert EntryInv(s.entries[id], s.now);
    }
    assert Pinned(t.entries) == Pinned(s.entries);
  }

  lemma StepKeeps(s: State, e: Event)
    requires Inv(s)
    ensures Inv(Step(s, e))
  {
    if Enabled(s, e) {
      if Global(e) {
        GlobalKeeps(s, e);
      } else {
        EntryKeeps(s, e, if e.Lookup? then s.registry[e.procId] else e.id);
      }
    }
  }

  lemma GlobalKeeps(s: State, e: Event)
    requires Inv(s) && Enabled(s, e) && Global(e)
    ensures Inv(Step(s, e))
  {
    match e
    case Tick(_) =>
    case SpawnPty(procId) => RegisterKeeps(s, procId, Pty);
    case SpawnPipe(procId) => RegisterKeeps(s, procId, Pipe);
    case Sweep(sampled) => SweepKeeps(s, sampled);
    case PipeGone(procId) => UnregisterKeeps(s, procId);
  }

  lemma EntryKeeps(s: State, e: Event, id: nat)
    requires Inv(s) && Enabled(s, e) && !Global(e)
    requires id == if e.Lookup? then s.registry[e.procId] else e.id
    ensures Inv(Put(s, id, EntryStep(s.entries[id], e, s.now)))
  {
    assert EntryInv(s.entries[id], s.now);
    EntryStepKeeps(s.entries[id], e, s.now);
    PutKeeps(s, id, EntryStep(s.entries[id], e, s.now));
  }

  lemma {:induction false} RunKeeps(s: State, events: seq<Event>)
    requires Inv(s)
    ensures Inv(Run(s, events))
    decreases |events|
  {
    if events != [] {
      StepKeeps(s, events[0]);
      RunKeeps(Step(s, events[0]), events[1..]);
    }
  }

  // ---------------------------------------------------------------------------
  // The results.

  /** In every run: an entry the sweeper took was past its due time with its exit recorded and its
      master at end of file; an entry whose reader failed was never taken; the pin counter is the
      number of entries holding their leader; a leader is reaped at most once, and only when nothing
      refers to its entry any more. */
  lemma ReclaimIsSafe(events: seq<Event>, id: nat)
    requires id in Run(Init(), events).entries
    ensures var s := Run(Init(), events);
            var e := s.entries[id];
            && (e.swept ==>
                  && e.kind.Pty? && e.exitRecorded && e.eofReached
                  && e.removeAfter.Some? && e.removeAfter.value <= s.now)
            && (e.reader.Broken? ==> !e.swept)
            && s.pinCount == |Pinned(s.entries)|
            && e.reaped <= 1
            && (e.reaped == 1 <==> e.kind.Pty? && e.holders == {})
            && (e.leader <==> e.kind.Pty? && e.holders != {})
  {
    assert Pinned(Init().entries) == {};
    RunKeeps(Init(), events);
    assert EntryInv(Run(Init(), events).entries[id], Run(Init(), events).now);
  }

  /** `f` is a later state of entry `e`: nothing recorded is lost and a due time only moves earlier. */
  ghost predicate Later(e: Entry, f: Entry) {
    FactsKept(e, f) && (e.holders == {} ==> f.holders == {})
  }

  ghost predicate FactsKept(e: Entry, f: Entry) {
    && f.kind == e.kind
    && (e.exitObserved ==> f.exitObserved)
    && (e.exitRecorded ==> f.exitRecorded)
    && (e.eofReached ==> f.eofReached)
    && (e.reader.Broken? ==> f.reader.Broken?)
    && (e.removeAfter.Some? ==> f.removeAfter.Some? && f.removeAfter.value <= e.removeAfter.value)
  }

  /** Whether the event may happen to this entry. */
  predicate EntryEnabled(e: Entry, ev: Event) {
    match ev
    case ReaderEof(_) => e.kind.Pty? && e.reader.Reading?
    case ReaderStops(_) => e.kind.Pty? && e.reader.Reading?
    case Lookup(_, _) => e.holders != {}
    case _ => true
  }

  lemma EntryStepLater(e: Entry, ev: Event, now: nat)
    requires EntryEnabled(e, ev)
    ensures Later(e, EntryStep(e, ev, now))
  {
    HoldersLater(e, ev, now);
    FactsLater(e, ev, now);
  }

  lemma HoldersLater(e: Entry, ev: Event, now: nat)
    requires EntryEnabled(e, ev)
    ensures EntryStep(e, ev, now).holders <= e.holders || (ev.Lookup? && e.holders != {})
  {
  }

  lemma FactsLater(e: Entry, ev: Event, now: nat)
    requires EntryEnabled(e, ev)
    ensures FactsKept(e, EntryStep(e, ev, now))
  {
  }

  lemma EvictedLater(e: Entry)
    requires e.holders != {}
    ensures Later(e, Evicted(e)) && Later(e, Evicted(e).(swept := true))
  {
  }

  lemma SpawnLater(s: State, procId: string, kind: Kind, id: nat)
    requires Inv(s) && id in s.entries
    ensures id in Register(s, procId, kind).entries && Later(s.entries[id], Register(s, procId, kind).entries[id])
  {
    assert id != s.next;
    if procId in s.registry && s.registry[procId] == id {
      EvictedLater(s.entries[id]);
    }
  }

  lemma SweepLater(s: State, sampled: nat, id: nat)
    requires Inv(s) && id in s.entries
    ensures id in SweepAll(s, sampled).entries && Later(s.entries[id], SweepAll(s, sampled).entries[id])
  {
    if SweepAll(s, sampled).entries[id] != s.entries[id] {
      var p :| p in DoomedProcs(s, sampled) && s.registry[p] == id;
      EvictedLater(s.entries[id]);
    }
  }

  predicate Global(e: Event) {
    e.Tick? || e.SpawnPty? || e.SpawnPipe? || e.Sweep? || e.PipeGone?
  }

  lemma GlobalLater(s: State, e: Event, id: nat)
    requires Inv(s) && id in s.entries && Global(e)
    ensures id in Step(s, e).entries && Later(s.entries[id], Step(s, e).entries[id])
  {
    if Enabled(s, e) {
      match e
      case Tick(_) =>
      case SpawnPty(procId) => SpawnLater(s, procId, Pty, id);
      case SpawnPipe(procId) => SpawnLater(s, procId, Pipe, id);
      case Sweep(sampled) => SweepLater(s, sampled, id);
      case PipeGone(procId) =>
        if s.registry[procId] == id {
          EvictedLater(s.entries[id]);
        }
    }
  }

  /** The other events change one entry. */
  lemma LocalEntry(s: State, e: Event, id: nat)
    requires Inv(s) && id in s.entries && !Global(e)
    ensures id in Step(s, e).entries
    ensures Step(s, e).entries[id] == s.entries[id]
         || (EntryEnabled(s.entries[id], e) && Step(s, e).entries[id] == EntryStep(s.entries[id], e, s.now))
  {
    if Enabled(s, e) && e.Lookup? {
      assert ByRegistry in s.entries[s.registry[e.procId]].holders;
    }
  }

  lemma StepLater(s: State, e: Event, id: nat)
    requires Inv(s) && id in s.entries
    ensures id in Step(s, e).entries && Later(s.entries[id], Step(s, e).entries[id])
  {
    if Global(e) {
      GlobalLater(s, e, id);
    } else {
      LocalEntry(s, e, id);
      if EntryEnabled(s.entries[id], e) {
        EntryStepLater(s.entries[id], e, s.now);
      }
    }
  }

  /** Over every run from a reachable state, entries only move forward. */
  lemma {:induction false} RunLater(s: State, events: seq<Event>, id: nat)
    requires Inv(s) && id in s.entries
    ensures id in Run(s, events).entries && Later(s.entries[id], Run(s, events).entries[id])
    decreases |events|
  {
    if events != [] {
      StepKeeps(s, events[0]);
      StepLater(s, events[0], id);
      RunLater(Step(s, events[0]), events[1..], id);
    }
  }

  /** Whatever way the waiter ended, its entry is left reclaimable: once its master is at end of file
      and a removal is due, the next sweep takes it out of the registry. */
  lemma EndedIsReclaimable(events: seq<Event>, procId: string, sampled: nat)
    requires var s := Run(Init(), events);
             && procId in s.registry && sampled <= s.now
             && s.registry[procId] in s.entries
             && var e := s.entries[s.registry[procId]];
                e.kind.Pty? && e.waiter.Ended? && e.eofReached && e.removeAfter.Some? && e.removeAfter.value <= sampled
    ensures var s := Run(Init(), events);
            var t := Step(s, Sweep(sampled));
            && procId !in t.registry
            && s.registry[procId] in t.entries
            && t.entries[s.registry[procId]].swept && t.entries[s.registry[procId]].leader
  {
    assert Pinned(Init().entries) == {};
    RunKeeps(Init(), events);
    var s := Run(Init(), events);
    assert EntryInv(s.entries[s.registry[procId]], s.now);
    assert procId in DoomedProcs(s, sampled);
  }

  /** The sweeper's pass over the registry map. */
  method RetainLive(registry: map<string, nat>, entries: Entries, sampled: nat)
    returns (kept: map<string, nat>, doomed: set<string>)
    requires forall p | p in registry :: registry[p] in entries
    ensures doomed == set p | p in registry && Removable(entries[registry[p]], sampled)
    ensures kept == registry - doomed
    ensures forall s: State | s.registry == registry && s.entries == entries ::
              doomed == DoomedProcs(s, sampled) && kept == SweepAll(s, sampled).registry
  {
    kept, doomed := map[], {};
    var todo := registry.Keys;
    while todo != {}
      invariant todo <= registry.Keys
      invariant doomed == set p | p in registry && p !in todo && Removable(entries[registry[p]], sampled)
      invariant kept == map p | p in registry && p !in todo && p !in doomed :: registry[p]
      decreases todo
    {
      var p :| p in todo;
      if Removable(entries[registry[p]], sampled) {
        doomed := doomed + {p};
      } else {
        kept := kept[p := registry[p]];
      }
      todo := todo - {p};
    }
  }
}
