/**
  The scope gate as a step system.

  A `Gate` is one instant of the shared state: the scope map, the lock objects it has
  handed out, the global permits, the cancellation tokens, and the stack frames of
  every `enter` call in flight (`entries`). One `Action` is one atomic step of one of
  those calls. Nothing ties two steps of one call together, so a run is any interleaving
  of any number of calls over any number of scopes.
*/
module GateModel {
  import opened Numbers
  import opened Options

  type Scope = string
  type EntryId = nat
  type LockId = nat

  /** Where one `enter` call, or the guard it returned, currently stands. */
  datatype Phase =
    | Arrived      // has an id and a token, not yet in the scope map
    | Registered   // counted in the scope map, not yet in the lock's queue
    | Queued       // waiting in the lock's FIFO queue
    | Locked       // holds the scope lock, waiting for a permit
    | Permitted    // holds lock and permit, not yet published as running
    | Running      // published; the caller holds the guard
    | Unpermitted  // guard being dropped: permit released, lock still held
    | Released     // guard being dropped: lock released too, still registered
    | Abandoned    // dropped while waiting: off the queue or lock, still registered

  /** `exposedAt` is the log position from which a cancellation can reach the token. */
  datatype Entry = Entry(scope: Scope, preempt: bool, lock: LockId, phase: Phase, exposedAt: Option<nat>)

  datatype LockState = LockState(holder: Option<EntryId>, fifo: seq<EntryId>)

  datatype ScopeState = ScopeState(
    lock: LockId,
    users: nat,
    running: Option<EntryId>,
    queuedPreemptible: seq<EntryId>)

  /** History of the run so far, for stating properties that look back. */
  datatype Event =
    | EvRegistered(id: EntryId, scope: Scope, preempt: bool)
    | EvEnqueued(id: EntryId, scope: Scope)
    | EvQuit(id: EntryId, scope: Scope)
    | EvGranted(id: EntryId, scope: Scope)
    | EvPublished(id: EntryId, scope: Scope)
    | EvInterrupted(scope: Scope)

  datatype Gate = Gate(
    maxPermits: nat,
    freePermits: nat,
    nextId: EntryId,
    nextLock: LockId,
    scopes: map<Scope, ScopeState>,
    locks: map<LockId, LockState>,
    entries: map<EntryId, Entry>,
    cancelled: set<EntryId>,
    log: seq<Event>)

  function NewGate(maxParallel: nat): Gate {
    var permits := Max(maxParallel, 1);
    Gate(permits, permits, 0, 0, map[], map[], map[], {}, [])
  }

  // ----- phases -----

  predicate HoldsLock(p: Phase) {
    p in {Locked, Permitted, Running, Unpermitted}
  }

  predicate HoldsPermit(p: Phase) {
    p in {Permitted, Running}
  }

  /** Registered but never published: the entry is still in `queued_preemptible` if it preempts. */
  predicate Waiting(p: Phase) {
    p in {Registered, Queued, Locked, Permitted, Abandoned}
  }

  predicate Published(p: Phase) {
    p in {Running, Unpermitted, Released}
  }

  predicate InPhase(g: Gate, id: EntryId, p: Phase) {
    id in g.entries && g.entries[id].phase == p
  }

  function RegisteredIn(entries: map<EntryId, Entry>, s: Scope): set<EntryId> {
    set id | id in entries && entries[id].phase != Arrived && entries[id].scope == s
  }

  function PermitHolders(entries: map<EntryId, Entry>): set<EntryId> {
    set id | id in entries && HoldsPermit(entries[id].phase)
  }

  // ----- building blocks of the steps -----

  function Without(q: seq<EntryId>, id: EntryId): seq<EntryId> {
    if q == [] then []
    else if q[0] == id then Without(q[1..], id)
    else [q[0]] + Without(q[1..], id)
  }

  function Elements(q: seq<EntryId>): set<EntryId> {
    set id | id in q
  }

  /** The tokens `cancel_preemptible` cancels. */
  function Cancellable(st: ScopeState): set<EntryId> {
    Elements(st.queuedPreemptible) + (if st.running.Some? then {st.running.value} else {})
  }

  function SetPhase(g: Gate, id: EntryId, p: Phase): Gate
    requires id in g.entries
  {
    g.(entries := g.entries[id := g.entries[id].(phase := p)])
  }

  function Record(g: Gate, ev: Event): Gate {
    g.(log := g.log + [ev])
  }

  /** The map entry for a scope: the existing one, or a fresh default with a new lock object. */
  function EntryOrDefault(g: Gate, s: Scope): ScopeState {
    if s in g.scopes then g.scopes[s] else ScopeState(g.nextLock, 0, None, [])
  }

  // ----- steps -----

  datatype Action =
    | Arrive(scope: Scope, preempt: bool)
    | Register(id: EntryId)
    | Enqueue(id: EntryId)
    | GrantLock(id: EntryId)
    | GrantPermit(id: EntryId)
    | Publish(id: EntryId)
    | DropPermit(id: EntryId)
    | DropLock(id: EntryId)
    | Unregister(id: EntryId)
    | AbandonQueued(id: EntryId)
    | AbandonLocked(id: EntryId)
    | Interrupt(scope: Scope)

  predicate Enabled(g: Gate, a: Action) {
    match a
    case Arrive(_, _) => true
    case Register(id) => InPhase(g, id, Arrived)
    case Enqueue(id) => InPhase(g, id, Registered) && g.entries[id].lock in g.locks
    case GrantLock(id) =>
      && InPhase(g, id, Queued)
      && g.entries[id].lock in g.locks
      && var l := g.locks[g.entries[id].lock]; l.holder == None && |l.fifo| > 0 && l.fifo[0] == id
    case GrantPermit(id) => InPhase(g, id, Locked) && g.freePermits > 0
    case Publish(id) => InPhase(g, id, Permitted)
    case DropPermit(id) => InPhase(g, id, Running)
    case DropLock(id) => InPhase(g, id, Unpermitted) && g.entries[id].lock in g.locks
    case Unregister(id) => InPhase(g, id, Released) || InPhase(g, id, Abandoned)
    case AbandonQueued(id) => InPhase(g, id, Queued) && g.entries[id].lock in g.locks
    case AbandonLocked(id) => InPhase(g, id, Locked) && g.entries[id].lock in g.locks
    case Interrupt(_) => true
  }

  function DoArrive(g: Gate, s: Scope, preempt: bool): Gate {
    g.(nextId := g.nextId + 1,
       entries := g.entries[g.nextId := Entry(s, preempt, 0, Arrived, None)])
  }

  /** The critical section on the scope map that counts the entry and takes the lock handle. */
  function DoRegister(g: Gate, id: EntryId): Gate
    requires InPhase(g, id, Arrived)
  {
    var e := g.entries[id];
    var isNew := e.scope !in g.scopes;
    var st := EntryOrDefault(g, e.scope);
    var queue := if e.preempt then st.queuedPreemptible + [id] else st.queuedPreemptible;
    var exposed := if e.preempt then Some(|g.log|) else None;
    g.(nextLock := if isNew then g.nextLock + 1 else g.nextLock,
       locks := if isNew then g.locks[g.nextLock := LockState(None, [])] else g.locks,
       scopes := g.scopes[e.scope := st.(users := st.users + 1, queuedPreemptible := queue)],
       entries := g.entries[id := e.(lock := st.lock, phase := Registered, exposedAt := exposed)],
       cancelled := if e.preempt then g.cancelled + Cancellable(st) else g.cancelled,
       log := g.log + [EvRegistered(id, e.scope, e.preempt)])
  }

  function DoEnqueue(g: Gate, id: EntryId): Gate
    requires Enabled(g, Enqueue(id))
  {
    var e := g.entries[id];
    var l := g.locks[e.lock];
    Record(SetPhase(g, id, Queued), EvEnqueued(id, e.scope))
      .(locks := g.locks[e.lock := l.(fifo := l.fifo + [id])])
  }

  function DoGrantLock(g: Gate, id: EntryId): Gate
    requires Enabled(g, GrantLock(id))
  {
    var e := g.entries[id];
    var l := g.locks[e.lock];
    Record(SetPhase(g, id, Locked), EvGranted(id, e.scope))
      .(locks := g.locks[e.lock := LockState(Some(id), l.fifo[1..])])
  }

  function DoGrantPermit(g: Gate, id: EntryId): Gate
    requires Enabled(g, GrantPermit(id))
  {
    SetPhase(g, id, Permitted).(freePermits := g.freePermits - 1)
  }

  /** The critical section that moves the entry from the queued list to the running slot. */
  function DoPublish(g: Gate, id: EntryId): Gate
    requires InPhase(g, id, Permitted)
  {
    var e := g.entries[id];
    var exposed := if e.preempt then e.exposedAt else Some(|g.log|);
    g.(scopes := if e.scope !in g.scopes then g.scopes else
         var st := g.scopes[e.scope];
         g.scopes[e.scope := st.(running := Some(id), queuedPreemptible := Without(st.queuedPreemptible, id))],
       entries := g.entries[id := e.(phase := Running, exposedAt := exposed)],
       log := g.log + [EvPublished(id, e.scope)])
  }

  function DoDropPermit(g: Gate, id: EntryId): Gate
    requires InPhase(g, id, Running)
  {
    SetPhase(g, id, Unpermitted).(freePermits := g.freePermits + 1)
  }

  function DoDropLock(g: Gate, id: EntryId): Gate
    requires Enabled(g, DropLock(id))
  {
    var e := g.entries[id];
    SetPhase(g, id, Released).(locks := g.locks[e.lock := g.locks[e.lock].(holder := None)])
  }

  /** `Registration::drop`. */
  function DoUnregister(g: Gate, id: EntryId): Gate
    requires id in g.entries
  {
    var s := g.entries[id].scope;
    g.(entries := g.entries - {id},
       scopes := if s !in g.scopes then g.scopes else
         var st := g.scopes[s];
         var users := if st.users > 0 then st.users - 1 else 0;
         if users == 0 then g.scopes - {s} else
         g.scopes[s := st.(users := users,
                           running := if st.running == Some(id) then None else st.running,
                           queuedPreemptible := Without(st.queuedPreemptible, id))])
  }

  /** The `enter` future is dropped while it waits for the lock. */
  function DoAbandonQueued(g: Gate, id: EntryId): Gate
    requires Enabled(g, AbandonQueued(id))
  {
    var e := g.entries[id];
    var l := g.locks[e.lock];
    Record(SetPhase(g, id, Abandoned), EvQuit(id, e.scope))
      .(locks := g.locks[e.lock := l.(fifo := Without(l.fifo, id))])
  }

  /** The `enter` future is dropped while it waits for a permit; the lock guard goes first. */
  function DoAbandonLocked(g: Gate, id: EntryId): Gate
    requires Enabled(g, AbandonLocked(id))
  {
    var e := g.entries[id];
    SetPhase(g, id, Abandoned).(locks := g.locks[e.lock := g.locks[e.lock].(holder := None)])
  }

  function DoInterrupt(g: Gate, s: Scope): Gate {
    Record(if s in g.scopes then g.(cancelled := g.cancelled + Cancellable(g.scopes[s])) else g,
           EvInterrupted(s))
  }

  function Apply(g: Gate, a: Action): Gate
    requires Enabled(g, a)
  {
    match a
    case Arrive(s, preempt) => DoArrive(g, s, preempt)
    case Register(id) => DoRegister(g, id)
    case Enqueue(id) => DoEnqueue(g, id)
    case GrantLock(id) => DoGrantLock(g, id)
    case GrantPermit(id) => DoGrantPermit(g, id)
    case Publish(id) => DoPublish(g, id)
    case DropPermit(id) => DoDropPermit(g, id)
    case DropLock(id) => DoDropLock(g, id)
    case Unregister(id) => DoUnregister(g, id)
    case AbandonQueued(id) => DoAbandonQueued(g, id)
    case AbandonLocked(id) => DoAbandonLocked(g, id)
    case Interrupt(s) => DoInterrupt(g, s)
  }

  // ----- runs -----

  /** Every action of the sequence is enabled where it is taken. */
  predicate ValidRun(g: Gate, acts: seq<Action>)
    decreases acts
  {
    acts == [] || (Enabled(g, acts[0]) && ValidRun(Apply(g, acts[0]), acts[1..]))
  }

  function After(g: Gate, acts: seq<Action>): Gate
    requires ValidRun(g, acts)
    decreases acts
  {
    if acts == [] then g else After(Apply(g, acts[0]), acts[1..])
  }
}
