/** The scope lock serves its queue in order. */
module GateFifo {
  import opened Options
  import opened GateModel
  import opened GateInvariant
  import opened GatePreservation
  import opened GateTheorems

  datatype Kind = Registration | Enqueued | Quit | Granted | Publication

  predicate IsEvent(ev: Event, k: Kind, s: Scope) {
    match k
    case Registration => ev.EvRegistered? && ev.scope == s
    case Enqueued => ev.EvEnqueued? && ev.scope == s
    case Quit => ev.EvQuit? && ev.scope == s
    case Granted => ev.EvGranted? && ev.scope == s
    case Publication => ev.EvPublished? && ev.scope == s
  }

  /** The ids of a scope's events of one kind, in log order. */
  function Trace(log: seq<Event>, k: Kind, s: Scope): seq<EntryId> {
    if log == [] then []
    else
      var ev := log[|log| - 1];
      Trace(log[..|log| - 1], k, s) + (if IsEvent(ev, k, s) then [ev.id] else [])
  }

  lemma TraceAppend(log: seq<Event>, ev: Event, k: Kind, s: Scope)
    ensures Trace(log + [ev], k, s) == Trace(log, k, s) + (if IsEvent(ev, k, s) then [ev.id] else [])
  {
    assert (log + [ev])[..|log|] == log;
  }

  /** The sequence without the elements of another. */
  function Minus(q: seq<EntryId>, gone: seq<EntryId>): seq<EntryId> {
    if gone == [] then q else Without(Minus(q, gone[..|gone| - 1]), gone[|gone| - 1])
  }

  lemma MinusSnoc(q: seq<EntryId>, gone: seq<EntryId>, id: EntryId)
    ensures Minus(q, gone + [id]) == Without(Minus(q, gone), id)
  {
    assert (gone + [id])[..|gone|] == gone;
  }

  lemma {:induction false} WithoutAppend(a: seq<EntryId>, b: seq<EntryId>, id: EntryId)
    ensures Without(a + b, id) == Without(a, id) + Without(b, id)
  {
    if a == [] {
      assert a + b == b;
    } else {
      assert (a + b)[1..] == a[1..] + b;
      WithoutAppend(a[1..], b, id);
    }
  }

  lemma {:induction false} WithoutAbsent(q: seq<EntryId>, id: EntryId)
    requires id !in q
    ensures Without(q, id) == q
  {
    if q != [] {
      WithoutAbsent(q[1..], id);
    }
  }

  lemma {:induction false} MinusAppend(q: seq<EntryId>, gone: seq<EntryId>, id: EntryId)
    requires id !in gone
    ensures Minus(q + [id], gone) == Minus(q, gone) + [id]
  {
    if gone != [] {
      var last := gone[|gone| - 1];
      MinusAppend(q, gone[..|gone| - 1], id);
      WithoutAppend(Minus(q, gone[..|gone| - 1]), [id], last);
      WithoutAbsent([id], last);
    }
  }

  /** The waiters in the queue of a scope's current lock. */
  function QueueOf(g: Gate, s: Scope): seq<EntryId> {
    if s in g.scopes && g.scopes[s].lock in g.locks then g.locks[g.scopes[s].lock].fifo else []
  }

  /** The entry's call has passed the lock queue, or is not in the gate any more. */
  predicate PastQueue(g: Gate, id: EntryId) {
    id < g.nextId && (id in g.entries ==> g.entries[id].phase !in {Arrived, Registered, Queued})
  }

  /** Only entries that got past the queue have been granted the lock or have given up on it. */
  ghost predicate TraceInv(g: Gate) {
    && (forall s, id :: id in Trace(g.log, Granted, s) ==> PastQueue(g, id))
    && (forall s, id :: id in Trace(g.log, Quit, s) ==> PastQueue(g, id))
  }

  /** Those that queued and did not give up are those served, in that order, then those still waiting. */
  ghost predicate ServedInOrder(g: Gate, s: Scope) {
    Minus(Trace(g.log, Enqueued, s), Trace(g.log, Quit, s)) == Trace(g.log, Granted, s) + QueueOf(g, s)
  }

  // ----- preservation -----

  lemma PastQueueStep(g: Gate, a: Action, id: EntryId)
    requires IdsInv(g) && Enabled(g, a) && PastQueue(g, id)
    ensures PastQueue(Apply(g, a), id)
  {
  }

  /** What a step adds to the traces. */
  lemma TraceGrowth(g: Gate, a: Action, k: Kind, s: Scope)
    requires Enabled(g, a)
    ensures Apply(g, a).log == g.log || |Apply(g, a).log| == |g.log| + 1
    ensures var g' := Apply(g, a);
            Trace(g'.log, k, s) == Trace(g.log, k, s) +
              (if g'.log != g.log && IsEvent(g'.log[|g.log|], k, s) then [g'.log[|g.log|].id] else [])
  {
    var g' := Apply(g, a);
    if g'.log != g.log {
      TraceAppend(g.log, g'.log[|g.log|], k, s);
      assert g'.log == g.log + [g'.log[|g.log|]];
    }
  }

  lemma TraceStep(g: Gate, a: Action)
    requires IdsInv(g) && TraceInv(g) && Enabled(g, a)
    ensures TraceInv(Apply(g, a))
  {
    var g' := Apply(g, a);
    forall s, k, id | k in {Granted, Quit} && id in Trace(g'.log, k, s) ensures PastQueue(g', id) {
      TraceGrowth(g, a, k, s);
      if id in Trace(g.log, k, s) {
        PastQueueStep(g, a, id);
      }
    }
  }

  lemma StepTraces(g: Gate, g': Gate, ev: Event, s: Scope)
    requires g'.log == g.log + [ev]
    ensures forall k :: k in {Enqueued, Granted, Quit} ==>
              Trace(g'.log, k, s) == if IsEvent(ev, k, s) then Trace(g.log, k, s) + [ev.id] else Trace(g.log, k, s)
  {
    TraceAppend(g.log, ev, Enqueued, s);
    TraceAppend(g.log, ev, Granted, s);
    TraceAppend(g.log, ev, Quit, s);
  }

  lemma EnqueueQueue(g: Gate, id: EntryId, s: Scope)
    requires IdsInv(g) && ScopeInv(g) && Enabled(g, Enqueue(id))
    ensures QueueOf(DoEnqueue(g, id), s) == if s == g.entries[id].scope then QueueOf(g, s) + [id] else QueueOf(g, s)
  {
  }

  lemma JoinBothSides(joined: seq<EntryId>, gone: seq<EntryId>, served: seq<EntryId>, queue: seq<EntryId>, id: EntryId)
    requires Minus(joined, gone) == served + queue && id !in gone
    ensures Minus(joined + [id], gone) == served + (queue + [id])
  {
    MinusAppend(joined, gone, id);
  }

  lemma StillQueued(g: Gate, id: EntryId, s: Scope)
    requires TraceInv(g) && id in g.entries && g.entries[id].phase in {Registered, Queued}
    ensures id !in Trace(g.log, Granted, s) && id !in Trace(g.log, Quit, s)
  {
    assert !PastQueue(g, id);
  }

  lemma EnqueueServed(g: Gate, id: EntryId, s: Scope)
    requires IdsInv(g) && ScopeInv(g) && TraceInv(g) && ServedInOrder(g, s) && Enabled(g, Enqueue(id))
    ensures ServedInOrder(DoEnqueue(g, id), s)
  {
    StepTraces(g, DoEnqueue(g, id), EvEnqueued(id, g.entries[id].scope), s);
    EnqueueQueue(g, id, s);
    if s == g.entries[id].scope {
      StillQueued(g, id, s);
      JoinBothSides(Trace(g.log, Enqueued, s), Trace(g.log, Quit, s), Trace(g.log, Granted, s), QueueOf(g, s), id);
    }
  }

  lemma GrantQueue(g: Gate, id: EntryId, s: Scope)
    requires IdsInv(g) && ScopeInv(g) && Enabled(g, GrantLock(id))
    ensures QueueOf(g, s)
         == (if s == g.entries[id].scope then [id] else []) + QueueOf(DoGrantLock(g, id), s)
  {
  }

  lemma ServeBothSides(served: seq<EntryId>, queue: seq<EntryId>, id: EntryId)
    ensures served + ([id] + queue) == served + [id] + queue
  {
  }

  lemma GrantServed(g: Gate, id: EntryId, s: Scope)
    requires IdsInv(g) && ScopeInv(g) && ServedInOrder(g, s) && Enabled(g, GrantLock(id))
    ensures ServedInOrder(DoGrantLock(g, id), s)
  {
    StepTraces(g, DoGrantLock(g, id), EvGranted(id, g.entries[id].scope), s);
    GrantQueue(g, id, s);
    ServeBothSides(Trace(g.log, Granted, s), QueueOf(DoGrantLock(g, id), s), id);
  }

  lemma QuitQueue(g: Gate, id: EntryId, s: Scope)
    requires IdsInv(g) && ScopeInv(g) && Enabled(g, AbandonQueued(id))
    ensures QueueOf(DoAbandonQueued(g, id), s)
         == if s == g.entries[id].scope then Without(QueueOf(g, s), id) else QueueOf(g, s)
  {
  }

  /** Taking an element out of both sides. */
  lemma QuitBothSides(joined: seq<EntryId>, gone: seq<EntryId>, served: seq<EntryId>, queue: seq<EntryId>, id: EntryId)
    requires Minus(joined, gone) == served + queue && id !in served
    ensures Minus(joined, gone + [id]) == served + Without(queue, id)
  {
    MinusSnoc(joined, gone, id);
    WithoutAppend(served, queue, id);
    WithoutAbsent(served, id);
  }

  lemma QuitServed(g: Gate, id: EntryId, s: Scope)
    requires IdsInv(g) && ScopeInv(g) && TraceInv(g) && ServedInOrder(g, s) && Enabled(g, AbandonQueued(id))
    ensures ServedInOrder(DoAbandonQueued(g, id), s)
  {
    StepTraces(g, DoAbandonQueued(g, id), EvQuit(id, g.entries[id].scope), s);
    QuitQueue(g, id, s);
    if s == g.entries[id].scope {
      StillQueued(g, id, s);
      QuitBothSides(Trace(g.log, Enqueued, s), Trace(g.log, Quit, s), Trace(g.log, Granted, s), QueueOf(g, s), id);
    }
  }

  /** When the last user of a scope leaves, its queue is already empty. */
  lemma UnregisterQueue(g: Gate, id: EntryId, s: Scope)
    requires IdsInv(g) && ScopeInv(g) && QueueInv(g) && Enabled(g, Unregister(id))
    ensures QueueOf(DoUnregister(g, id), s) == QueueOf(g, s)
  {
    if s == g.entries[id].scope && g.scopes[s].users == 1 {
      SoleUser(g, id);
      var fifo := g.locks[g.scopes[s].lock].fifo;
      assert forall x :: x !in fifo;
      SomeElement(fifo);
    }
  }

  lemma SameQueueServed(g: Gate, g': Gate, s: Scope)
    requires ServedInOrder(g, s) && QueueOf(g', s) == QueueOf(g, s)
    requires g'.log == g.log || (|g'.log| == |g.log| + 1 && g'.log == g.log + [g'.log[|g.log|]]
               && !g'.log[|g.log|].EvEnqueued? && !g'.log[|g.log|].EvGranted? && !g'.log[|g.log|].EvQuit?)
    ensures ServedInOrder(g', s)
  {
    if g'.log != g.log {
      StepTraces(g, g', g'.log[|g.log|], s);
    }
  }

  lemma OtherQueue(g: Gate, a: Action, s: Scope)
    requires IdsInv(g) && ScopeInv(g) && Enabled(g, a)
    requires !a.Enqueue? && !a.GrantLock? && !a.AbandonQueued? && !a.Unregister?
    ensures QueueOf(Apply(g, a), s) == QueueOf(g, s)
    ensures var log := Apply(g, a).log;
            log == g.log || (|log| == |g.log| + 1 && log == g.log + [log[|g.log|]]
                             && !log[|g.log|].EvEnqueued? && !log[|g.log|].EvGranted? && !log[|g.log|].EvQuit?)
  {
    match a {
      case Register(_) =>
      case _ =>
    }
  }

  lemma ServedStep(g: Gate, a: Action, s: Scope)
    requires IdsInv(g) && ScopeInv(g) && QueueInv(g) && TraceInv(g) && ServedInOrder(g, s) && Enabled(g, a)
    ensures ServedInOrder(Apply(g, a), s)
  {
    match a {
      case Enqueue(id) => EnqueueServed(g, id, s);
      case GrantLock(id) => GrantServed(g, id, s);
      case AbandonQueued(id) => QuitServed(g, id, s);
      case Unregister(id) =>
        UnregisterQueue(g, id, s);
        assert Apply(g, a).log == g.log;
      case _ =>
        OtherQueue(g, a, s);
        SameQueueServed(g, Apply(g, a), s);
    }
  }

  lemma {:induction false} RunServed(g: Gate, acts: seq<Action>, s: Scope)
    requires GateInv(g) && TraceInv(g) && ServedInOrder(g, s) && ValidRun(g, acts)
    ensures TraceInv(After(g, acts)) && ServedInOrder(After(g, acts), s)
    decreases acts
  {
    if acts != [] {
      StepKeepsInv(g, acts[0]);
      TraceStep(g, acts[0]);
      ServedStep(g, acts[0], s);
      RunServed(Apply(g, acts[0]), acts[1..], s);
    }
  }

  // ----- theorems -----

  /** Over every run, across all the lock objects a scope ever had, the entries that joined its
      queue and did not give up are granted the lock in the order they joined. */
  lemma QueueServedInOrder(g: Gate, maxParallel: nat, s: Scope)
    requires Reachable(g, maxParallel)
    ensures Minus(Trace(g.log, Enqueued, s), Trace(g.log, Quit, s)) == Trace(g.log, Granted, s) + QueueOf(g, s)
  {
    var acts :| ValidRun(NewGate(maxParallel), acts) && After(NewGate(maxParallel), acts) == g;
    NewGateInv(maxParallel);
    RunServed(NewGate(maxParallel), acts, s);
  }

  /** Two background entries of one scope, registered in the order of their ids and not yet queued. */
  ghost predicate BothRegistered(g: Gate, s: Scope) {
    && g.log == [EvRegistered(0, s, false), EvRegistered(1, s, false)]
    && InPhase(g, 0, Registered) && InPhase(g, 1, Registered)
    && g.entries[0].scope == s && g.entries[1].scope == s
    && g.entries[0].lock == 0 && g.entries[1].lock == 0
    && 0 in g.locks && g.locks[0] == LockState(None, [])
  }

  lemma CanBothRegister(s: Scope) returns (acts: seq<Action>)
    ensures ValidRun(NewGate(1), acts) && BothRegistered(After(NewGate(1), acts), s)
  {
    var g0 := NewGate(1);
    var g1 := DoArrive(g0, s, false);
    var g2 := DoRegister(g1, 0);
    var g3 := DoArrive(g2, s, false);
    FirstThenRest(g3, Register(1), []);
    FirstThenRest(g2, Arrive(s, false), [Register(1)]);
    acts := [Arrive(s, false)] + [Register(1)];
    FirstThenRest(g1, Register(0), acts);
    acts := [Register(0)] + acts;
    FirstThenRest(g0, Arrive(s, false), acts);
    acts := [Arrive(s, false)] + acts;
  }

  lemma CanOvertake(g: Gate, s: Scope) returns (acts: seq<Action>)
    requires BothRegistered(g, s)
    ensures ValidRun(g, acts)
    ensures After(g, acts).log == g.log + [EvEnqueued(1, s)] + [EvEnqueued(0, s)] + [EvGranted(1, s)]
  {
    var g1 := DoEnqueue(g, 1);
    var g2 := DoEnqueue(g1, 0);
    var g3 := DoGrantLock(g2, 1);
    FirstThenRest(g2, GrantLock(1), []);
    FirstThenRest(g1, Enqueue(0), [GrantLock(1)]);
    acts := [Enqueue(0)] + [GrantLock(1)];
    FirstThenRest(g, Enqueue(1), acts);
    acts := [Enqueue(1)] + acts;
  }

  /** Registering is not queueing: of two background entries the one that registered second may
      be served first, because another task can run between the two steps of `enter`. */
  lemma ArrivalOrderCanInvert(s: Scope) returns (acts: seq<Action>)
    ensures ValidRun(NewGate(1), acts)
    ensures After(NewGate(1), acts).log == [EvRegistered(0, s, false), EvRegistered(1, s, false)]
              + [EvEnqueued(1, s)] + [EvEnqueued(0, s)] + [EvGranted(1, s)]
  {
    var first := CanBothRegister(s);
    var second := CanOvertake(After(NewGate(1), first), s);
    RunThenRun(NewGate(1), first, second);
    acts := first + second;
  }

  // ----- when arrival order holds -----

  /** Somewhere in the sequence `b` follows `a`. */
  ghost predicate Before(q: seq<EntryId>, a: EntryId, b: EntryId) {
    exists i, j :: 0 <= i < j < |q| && q[i] == a && q[j] == b
  }

  lemma BeforeCons(x: EntryId, q: seq<EntryId>, a: EntryId, b: EntryId)
    ensures Before([x] + q, a, b) <==> Before(q, a, b) || (x == a && b in q)
  {
    var r := [x] + q;
    if Before(q, a, b) {
      var i, j :| 0 <= i < j < |q| && q[i] == a && q[j] == b;
      assert r[i + 1] == a && r[j + 1] == b;
    }
    if x == a && b in q {
      var j :| 0 <= j < |q| && q[j] == b;
      assert r[0] == a && r[j + 1] == b;
    }
    if Before(r, a, b) {
      var i, j :| 0 <= i < j < |r| && r[i] == a && r[j] == b;
      assert q[j - 1] == b && (i > 0 ==> q[i - 1] == a);
    }
  }

  lemma {:induction false} WithoutBefore(q: seq<EntryId>, x: EntryId, a: EntryId, b: EntryId)
    ensures Before(Without(q, x), a, b) <==> Before(q, a, b) && a != x && b != x
  {
    if q != [] {
      WithoutBefore(q[1..], x, a, b);
      WithoutElements(q[1..], x);
      BeforeCons(q[0], q[1..], a, b);
      assert q == [q[0]] + q[1..];
      if q[0] != x {
        BeforeCons(q[0], Without(q[1..], x), a, b);
      }
    }
  }

  /** Taking elements out keeps the order of the rest. */
  lemma {:induction false} MinusBefore(q: seq<EntryId>, gone: seq<EntryId>, a: EntryId, b: EntryId)
    ensures Before(Minus(q, gone), a, b) <==> Before(q, a, b) && a !in gone && b !in gone
  {
    if gone != [] {
      var rest, last := gone[..|gone| - 1], gone[|gone| - 1];
      assert gone == rest + [last];
      MinusBefore(q, rest, a, b);
      WithoutBefore(Minus(q, rest), last, a, b);
    }
  }

  lemma {:induction false} MinusMembers(q: seq<EntryId>, gone: seq<EntryId>, a: EntryId)
    requires a in Minus(q, gone)
    ensures a in q && a !in gone
  {
    if gone != [] {
      var rest, last := gone[..|gone| - 1], gone[|gone| - 1];
      assert gone == rest + [last];
      WithoutElements(Minus(q, rest), last);
      MinusMembers(q, rest, a);
    }
  }

  lemma BeforeInFirst(served: seq<EntryId>, queue: seq<EntryId>, a: EntryId, b: EntryId)
    requires b !in queue
    ensures Before(served + queue, a, b) <==> Before(served, a, b)
  {
    var r := served + queue;
    if Before(served, a, b) {
      var i, j :| 0 <= i < j < |served| && served[i] == a && served[j] == b;
      assert r[i] == a && r[j] == b;
    }
    if Before(r, a, b) {
      var i, j :| 0 <= i < j < |r| && r[i] == a && r[j] == b;
      assert j < |served| && served[i] == a && served[j] == b;
    }
  }

  lemma GrantedNotQueued(g: Gate, s: Scope, id: EntryId)
    requires IdsInv(g) && ScopeInv(g) && QueueInv(g) && TraceInv(g) && id in Trace(g.log, Granted, s)
    ensures id !in QueueOf(g, s)
  {
    assert PastQueue(g, id);
  }

  lemma TracesServed(g: Gate, maxParallel: nat, s: Scope)
    requires Reachable(g, maxParallel)
    ensures GateInv(g) && TraceInv(g) && ServedInOrder(g, s)
  {
    var acts :| ValidRun(NewGate(maxParallel), acts) && After(NewGate(maxParallel), acts) == g;
    NewGateInv(maxParallel);
    RunServed(NewGate(maxParallel), acts, s);
    ReachableInv(g, maxParallel);
  }

  /** Of two entries of a scope that were both granted its lock, one went before the other exactly
      when it had joined the queue before it. */
  lemma GrantedAsEnqueued(g: Gate, maxParallel: nat, s: Scope, a: EntryId, b: EntryId)
    requires Reachable(g, maxParallel) && a in Trace(g.log, Granted, s) && b in Trace(g.log, Granted, s)
    ensures Before(Trace(g.log, Granted, s), a, b) <==> Before(Trace(g.log, Enqueued, s), a, b)
  {
    TracesServed(g, maxParallel, s);
    var served, queue := Trace(g.log, Granted, s), QueueOf(g, s);
    var joined, gone := Trace(g.log, Enqueued, s), Trace(g.log, Quit, s);
    GrantedNotQueued(g, s, b);
    BeforeInFirst(served, queue, a, b);
    assert a in served + queue && b in served + queue;
    MinusMembers(joined, gone, a);
    MinusMembers(joined, gone, b);
    MinusBefore(joined, gone, a, b);
  }

  /** Whichever of the ids is first in one sequence is first in the other. */
  ghost predicate SameOrder(ids: seq<EntryId>, p: seq<EntryId>, q: seq<EntryId>) {
    forall a, b :: a in ids && b in ids ==> (Before(p, a, b) <==> Before(q, a, b))
  }

  /** A scope grants its lock in the order of arrival exactly when those it granted it to had also
      joined the queue in that order. */
  lemma ArrivalOrderIff(g: Gate, maxParallel: nat, s: Scope)
    requires Reachable(g, maxParallel)
    ensures var arrived, served := Trace(g.log, Registration, s), Trace(g.log, Granted, s);
            SameOrder(served, arrived, served) <==> SameOrder(served, arrived, Trace(g.log, Enqueued, s))
  {
    var served := Trace(g.log, Granted, s);
    forall a, b | a in served && b in served
      ensures Before(served, a, b) <==> Before(Trace(g.log, Enqueued, s), a, b)
    {
      GrantedAsEnqueued(g, maxParallel, s, a, b);
    }
  }

  /** Every registration is followed at once by its entry joining the queue. */
  predicate Prompt(acts: seq<Action>) {
    forall i :: 0 <= i < |acts| && acts[i].Register? ==> i + 1 < |acts| && acts[i + 1] == Enqueue(acts[i].id)
  }

  ghost predicate NoneBetween(g: Gate) {
    forall id :: id in g.entries ==> g.entries[id].phase != Registered
  }

  lemma PromptStep(g: Gate, a: Action, s: Scope)
    requires NoneBetween(g) && Enabled(g, a) && !a.Register?
    ensures NoneBetween(Apply(g, a))
    ensures Trace(Apply(g, a).log, Registration, s) == Trace(g.log, Registration, s)
    ensures Trace(Apply(g, a).log, Enqueued, s) == Trace(g.log, Enqueued, s)
  {
    TraceGrowth(g, a, Registration, s);
    TraceGrowth(g, a, Enqueued, s);
  }

  lemma RegisterAndEnqueue(g: Gate, id: EntryId, s: Scope)
    requires NoneBetween(g) && Enabled(g, Register(id)) && Enabled(DoRegister(g, id), Enqueue(id))
    ensures var g' := DoEnqueue(DoRegister(g, id), id);
            var more := if g.entries[id].scope == s then [id] else [];
            && NoneBetween(g')
            && Trace(g'.log, Registration, s) == Trace(g.log, Registration, s) + more
            && Trace(g'.log, Enqueued, s) == Trace(g.log, Enqueued, s) + more
  {
    var mid := DoRegister(g, id);
    TraceGrowth(g, Register(id), Registration, s);
    TraceGrowth(g, Register(id), Enqueued, s);
    TraceGrowth(mid, Enqueue(id), Registration, s);
    TraceGrowth(mid, Enqueue(id), Enqueued, s);
  }

  lemma PromptTail(acts: seq<Action>, k: nat)
    requires k <= |acts| && Prompt(acts)
    ensures Prompt(acts[k..])
  {
    forall i | 0 <= i < |acts[k..]| && acts[k..][i].Register?
      ensures i + 1 < |acts[k..]| && acts[k..][i + 1] == Enqueue(acts[k..][i].id)
    {
      assert acts[k + i].Register?;
    }
  }

  lemma {:induction false} PromptTraces(g: Gate, acts: seq<Action>, s: Scope)
    requires NoneBetween(g) && ValidRun(g, acts) && Prompt(acts)
    requires Trace(g.log, Registration, s) == Trace(g.log, Enqueued, s)
    ensures Trace(After(g, acts).log, Registration, s) == Trace(After(g, acts).log, Enqueued, s)
    decreases acts
  {
    if acts != [] {
      var g', rest := Apply(g, acts[0]), acts[1..];
      if acts[0].Register? {
        RegisterAndEnqueue(g, acts[0].id, s);
        PromptTail(acts, 1);
        PromptTail(rest, 1);
        PromptTraces(Apply(g', rest[0]), rest[1..], s);
      } else {
        PromptStep(g, acts[0], s);
        PromptTail(acts, 1);
        PromptTraces(g', rest, s);
      }
    }
  }

  /** Then the scope serves its entries in the order they arrived. */
  lemma PromptServedAsArrived(maxParallel: nat, acts: seq<Action>, s: Scope)
    requires ValidRun(NewGate(maxParallel), acts) && Prompt(acts)
    ensures var g := After(NewGate(maxParallel), acts);
            Minus(Trace(g.log, Registration, s), Trace(g.log, Quit, s)) == Trace(g.log, Granted, s) + QueueOf(g, s)
  {
    QueueServedInOrder(After(NewGate(maxParallel), acts), maxParallel, s);
    PromptTraces(NewGate(maxParallel), acts, s);
  }
}
