/**
  Every enabled step keeps the gate invariant.

  Seven of the twelve steps only move one entry to another phase (`Rephased`); what they keep
  is proved once. The other five touch the scope map or the tokens and are proved one by one.
*/
module GatePreservation {
  import opened Options
  import opened GateModel
  import opened GateInvariant

  // ----- steps that only change a phase -----

  /** `g'` is `g` with entry `id` in phase `p`, up to locks, permits and one event that cancels nothing. */
  ghost predicate Rephased(g: Gate, g': Gate, id: EntryId, p: Phase) {
    && id in g.entries
    && g'.entries == g.entries[id := g.entries[id].(phase := p)]
    && g'.scopes == g.scopes && g'.cancelled == g.cancelled
    && g'.nextId == g.nextId && g'.nextLock == g.nextLock && g'.maxPermits == g.maxPermits
    && g'.locks.Keys == g.locks.Keys
    && (g'.log == g.log || (|g'.log| > 0 && Quiet(g'.log[|g'.log| - 1]) && g'.log == g.log + [g'.log[|g'.log| - 1]]))
  }

  predicate Quiet(ev: Event) {
    !ev.EvRegistered? && !ev.EvInterrupted?
  }

  /** The phase changes of those seven steps. */
  predicate Forward(p: Phase, q: Phase) {
    && p != Arrived && q != Arrived
    && (Waiting(p) <==> Waiting(q))
    && (q in {Running, Unpermitted} ==> p in {Running, Unpermitted})
    && (p == Released ==> q == Released)
  }

  lemma RephaseIds(g: Gate, g': Gate, id: EntryId, p: Phase)
    requires IdsInv(g) && Rephased(g, g', id, p)
    ensures IdsInv(g')
  {
  }

  lemma RephaseCounts(g: Gate, g': Gate, id: EntryId, p: Phase)
    requires ScopeInv(g) && Rephased(g, g', id, p) && Forward(g.entries[id].phase, p)
    ensures ScopeInv(g')
  {
    forall s | s in g.scopes ensures RegisteredIn(g'.entries, s) == RegisteredIn(g.entries, s) {
    }
  }

  lemma RephaseSlots(g: Gate, g': Gate, id: EntryId, p: Phase)
    requires RunningInv(g) && PreemptibleInv(g)
    requires Rephased(g, g', id, p) && Forward(g.entries[id].phase, p)
    ensures RunningInv(g') && PreemptibleInv(g')
  {
  }

  lemma QuietAppend(g: Gate, g': Gate, id: EntryId, p: Phase, at: nat, s: Scope)
    requires Rephased(g, g', id, p)
    ensures CancelledSince(g'.log, at, s) <==> CancelledSince(g.log, at, s)
  {
    if g'.log != g.log {
      CancelledSinceAppend(g.log, g'.log[|g'.log| - 1], at, s);
    }
  }

  lemma RephaseTokens(g: Gate, g': Gate, id: EntryId, p: Phase)
    requires ExposureInv(g) && TokenInv(g)
    requires Rephased(g, g', id, p) && Forward(g.entries[id].phase, p)
    ensures ExposureInv(g') && TokenInv(g')
  {
    forall x | x in g.entries && g.entries[x].exposedAt.Some?
      ensures CancelledSince(g'.log, g.entries[x].exposedAt.value, g.entries[x].scope)
         <==> CancelledSince(g.log, g.entries[x].exposedAt.value, g.entries[x].scope)
    {
      QuietAppend(g, g', id, p, g.entries[x].exposedAt.value, g.entries[x].scope);
    }
  }

  lemma RephasePermits(g: Gate, g': Gate, id: EntryId, p: Phase)
    requires PermitInv(g) && Rephased(g, g', id, p)
    requires g.freePermits + (if HoldsPermit(g.entries[id].phase) then 1 else 0)
          == g'.freePermits + (if HoldsPermit(p) then 1 else 0)
    ensures PermitInv(g')
  {
    HoldersUpdate(g.entries, id, g'.entries[id]);
    var holders := PermitHolders(g.entries);
    assert id in holders <==> HoldsPermit(g.entries[id].phase);
    if HoldsPermit(g.entries[id].phase) {
      assert holders + {id} == holders && |holders - {id}| == |holders| - 1;
    } else {
      assert holders - {id} == holders && |holders + {id}| == |holders| + 1;
    }
  }

  /** A step that leaves the locks alone and keeps the entry on or off its lock keeps the lock invariants. */
  lemma RephaseLocks(g: Gate, g': Gate, id: EntryId, p: Phase)
    requires HolderInv(g) && QueueInv(g) && Rephased(g, g', id, p) && g'.locks == g.locks
    requires HoldsLock(g.entries[id].phase) <==> HoldsLock(p)
    requires g.entries[id].phase != Queued && p != Queued
    ensures HolderInv(g') && QueueInv(g')
  {
  }

  lemma Rephase(g: Gate, g': Gate, id: EntryId, p: Phase)
    requires GateInv(g) && Rephased(g, g', id, p) && Forward(g.entries[id].phase, p)
    requires HolderInv(g') && QueueInv(g')
    requires g.freePermits + (if HoldsPermit(g.entries[id].phase) then 1 else 0)
          == g'.freePermits + (if HoldsPermit(p) then 1 else 0)
    ensures GateInv(g')
  {
    RephaseIds(g, g', id, p);
    RephaseCounts(g, g', id, p);
    RephaseSlots(g, g', id, p);
    RephaseTokens(g, g', id, p);
    RephasePermits(g, g', id, p);
  }

  lemma EnqueueLocks(g: Gate, id: EntryId)
    requires HolderInv(g) && QueueInv(g) && Enabled(g, Enqueue(id))
    ensures HolderInv(DoEnqueue(g, id)) && QueueInv(DoEnqueue(g, id))
  {
    assert forall l :: l in g.locks ==> id !in g.locks[l].fifo;
  }

  lemma KeepEnqueue(g: Gate, id: EntryId)
    requires GateInv(g) && Enabled(g, Enqueue(id))
    ensures GateInv(DoEnqueue(g, id))
  {
    EnqueueLocks(g, id);
    Rephase(g, DoEnqueue(g, id), id, Queued);
  }

  lemma GrantLocks(g: Gate, id: EntryId)
    requires HolderInv(g) && QueueInv(g) && Enabled(g, GrantLock(id))
    ensures HolderInv(DoGrantLock(g, id)) && QueueInv(DoGrantLock(g, id))
  {
    var fifo := g.locks[g.entries[id].lock].fifo;
    assert fifo == [id] + fifo[1..];
    assert id !in fifo[1..];
    assert forall x :: x in fifo[1..] ==> x in fifo;
  }

  lemma KeepGrantLock(g: Gate, id: EntryId)
    requires GateInv(g) && Enabled(g, GrantLock(id))
    ensures GateInv(DoGrantLock(g, id))
  {
    GrantLocks(g, id);
    Rephase(g, DoGrantLock(g, id), id, Locked);
  }

  lemma KeepGrantPermit(g: Gate, id: EntryId)
    requires GateInv(g) && Enabled(g, GrantPermit(id))
    ensures GateInv(DoGrantPermit(g, id))
  {
    RephaseLocks(g, DoGrantPermit(g, id), id, Permitted);
    Rephase(g, DoGrantPermit(g, id), id, Permitted);
  }

  lemma KeepDropPermit(g: Gate, id: EntryId)
    requires GateInv(g) && Enabled(g, DropPermit(id))
    ensures GateInv(DoDropPermit(g, id))
  {
    RephaseLocks(g, DoDropPermit(g, id), id, Unpermitted);
    Rephase(g, DoDropPermit(g, id), id, Unpermitted);
  }

  lemma ReleaseLocks(g: Gate, g': Gate, id: EntryId, p: Phase)
    requires HolderInv(g) && QueueInv(g) && Rephased(g, g', id, p)
    requires HoldsLock(g.entries[id].phase) && p in {Released, Abandoned}
    requires g.entries[id].lock in g.locks
    requires g'.locks == g.locks[g.entries[id].lock := g.locks[g.entries[id].lock].(holder := None)]
    ensures HolderInv(g') && QueueInv(g')
  {
  }

  lemma KeepDropLock(g: Gate, id: EntryId)
    requires GateInv(g) && Enabled(g, DropLock(id))
    ensures GateInv(DoDropLock(g, id))
  {
    ReleaseLocks(g, DoDropLock(g, id), id, Released);
    Rephase(g, DoDropLock(g, id), id, Released);
  }

  lemma KeepAbandonLocked(g: Gate, id: EntryId)
    requires GateInv(g) && Enabled(g, AbandonLocked(id))
    ensures GateInv(DoAbandonLocked(g, id))
  {
    ReleaseLocks(g, DoAbandonLocked(g, id), id, Abandoned);
    Rephase(g, DoAbandonLocked(g, id), id, Abandoned);
  }

  lemma DequeueLocks(g: Gate, id: EntryId)
    requires HolderInv(g) && QueueInv(g) && Enabled(g, AbandonQueued(id))
    ensures HolderInv(DoAbandonQueued(g, id)) && QueueInv(DoAbandonQueued(g, id))
  {
    var fifo := g.locks[g.entries[id].lock].fifo;
    WithoutElements(fifo, id);
    WithoutNoDuplicates(fifo, id);
  }

  lemma KeepAbandonQueued(g: Gate, id: EntryId)
    requires GateInv(g) && Enabled(g, AbandonQueued(id))
    ensures GateInv(DoAbandonQueued(g, id))
  {
    DequeueLocks(g, id);
    Rephase(g, DoAbandonQueued(g, id), id, Abandoned);
  }

  // ----- arrival -----

  lemma ArriveScopes(g: Gate, s: Scope, preempt: bool)
    requires IdsInv(g) && ScopeInv(g)
    ensures IdsInv(DoArrive(g, s, preempt)) && ScopeInv(DoArrive(g, s, preempt))
  {
    forall t | t in g.scopes
      ensures RegisteredIn(DoArrive(g, s, preempt).entries, t) == RegisteredIn(g.entries, t)
    {
      RegisteredUpdate(g.entries, g.nextId, Entry(s, preempt, 0, Arrived, None), t);
    }
  }

  lemma ArriveLocks(g: Gate, s: Scope, preempt: bool)
    requires IdsInv(g) && HolderInv(g) && QueueInv(g)
    ensures HolderInv(DoArrive(g, s, preempt)) && QueueInv(DoArrive(g, s, preempt))
  {
  }

  lemma ArriveSlots(g: Gate, s: Scope, preempt: bool)
    requires IdsInv(g) && RunningInv(g) && PreemptibleInv(g)
    ensures RunningInv(DoArrive(g, s, preempt)) && PreemptibleInv(DoArrive(g, s, preempt))
  {
  }

  lemma ArriveTokens(g: Gate, s: Scope, preempt: bool)
    requires IdsInv(g) && PermitInv(g) && ExposureInv(g) && TokenInv(g)
    ensures var g' := DoArrive(g, s, preempt); PermitInv(g') && ExposureInv(g') && TokenInv(g')
  {
    assert PermitHolders(DoArrive(g, s, preempt).entries) == PermitHolders(g.entries);
  }

  lemma KeepArrive(g: Gate, s: Scope, preempt: bool)
    requires GateInv(g)
    ensures GateInv(DoArrive(g, s, preempt))
  {
    ArriveScopes(g, s, preempt);
    ArriveLocks(g, s, preempt);
    ArriveSlots(g, s, preempt);
    ArriveTokens(g, s, preempt);
  }

  // ----- registration -----

  lemma RegisterIds(g: Gate, id: EntryId)
    requires IdsInv(g) && Enabled(g, Register(id))
    ensures IdsInv(DoRegister(g, id))
  {
  }

  lemma RegisterCounts(g: Gate, id: EntryId, t: Scope)
    requires ScopeInv(g) && Enabled(g, Register(id))
    ensures |RegisteredIn(DoRegister(g, id).entries, t)| ==
            (if t in g.scopes then g.scopes[t].users else 0) + (if t == g.entries[id].scope then 1 else 0)
  {
    RegisteredUpdate(g.entries, id, DoRegister(g, id).entries[id], t);
    assert id !in RegisteredIn(g.entries, t);
    if t !in g.scopes {
      assert RegisteredIn(g.entries, t) == {};
    }
    assert RegisteredIn(g.entries, t) - {id} == RegisteredIn(g.entries, t);
  }

  lemma RegisterScopes(g: Gate, id: EntryId)
    requires ScopeInv(g) && Enabled(g, Register(id))
    ensures ScopeInv(DoRegister(g, id))
  {
    forall t | t in DoRegister(g, id).scopes
      ensures |RegisteredIn(DoRegister(g, id).entries, t)| ==
              (if t in g.scopes then g.scopes[t].users else 0) + (if t == g.entries[id].scope then 1 else 0)
    {
      RegisterCounts(g, id, t);
    }
  }

  lemma RegisterLocks(g: Gate, id: EntryId)
    requires IdsInv(g) && HolderInv(g) && QueueInv(g) && Enabled(g, Register(id))
    ensures HolderInv(DoRegister(g, id)) && QueueInv(DoRegister(g, id))
  {
  }

  lemma RegisterRunning(g: Gate, id: EntryId)
    requires RunningInv(g) && Enabled(g, Register(id))
    ensures RunningInv(DoRegister(g, id))
  {
  }

  lemma RegisterPreemptible(g: Gate, id: EntryId)
    requires PreemptibleInv(g) && Enabled(g, Register(id))
    ensures PreemptibleInv(DoRegister(g, id))
  {
    var g' := DoRegister(g, id);
    var e := g.entries[id];
    var old' := EntryOrDefault(g, e.scope).queuedPreemptible;
    assert forall x :: x in g'.scopes[e.scope].queuedPreemptible <==> x in old' || (e.preempt && x == id);
  }

  lemma RegisterPermits(g: Gate, id: EntryId)
    requires PermitInv(g) && Enabled(g, Register(id))
    ensures PermitInv(DoRegister(g, id))
  {
    HoldersUpdate(g.entries, id, DoRegister(g, id).entries[id]);
    assert PermitHolders(g.entries) - {id} == PermitHolders(g.entries);
  }

  lemma RegisterExposure(g: Gate, id: EntryId)
    requires ExposureInv(g) && Enabled(g, Register(id))
    ensures ExposureInv(DoRegister(g, id))
  {
  }

  // ----- publication -----

  /** Two lock holders of one scope are one entry. */
  lemma OneHolderPerScope(g: Gate, a: EntryId, b: EntryId)
    requires ScopeInv(g) && HolderInv(g)
    requires a in g.entries && b in g.entries && g.entries[a].scope == g.entries[b].scope
    requires HoldsLock(g.entries[a].phase) && HoldsLock(g.entries[b].phase)
    ensures a == b
  {
  }

  lemma PublishIds(g: Gate, id: EntryId)
    requires IdsInv(g) && Enabled(g, Publish(id))
    ensures IdsInv(DoPublish(g, id))
  {
  }

  lemma PublishScopes(g: Gate, id: EntryId)
    requires ScopeInv(g) && Enabled(g, Publish(id))
    ensures ScopeInv(DoPublish(g, id))
  {
    forall s | s in g.scopes ensures RegisteredIn(DoPublish(g, id).entries, s) == RegisteredIn(g.entries, s) {
      RegisteredUpdate(g.entries, id, DoPublish(g, id).entries[id], s);
    }
  }

  lemma PublishLocks(g: Gate, id: EntryId)
    requires HolderInv(g) && QueueInv(g) && Enabled(g, Publish(id))
    ensures HolderInv(DoPublish(g, id)) && QueueInv(DoPublish(g, id))
  {
  }

  lemma PublishRunning(g: Gate, id: EntryId)
    requires ScopeInv(g) && HolderInv(g) && RunningInv(g) && Enabled(g, Publish(id))
    ensures RunningInv(DoPublish(g, id))
  {
    forall x | x in g.entries && x != id && g.entries[x].phase in {Running, Unpermitted}
      ensures g.entries[x].scope != g.entries[id].scope
    {
      if g.entries[x].scope == g.entries[id].scope {
        OneHolderPerScope(g, x, id);
      }
    }
  }

  lemma PublishPreemptible(g: Gate, id: EntryId)
    requires PreemptibleInv(g) && Enabled(g, Publish(id))
    ensures PreemptibleInv(DoPublish(g, id))
  {
    var s := g.entries[id].scope;
    if s in g.scopes {
      WithoutElements(g.scopes[s].queuedPreemptible, id);
    }
  }

  lemma PublishPermits(g: Gate, id: EntryId)
    requires PermitInv(g) && Enabled(g, Publish(id))
    ensures PermitInv(DoPublish(g, id))
  {
    HoldersUpdate(g.entries, id, DoPublish(g, id).entries[id]);
    assert PermitHolders(g.entries) + {id} == PermitHolders(g.entries);
  }

  lemma PublishExposure(g: Gate, id: EntryId)
    requires ExposureInv(g) && Enabled(g, Publish(id))
    ensures ExposureInv(DoPublish(g, id))
  {
  }

  lemma PublishTokens(g: Gate, id: EntryId)
    requires ExposureInv(g) && TokenInv(g) && Enabled(g, Publish(id))
    ensures TokenInv(DoPublish(g, id))
  {
    var g' := DoPublish(g, id);
    var ev := EvPublished(id, g.entries[id].scope);
    forall at: nat, s ensures CancelledSince(g'.log, at, s) <==> CancelledSince(g.log, at, s) {
      CancelledSinceAppend(g.log, ev, at, s);
    }
    assert !CancelledSince(g.log, |g.log|, g.entries[id].scope);
  }

  lemma KeepPublish(g: Gate, id: EntryId)
    requires GateInv(g) && Enabled(g, Publish(id))
    ensures GateInv(DoPublish(g, id))
  {
    PublishIds(g, id);
    PublishScopes(g, id);
    PublishLocks(g, id);
    PublishRunning(g, id);
    PublishPreemptible(g, id);
    PublishPermits(g, id);
    PublishExposure(g, id);
    PublishTokens(g, id);
  }

  // ----- unregistration -----

  /** The last user of a scope is the only entry registered there. */
  lemma SoleUser(g: Gate, id: EntryId)
    requires ScopeInv(g) && id in g.entries && g.entries[id].phase != Arrived
    requires g.scopes[g.entries[id].scope].users == 1
    ensures forall x :: x in g.entries && x != id && g.entries[x].phase != Arrived ==>
              g.entries[x].scope != g.entries[id].scope
  {
    var users := RegisteredIn(g.entries, g.entries[id].scope);
    assert id in users;
    assert |users - {id}| == 0;
    assert users - {id} == {};
    forall x | x in g.entries && x != id && g.entries[x].phase != Arrived
      ensures g.entries[x].scope != g.entries[id].scope
    {
      assert x in RegisteredIn(g.entries, g.entries[x].scope);
    }
  }

  lemma UnregisterCounts(g: Gate, id: EntryId, t: Scope)
    requires ScopeInv(g) && Enabled(g, Unregister(id)) && t in g.scopes
    ensures |RegisteredIn(DoUnregister(g, id).entries, t)| ==
            if t == g.entries[id].scope then g.scopes[t].users - 1 else g.scopes[t].users
  {
    assert RegisteredIn(g.entries - {id}, t) == RegisteredIn(g.entries, t) - {id};
    assert id in RegisteredIn(g.entries, t) <==> t == g.entries[id].scope;
  }

  lemma UnregisterIds(g: Gate, id: EntryId)
    requires IdsInv(g) && Enabled(g, Unregister(id))
    ensures IdsInv(DoUnregister(g, id))
  {
  }

  lemma UnregisterScopes(g: Gate, id: EntryId)
    requires ScopeInv(g) && Enabled(g, Unregister(id))
    ensures ScopeInv(DoUnregister(g, id))
  {
    forall t | t in g.scopes
      ensures |RegisteredIn(DoUnregister(g, id).entries, t)| ==
              if t == g.entries[id].scope then g.scopes[t].users - 1 else g.scopes[t].users
    {
      UnregisterCounts(g, id, t);
    }
    if g.scopes[g.entries[id].scope].users == 1 {
      SoleUser(g, id);
    }
  }

  lemma UnregisterLocks(g: Gate, id: EntryId)
    requires HolderInv(g) && QueueInv(g) && Enabled(g, Unregister(id))
    ensures HolderInv(DoUnregister(g, id)) && QueueInv(DoUnregister(g, id))
  {
  }

  lemma UnregisterRunning(g: Gate, id: EntryId)
    requires ScopeInv(g) && RunningInv(g) && Enabled(g, Unregister(id))
    ensures RunningInv(DoUnregister(g, id))
  {
    if g.scopes[g.entries[id].scope].users == 1 {
      SoleUser(g, id);
    }
  }

  lemma UnregisterPreemptible(g: Gate, id: EntryId)
    requires ScopeInv(g) && PreemptibleInv(g) && Enabled(g, Unregister(id))
    ensures PreemptibleInv(DoUnregister(g, id))
  {
    var s := g.entries[id].scope;
    WithoutElements(g.scopes[s].queuedPreemptible, id);
    assert g.scopes[s].users == |RegisteredIn(g.entries, s)|;
    if g.scopes[s].users == 1 {
      SoleUser(g, id);
    }
  }

  lemma UnregisterTokens(g: Gate, id: EntryId)
    requires PermitInv(g) && ExposureInv(g) && TokenInv(g) && Enabled(g, Unregister(id))
    ensures var g' := DoUnregister(g, id); PermitInv(g') && ExposureInv(g') && TokenInv(g')
  {
    assert PermitHolders(g.entries - {id}) == PermitHolders(g.entries);
  }

  lemma KeepUnregister(g: Gate, id: EntryId)
    requires GateInv(g) && Enabled(g, Unregister(id))
    ensures GateInv(DoUnregister(g, id))
  {
    UnregisterIds(g, id);
    UnregisterScopes(g, id);
    UnregisterLocks(g, id);
    UnregisterRunning(g, id);
    UnregisterPreemptible(g, id);
    UnregisterTokens(g, id);
  }

  // ----- cancellation -----

  /** What `cancel_preemptible` reaches in a tracked scope: exactly its exposed entries,
      except that a published entry that has released its lock may already be out of reach. */
  lemma CancellableExact(g: Gate, s: Scope, id: EntryId)
    requires RunningInv(g) && PreemptibleInv(g) && s in g.scopes && id in g.entries
    ensures id in Cancellable(g.scopes[s]) ==> g.entries[id].scope == s && Exposed(g.entries[id])
    ensures g.entries[id].scope == s && Exposed(g.entries[id]) && g.entries[id].phase != Released ==>
              id in Cancellable(g.scopes[s])
  {
  }

  /** Cancelling a scope's tokens while logging a cancelling event for it. */
  lemma CancelKeepsTokens(g: Gate, g': Gate, s: Scope, ev: Event)
    requires IdsInv(g) && RunningInv(g) && PreemptibleInv(g) && ExposureInv(g) && TokenInv(g)
    requires Cancels(ev, s) && (forall t :: Cancels(ev, t) ==> t == s)
    requires g'.log == g.log + [ev] && g'.nextId == g.nextId && g'.entries == g.entries
    requires g'.cancelled == g.cancelled + (if s in g.scopes then Cancellable(g.scopes[s]) else {})
    requires ScopeInv(g)
    ensures TokenInv(g')
  {
    forall at: nat, t
      ensures CancelledSince(g'.log, at, t) <==> CancelledSince(g.log, at, t) || (at < |g.log| && t == s)
    {
      CancelledSinceAppend(g.log, ev, at, t);
    }
    forall id | id in g.entries && s in g.scopes
      ensures id in Cancellable(g.scopes[s]) ==> g.entries[id].scope == s && Exposed(g.entries[id])
      ensures g.entries[id].scope == s && Exposed(g.entries[id]) && g.entries[id].phase != Released ==>
                id in Cancellable(g.scopes[s])
    {
      CancellableExact(g, s, id);
    }
  }

  lemma KeepInterrupt(g: Gate, s: Scope)
    requires GateInv(g)
    ensures GateInv(DoInterrupt(g, s))
  {
    CancelKeepsTokens(g, DoInterrupt(g, s), s, EvInterrupted(s));
    InterruptExposure(g, s);
  }

  lemma InterruptExposure(g: Gate, s: Scope)
    requires ExposureInv(g)
    ensures ExposureInv(DoInterrupt(g, s))
  {
  }

  /** Registering first cancels what it finds, then joins; its own token starts uncancelled. */
  lemma RegisterTokens(g: Gate, id: EntryId)
    requires IdsInv(g) && ScopeInv(g) && RunningInv(g) && PreemptibleInv(g) && ExposureInv(g) && TokenInv(g)
    requires Enabled(g, Register(id))
    ensures TokenInv(DoRegister(g, id))
  {
    var g' := DoRegister(g, id);
    var e := g.entries[id];
    var ev := EvRegistered(id, e.scope, e.preempt);
    assert id !in g.cancelled;
    if e.preempt {
      var mid := g.(cancelled := g'.cancelled, log := g'.log);
      CancelKeepsTokens(g, mid, e.scope, ev);
      assert id !in mid.cancelled;
      assert !CancelledSince(g'.log, |g.log|, e.scope);
    } else {
      forall at: nat, s ensures CancelledSince(g'.log, at, s) <==> CancelledSince(g.log, at, s) {
        CancelledSinceAppend(g.log, ev, at, s);
      }
    }
  }

  lemma KeepRegister(g: Gate, id: EntryId)
    requires GateInv(g) && Enabled(g, Register(id))
    ensures GateInv(DoRegister(g, id))
  {
    RegisterIds(g, id);
    RegisterScopes(g, id);
    RegisterLocks(g, id);
    RegisterRunning(g, id);
    RegisterPreemptible(g, id);
    RegisterPermits(g, id);
    RegisterExposure(g, id);
    RegisterTokens(g, id);
  }

  // ----- every step -----

  lemma EnteringKeepsInv(g: Gate, a: Action)
    requires GateInv(g) && Enabled(g, a)
    requires a.Arrive? || a.Register? || a.Enqueue? || a.GrantLock? || a.GrantPermit? || a.Publish?
    ensures GateInv(Apply(g, a))
  {
    match a {
      case Arrive(s, preempt) => KeepArrive(g, s, preempt);
      case Register(id) => KeepRegister(g, id);
      case Enqueue(id) => KeepEnqueue(g, id);
      case GrantLock(id) => KeepGrantLock(g, id);
      case GrantPermit(id) => KeepGrantPermit(g, id);
      case Publish(id) => KeepPublish(g, id);
    }
  }

  lemma LeavingKeepsInv(g: Gate, a: Action)
    requires GateInv(g) && Enabled(g, a)
    requires a.DropPermit? || a.DropLock? || a.Unregister? || a.AbandonQueued? || a.AbandonLocked? || a.Interrupt?
    ensures GateInv(Apply(g, a))
  {
    match a {
      case DropPermit(id) => KeepDropPermit(g, id);
      case DropLock(id) => KeepDropLock(g, id);
      case Unregister(id) => KeepUnregister(g, id);
      case AbandonQueued(id) => KeepAbandonQueued(g, id);
      case AbandonLocked(id) => KeepAbandonLocked(g, id);
      case Interrupt(s) => KeepInterrupt(g, s);
    }
  }

  lemma StepKeepsInv(g: Gate, a: Action)
    requires GateInv(g) && Enabled(g, a)
    ensures GateInv(Apply(g, a))
  {
    if a.Arrive? || a.Register? || a.Enqueue? || a.GrantLock? || a.GrantPermit? || a.Publish? {
      EnteringKeepsInv(g, a);
    } else {
      LeavingKeepsInv(g, a);
    }
  }
}
