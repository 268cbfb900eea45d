/** What the scope gate promises, in every state every interleaving can reach. */
module GateTheorems {
  import opened Numbers
  import opened Options
  import opened GateModel
  import opened GateInvariant
  import opened GatePreservation

  // ----- over runs -----

  lemma {:induction false} RunKeepsInv(g: Gate, acts: seq<Action>)
    requires GateInv(g) && ValidRun(g, acts)
    ensures GateInv(After(g, acts))
    decreases acts
  {
    if acts != [] {
      StepKeepsInv(g, acts[0]);
      RunKeepsInv(Apply(g, acts[0]), acts[1..]);
    }
  }

  lemma FirstThenRest(g: Gate, a: Action, rest: seq<Action>)
    requires Enabled(g, a) && ValidRun(Apply(g, a), rest)
    ensures ValidRun(g, [a] + rest) && After(g, [a] + rest) == After(Apply(g, a), rest)
  {
    assert ([a] + rest)[1..] == rest;
  }

  lemma {:induction false} RunThenRun(g: Gate, first: seq<Action>, second: seq<Action>)
    requires ValidRun(g, first) && ValidRun(After(g, first), second)
    ensures ValidRun(g, first + second) && After(g, first + second) == After(After(g, first), second)
    decreases first
  {
    if first == [] {
      assert first + second == second;
    } else {
      assert (first + second)[1..] == first[1..] + second;
      RunThenRun(Apply(g, first[0]), first[1..], second);
    }
  }

  ghost predicate Reachable(g: Gate, maxParallel: nat) {
    exists acts :: ValidRun(NewGate(maxParallel), acts) && After(NewGate(maxParallel), acts) == g
  }

  lemma ReachableInv(g: Gate, maxParallel: nat)
    requires Reachable(g, maxParallel)
    ensures GateInv(g)
  {
    var acts :| ValidRun(NewGate(maxParallel), acts) && After(NewGate(maxParallel), acts) == g;
    NewGateInv(maxParallel);
    RunKeepsInv(NewGate(maxParallel), acts);
  }

  lemma {:induction false} RunConstants(g: Gate, acts: seq<Action>)
    requires ValidRun(g, acts)
    ensures After(g, acts).maxPermits == g.maxPermits
    ensures g.cancelled <= After(g, acts).cancelled
    ensures g.log <= After(g, acts).log
    decreases acts
  {
    if acts != [] {
      RunConstants(Apply(g, acts[0]), acts[1..]);
    }
  }

  /** A cancelled token stays cancelled for the rest of the run. */
  lemma CancelledNeverReverts(g: Gate, acts: seq<Action>, id: EntryId)
    requires ValidRun(g, acts) && id in g.cancelled
    ensures id in After(g, acts).cancelled
  {
    RunConstants(g, acts);
  }

  // ----- mutual exclusion and bookkeeping -----

  /** At most one entry per scope is between lock grant and lock release. */
  lemma MutualExclusion(g: Gate, maxParallel: nat, a: EntryId, b: EntryId)
    requires Reachable(g, maxParallel)
    requires a in g.entries && b in g.entries && g.entries[a].scope == g.entries[b].scope
    requires HoldsLock(g.entries[a].phase) && HoldsLock(g.entries[b].phase)
    ensures a == b
  {
    ReachableInv(g, maxParallel);
    OneHolderPerScope(g, a, b);
  }

  /** The map tracks a scope exactly while an entry is registered there, and counts them;
      all of them hold handles of one lock object, which no other scope has. */
  lemma ScopesTracked(g: Gate, maxParallel: nat, s: Scope)
    requires Reachable(g, maxParallel)
    ensures s in g.scopes <==> RegisteredIn(g.entries, s) != {}
    ensures s in g.scopes ==> g.scopes[s].users == |RegisteredIn(g.entries, s)|
    ensures s in g.scopes ==> forall id :: id in g.entries && g.entries[id].phase != Arrived ==>
              (g.entries[id].lock == g.scopes[s].lock <==> g.entries[id].scope == s)
  {
    ReachableInv(g, maxParallel);
    forall id | id in RegisteredIn(g.entries, s) ensures s in g.scopes {
    }
  }

  // ----- permits -----

  lemma PermitsConserved(g: Gate, maxParallel: nat)
    requires Reachable(g, maxParallel)
    ensures g.freePermits + |PermitHolders(g.entries)| == Max(maxParallel, 1)
  {
    ReachableInv(g, maxParallel);
    var acts :| ValidRun(NewGate(maxParallel), acts) && After(NewGate(maxParallel), acts) == g;
    RunConstants(NewGate(maxParallel), acts);
  }

  /** Permit holders hold their scope locks and have distinct scopes; a queued entry holds none. */
  lemma PermitHoldersDistinct(g: Gate, maxParallel: nat, a: EntryId)
    requires Reachable(g, maxParallel) && a in PermitHolders(g.entries)
    ensures g.entries[a].lock in g.locks && g.locks[g.entries[a].lock].holder == Some(a)
    ensures a !in g.locks[g.entries[a].lock].fifo
    ensures forall b :: b in PermitHolders(g.entries) && b != a ==> g.entries[b].scope != g.entries[a].scope
  {
    ReachableInv(g, maxParallel);
    forall b | b in PermitHolders(g.entries) && b != a ensures g.entries[b].scope != g.entries[a].scope {
      if g.entries[b].scope == g.entries[a].scope {
        OneHolderPerScope(g, a, b);
      }
    }
  }

  // ----- newest message wins -----

  /** The token of a preempting entry that has not released its lock is cancelled exactly when,
      after it registered, another preempting entry registered in its scope or the scope was
      interrupted. */
  lemma PreemptingCancelledIff(g: Gate, maxParallel: nat, id: EntryId)
    requires Reachable(g, maxParallel) && id in g.entries
    requires g.entries[id].preempt && g.entries[id].phase !in {Arrived, Released}
    ensures g.entries[id].exposedAt.Some?
    ensures var e := g.entries[id];
            && e.exposedAt.value < |g.log| && g.log[e.exposedAt.value] == EvRegistered(id, e.scope, true)
            && (id in g.cancelled <==> CancelledSince(g.log, e.exposedAt.value, e.scope))
  {
    ReachableInv(g, maxParallel);
  }

  /** Of two preempting entries of a scope, the one that registered first is cancelled
      unless it has already released the lock. */
  lemma NewestWins(g: Gate, maxParallel: nat, older: EntryId, newer: EntryId)
    requires Reachable(g, maxParallel) && older in g.entries && newer in g.entries && older != newer
    requires g.entries[older].scope == g.entries[newer].scope
    requires g.entries[older].preempt && g.entries[newer].preempt
    requires g.entries[older].phase !in {Arrived, Released} && g.entries[newer].phase != Arrived
    ensures g.entries[older].exposedAt.Some? && g.entries[newer].exposedAt.Some?
    ensures g.entries[older].exposedAt != g.entries[newer].exposedAt
    ensures g.entries[older].exposedAt.value < g.entries[newer].exposedAt.value ==> older in g.cancelled
  {
    ReachableInv(g, maxParallel);
    assert Exposed(g.entries[older]) && Exposed(g.entries[newer]);
    var i, j := g.entries[older].exposedAt.value, g.entries[newer].exposedAt.value;
    if i < j {
      assert Cancels(g.log[j], g.entries[older].scope);
      assert CancelledSince(g.log, i, g.entries[older].scope);
    }
  }

  /** The last preempting entry to register in a scope is cancelled only by an interrupt. */
  lemma NewestOnlyInterrupted(g: Gate, maxParallel: nat, id: EntryId)
    requires Reachable(g, maxParallel) && id in g.entries && id in g.cancelled
    requires g.entries[id].preempt && g.entries[id].exposedAt.Some?
    requires forall j :: g.entries[id].exposedAt.value < j < |g.log| && g.log[j].EvRegistered? && g.log[j].preempt ==>
               g.log[j].scope != g.entries[id].scope
    ensures exists j :: g.entries[id].exposedAt.value < j < |g.log| && g.log[j] == EvInterrupted(g.entries[id].scope)
  {
    ReachableInv(g, maxParallel);
    var e := g.entries[id];
    var j :| e.exposedAt.value < j < |g.log| && Cancels(g.log[j], e.scope);
    assert g.log[j] == EvInterrupted(e.scope);
  }

  /** Background work is never cancelled while it waits; once published and until it releases
      the lock it is cancelled exactly when a later message or interrupt arrives for its scope. */
  lemma BackgroundCancelledIff(g: Gate, maxParallel: nat, id: EntryId)
    requires Reachable(g, maxParallel) && id in g.entries && !g.entries[id].preempt
    ensures !Published(g.entries[id].phase) ==> id !in g.cancelled
    ensures g.entries[id].phase in {Running, Unpermitted} ==>
              var e := g.entries[id];
              && e.exposedAt.Some? && e.exposedAt.value < |g.log|
              && g.log[e.exposedAt.value] == EvPublished(id, e.scope)
              && (id in g.cancelled <==> CancelledSince(g.log, e.exposedAt.value, e.scope))
  {
    ReachableInv(g, maxParallel);
  }

  // ----- the running slot -----

  /** The running slot names the published turn that holds the lock, so an interrupt reaches it. */
  lemma InterruptReachesTurn(g: Gate, maxParallel: nat, id: EntryId)
    requires Reachable(g, maxParallel) && id in g.entries && g.entries[id].phase in {Running, Unpermitted}
    ensures g.entries[id].scope in g.scopes && g.scopes[g.entries[id].scope].running == Some(id)
    ensures id in DoInterrupt(g, g.entries[id].scope).cancelled
  {
    ReachableInv(g, maxParallel);
  }

  /** A predecessor that unregisters late never erases its successor from the running slot. */
  lemma LateUnregisterKeepsSuccessor(g: Gate, maxParallel: nat, id: EntryId, successor: EntryId)
    requires Reachable(g, maxParallel) && Enabled(g, Unregister(id))
    requires successor in g.entries && g.entries[successor].phase in {Running, Unpermitted}
    ensures var s := g.entries[successor].scope;
            s in DoUnregister(g, id).scopes && DoUnregister(g, id).scopes[s].running == Some(successor)
  {
    ReachableInv(g, maxParallel);
    KeepUnregister(g, id);
    OthersStay(g, id, successor);
    RunningSlot(DoUnregister(g, id), successor);
  }

  lemma OthersStay(g: Gate, id: EntryId, other: EntryId)
    requires Enabled(g, Unregister(id)) && other in g.entries && g.entries[other].phase in {Running, Unpermitted}
    ensures other in DoUnregister(g, id).entries && DoUnregister(g, id).entries[other] == g.entries[other]
  {
  }

  lemma RunningSlot(g: Gate, id: EntryId)
    requires RunningInv(g) && id in g.entries && g.entries[id].phase in {Running, Unpermitted}
    ensures g.entries[id].scope in g.scopes && g.scopes[g.entries[id].scope].running == Some(id)
  {
  }

  /** `interrupt` reports whether it cancelled anything: some registered entry of the scope was exposed. */
  lemma InterruptReports(g: Gate, maxParallel: nat, s: Scope)
    requires Reachable(g, maxParallel)
    ensures s in g.scopes && Cancellable(g.scopes[s]) != {} ==>
              exists id :: id in g.entries && g.entries[id].scope == s && Exposed(g.entries[id])
    ensures (exists id :: id in g.entries && g.entries[id].scope == s && Exposed(g.entries[id])
                          && g.entries[id].phase != Released) ==>
              s in g.scopes && Cancellable(g.scopes[s]) != {}
  {
    ReachableInv(g, maxParallel);
    if s in g.scopes && Cancellable(g.scopes[s]) != {} {
      var id :| id in Cancellable(g.scopes[s]);
      CancellableExact(g, s, id);
    }
    if id :| id in g.entries && g.entries[id].scope == s && Exposed(g.entries[id]) && g.entries[id].phase != Released {
      CancellableExact(g, s, id);
    }
  }
}
