/** What every step of the scope gate keeps, one predicate per concern. */
module GateInvariant {
  import opened Options
  import opened GateModel

  // ----- scope accounting -----

  /** Ids and lock generations in use were handed out; lock objects are not shared by scopes. */
  ghost predicate IdsInv(g: Gate) {
    && (forall id :: id in g.entries ==> id < g.nextId)
    && (forall l :: l in g.locks ==> l < g.nextLock)
    && (forall s :: s in g.scopes ==> g.scopes[s].lock in g.locks)
    && (forall s, t :: s in g.scopes && t in g.scopes && g.scopes[s].lock == g.scopes[t].lock ==> s == t)
  }

  /** A scope is tracked iff some entry is registered there; `users` counts them; they share its lock. */
  ghost predicate ScopeInv(g: Gate) {
    && (forall id :: id in g.entries && g.entries[id].phase != Arrived ==>
          && g.entries[id].scope in g.scopes
          && g.entries[id].lock == g.scopes[g.entries[id].scope].lock)
    && (forall s :: s in g.scopes ==>
          g.scopes[s].users == |RegisteredIn(g.entries, s)| && g.scopes[s].users > 0)
  }

  // ----- locks -----

  ghost predicate NoDuplicates(q: seq<EntryId>) {
    forall i, j :: 0 <= i < j < |q| ==> q[i] != q[j]
  }

  ghost predicate HolderInv(g: Gate) {
    && (forall id :: id in g.entries && HoldsLock(g.entries[id].phase) ==>
          g.entries[id].lock in g.locks && g.locks[g.entries[id].lock].holder == Some(id))
    && (forall l :: l in g.locks && g.locks[l].holder.Some? ==>
          var h := g.locks[l].holder.value;
          h in g.entries && HoldsLock(g.entries[h].phase) && g.entries[h].lock == l)
  }

  ghost predicate QueueInv(g: Gate) {
    && (forall id :: id in g.entries && g.entries[id].phase == Queued ==>
          g.entries[id].lock in g.locks && id in g.locks[g.entries[id].lock].fifo)
    && (forall l, id {:trigger id in g.locks[l].fifo} :: l in g.locks && id in g.locks[l].fifo ==>
          id in g.entries && g.entries[id].phase == Queued && g.entries[id].lock == l)
    && (forall l :: l in g.locks ==> NoDuplicates(g.locks[l].fifo))
  }

  // ----- the running slot and the queued list -----

  ghost predicate RunningInv(g: Gate) {
    && (forall s :: s in g.scopes && g.scopes[s].running.Some? ==>
          var r := g.scopes[s].running.value;
          r in g.entries && g.entries[r].scope == s && Published(g.entries[r].phase))
    && (forall id :: id in g.entries && g.entries[id].phase in {Running, Unpermitted} ==>
          g.entries[id].scope in g.scopes && g.scopes[g.entries[id].scope].running == Some(id))
  }

  ghost predicate PreemptibleInv(g: Gate) {
    && (forall s, id {:trigger id in g.scopes[s].queuedPreemptible} ::
          s in g.scopes && id in g.scopes[s].queuedPreemptible ==>
          && id in g.entries && g.entries[id].scope == s
          && g.entries[id].preempt && Waiting(g.entries[id].phase))
    && (forall id :: id in g.entries && g.entries[id].preempt && Waiting(g.entries[id].phase) ==>
          g.entries[id].scope in g.scopes && id in g.scopes[g.entries[id].scope].queuedPreemptible)
  }

  // ----- permits -----

  ghost predicate PermitInv(g: Gate) {
    && g.maxPermits >= 1
    && g.freePermits + |PermitHolders(g.entries)| == g.maxPermits
  }

  // ----- tokens -----

  /** Events that call `cancel_preemptible` on scope `s`. */
  predicate Cancels(ev: Event, s: Scope) {
    match ev
    case EvRegistered(_, t, preempt) => t == s && preempt
    case EvInterrupted(t) => t == s
    case _ => false
  }

  /** A cancelling event for `s` strictly after log position `at`. */
  ghost predicate CancelledSince(log: seq<Event>, at: nat, s: Scope) {
    exists j :: at < j < |log| && Cancels(log[j], s)
  }

  /** The token can be reached by `cancel_preemptible`: a preempting entry since it registered,
      any other entry since it was published. */
  predicate Exposed(e: Entry) {
    (e.preempt && e.phase != Arrived) || Published(e.phase)
  }

  ghost predicate ExposureInv(g: Gate) {
    forall id :: id in g.entries ==>
      var e := g.entries[id];
      && (e.exposedAt.Some? <==> Exposed(e))
      && (e.exposedAt.Some? ==>
            && e.exposedAt.value < |g.log|
            && g.log[e.exposedAt.value] ==
                 if e.preempt then EvRegistered(id, e.scope, true) else EvPublished(id, e.scope))
  }

  ghost predicate TokenInv(g: Gate) {
    && (forall id :: id in g.cancelled ==> id < g.nextId)
    && (forall id :: id in g.entries && id in g.cancelled ==>
          var e := g.entries[id];
          e.exposedAt.Some? && CancelledSince(g.log, e.exposedAt.value, e.scope))
    && (forall id :: id in g.entries && g.entries[id].phase != Released && g.entries[id].exposedAt.Some?
                     && CancelledSince(g.log, g.entries[id].exposedAt.value, g.entries[id].scope) ==>
          id in g.cancelled)
  }

  ghost predicate GateInv(g: Gate) {
    && IdsInv(g)
    && ScopeInv(g)
    && HolderInv(g)
    && QueueInv(g)
    && RunningInv(g)
    && PreemptibleInv(g)
    && PermitInv(g)
    && ExposureInv(g)
    && TokenInv(g)
  }

  // ----- the new gate -----

  lemma NewGateInv(maxParallel: nat)
    ensures GateInv(NewGate(maxParallel))
  {
    assert PermitHolders(NewGate(maxParallel).entries) == {};
  }

  // ----- sequences -----

  lemma SomeElement(q: seq<EntryId>)
    ensures q != [] ==> exists id :: id in q
  {
    if q != [] {
      assert q[0] in q;
    }
  }

  lemma {:induction false} WithoutElements(q: seq<EntryId>, id: EntryId)
    ensures forall x :: x in Without(q, id) <==> x in q && x != id
    ensures |Without(q, id)| <= |q|
  {
    if q != [] {
      WithoutElements(q[1..], id);
      assert q == [q[0]] + q[1..];
    }
  }

  lemma {:induction false} WithoutNoDuplicates(q: seq<EntryId>, id: EntryId)
    requires NoDuplicates(q)
    ensures NoDuplicates(Without(q, id))
  {
    if q != [] {
      WithoutNoDuplicates(q[1..], id);
      WithoutElements(q[1..], id);
      assert q[0] !in q[1..];
      if q[0] != id {
        var rest := Without(q[1..], id);
        assert Without(q, id) == [q[0]] + rest;
        assert q[0] !in rest;
      }
    }
  }

  lemma CancelledSinceAppend(log: seq<Event>, ev: Event, at: nat, s: Scope)
    ensures CancelledSince(log + [ev], at, s) <==> CancelledSince(log, at, s) || (at < |log| && Cancels(ev, s))
  {
    if CancelledSince(log, at, s) {
      var j :| at < j < |log| && Cancels(log[j], s);
      assert (log + [ev])[j] == log[j];
    }
    if at < |log| && Cancels(ev, s) {
      assert (log + [ev])[|log|] == ev;
    }
    if CancelledSince(log + [ev], at, s) {
      var j :| at < j < |log + [ev]| && Cancels((log + [ev])[j], s);
      if j < |log| {
        assert log[j] == (log + [ev])[j];
      }
    }
  }

  // ----- counting -----

  /** Changing one entry changes the registered set of a scope by at most that entry. */
  lemma RegisteredUpdate(m: map<EntryId, Entry>, id: EntryId, e: Entry, s: Scope)
    ensures RegisteredIn(m[id := e], s) ==
      if e.phase != Arrived && e.scope == s then RegisteredIn(m, s) + {id} else RegisteredIn(m, s) - {id}
  {
  }

  lemma HoldersUpdate(m: map<EntryId, Entry>, id: EntryId, e: Entry)
    ensures PermitHolders(m[id := e]) ==
      if HoldsPermit(e.phase) then PermitHolders(m) + {id} else PermitHolders(m) - {id}
  {
  }
}
