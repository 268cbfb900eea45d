/**
  The scope gate with its state updated in place.

  Each method is one atomic step of `enter`, of dropping its guard, or of `interrupt`: what runs
  between two points where another task can get in. The fields stand for the scope map, the
  semaphore, the id counter, the lock objects behind the `Arc`s, the tokens, and the frames of
  the calls in flight. Every method is proved to be the step of the same name of `GateModel`, and
  `Take` to keep the invariant, so everything proved of runs there holds of every sequence of calls here.
*/
module ScopeGateImpl {
  import opened Numbers
  import opened Options
  import opened GateModel
  import opened GateInvariant
  import opened GatePreservation

  class ScopeGate {
    const maxPermits: nat
    var permits: nat
    var nextId: EntryId
    var nextLock: LockId
    var scopes: map<Scope, ScopeState>
    var locks: map<LockId, LockState>
    var entries: map<EntryId, Entry>
    var cancelled: set<EntryId>
    var log: seq<Event>  // history, for stating what may cancel what

    ghost function View(): Gate
      reads this
    {
      Gate(maxPermits, permits, nextId, nextLock, scopes, locks, entries, cancelled, log)
    }

    ghost predicate Valid()
      reads this
    {
      GateInv(View())
    }

    constructor (maxParallel: nat)
      ensures View() == NewGate(maxParallel) && Valid()
    {
      maxPermits := Max(maxParallel, 1);
      permits := Max(maxParallel, 1);
      nextId, nextLock := 0, 0;
      scopes, locks, entries, cancelled, log := map[], map[], map[], {}, [];
      new;
      NewGateInv(maxParallel);
    }

    /** Cancels the running turn and every queued preempting entry of one scope. */
    method CancelPreemptible(st: ScopeState) returns (any: bool)
      modifies this`cancelled
      ensures cancelled == old(cancelled) + Cancellable(st)
      ensures any <==> Cancellable(st) != {}
    {
      any := false;
      if st.running.Some? {
        cancelled := cancelled + {st.running.value};
        any := true;
      }
      for i := 0 to |st.queuedPreemptible|
        invariant cancelled == old(cancelled) + Elements(st.queuedPreemptible[..i])
                             + (if st.running.Some? then {st.running.value} else {})
        invariant any <==> st.running.Some? || i > 0
      {
        cancelled := cancelled + {st.queuedPreemptible[i]};
        any := true;
        assert st.queuedPreemptible[..i + 1] == st.queuedPreemptible[..i] + [st.queuedPreemptible[i]];
      }
      assert st.queuedPreemptible[..|st.queuedPreemptible|] == st.queuedPreemptible;
      assert any ==> exists id :: id in Cancellable(st) by {
        if st.running.Some? {
          assert st.running.value in Cancellable(st);
        } else if |st.queuedPreemptible| > 0 {
          assert st.queuedPreemptible[0] in Cancellable(st);
        }
      }
    }

    /** `Vec::retain` on the queued list. */
    static method Retain(q: seq<EntryId>, id: EntryId) returns (kept: seq<EntryId>)
      ensures kept == Without(q, id)
    {
      kept := [];
      for i := 0 to |q|
        invariant kept + Without(q[i..], id) == Without(q, id)
      {
        assert q[i..][1..] == q[i + 1..];
        if q[i] != id {
          kept := kept + [q[i]];
        }
      }
    }

    method Arrive(s: Scope, preempt: bool) returns (id: EntryId)
      modifies this
      ensures id == old(nextId) && View() == DoArrive(old(View()), s, preempt)
    {
      id := nextId;
      nextId := nextId + 1;
      entries := entries[id := Entry(s, preempt, 0, Arrived, None)];
    }

    /** `entry(key).or_default()`: a scope not yet tracked gets a lock object of its own. */
    method EntryOrInsert(s: Scope) returns (st: ScopeState)
      modifies this`scopes, this`locks, this`nextLock
      ensures st == EntryOrDefault(old(View()), s) && scopes == old(scopes)[s := st]
      ensures locks == if s in old(scopes) then old(locks) else old(locks)[old(nextLock) := LockState(None, [])]
      ensures nextLock == if s in old(scopes) then old(nextLock) else old(nextLock) + 1
    {
      if s !in scopes {
        scopes := scopes[s := ScopeState(nextLock, 0, None, [])];
        locks := locks[nextLock := LockState(None, [])];
        nextLock := nextLock + 1;
      }
      st := scopes[s];
    }

    /** First critical section of `enter`. */
    method Register(id: EntryId)
      requires Enabled(View(), Action.Register(id))
      modifies this
      ensures View() == DoRegister(old(View()), id)
    {
      var e := entries[id];
      var st := EntryOrInsert(e.scope);
      st := st.(users := st.users + 1);
      if e.preempt {
        var _ := CancelPreemptible(st);
        st := st.(queuedPreemptible := st.queuedPreemptible + [id]);
      }
      scopes := scopes[e.scope := st];
      entries := entries[id := e.(lock := st.lock, phase := Registered,
                                  exposedAt := if e.preempt then Some(|log|) else None)];
      log := log + [EvRegistered(id, e.scope, e.preempt)];
      assert scopes == DoRegister(old(View()), id).scopes;
    }

    method Enqueue(id: EntryId)
      requires Enabled(View(), Action.Enqueue(id))
      modifies this
      ensures View() == DoEnqueue(old(View()), id)
    {
      var e := entries[id];
      locks := locks[e.lock := locks[e.lock].(fifo := locks[e.lock].fifo + [id])];
      entries := entries[id := e.(phase := Queued)];
      log := log + [EvEnqueued(id, e.scope)];
    }

    method GrantLock(id: EntryId)
      requires Enabled(View(), Action.GrantLock(id))
      modifies this
      ensures View() == DoGrantLock(old(View()), id)
    {
      var e := entries[id];
      locks := locks[e.lock := LockState(Some(id), locks[e.lock].fifo[1..])];
      entries := entries[id := e.(phase := Locked)];
      log := log + [EvGranted(id, e.scope)];
    }

    method GrantPermit(id: EntryId)
      requires Enabled(View(), Action.GrantPermit(id))
      modifies this
      ensures View() == DoGrantPermit(old(View()), id)
    {
      permits := permits - 1;
      entries := entries[id := entries[id].(phase := Permitted)];
    }

    /** Second critical section of `enter`. */
    method Publish(id: EntryId)
      requires Enabled(View(), Action.Publish(id))
      modifies this
      ensures View() == DoPublish(old(View()), id)
    {
      var e := entries[id];
      if e.scope in scopes {
        var queue := Retain(scopes[e.scope].queuedPreemptible, id);
        scopes := scopes[e.scope := scopes[e.scope].(queuedPreemptible := queue, running := Some(id))];
      }
      entries := entries[id := e.(phase := Running, exposedAt := if e.preempt then e.exposedAt else Some(|log|))];
      log := log + [EvPublished(id, e.scope)];
    }

    method DropPermit(id: EntryId)
      requires Enabled(View(), Action.DropPermit(id))
      modifies this
      ensures View() == DoDropPermit(old(View()), id)
    {
      permits := permits + 1;
      entries := entries[id := entries[id].(phase := Unpermitted)];
    }

    method DropLock(id: EntryId)
      requires Enabled(View(), Action.DropLock(id))
      modifies this
      ensures View() == DoDropLock(old(View()), id)
    {
      var e := entries[id];
      locks := locks[e.lock := locks[e.lock].(holder := None)];
      entries := entries[id := e.(phase := Released)];
    }

    /** `Drop` of a `Registration`. */
    method Unregister(id: EntryId)
      requires Enabled(View(), Action.Unregister(id))
      modifies this
      ensures View() == DoUnregister(old(View()), id)
    {
      var s := entries[id].scope;
      entries := entries - {id};
      if s !in scopes {
        return;
      }
      var st := scopes[s];
      st := st.(users := if st.users > 0 then st.users - 1 else 0);
      if st.running == Some(id) {
        st := st.(running := None);
      }
      var queue := Retain(st.queuedPreemptible, id);
      st := st.(queuedPreemptible := queue);
      scopes := scopes[s := st];
      if st.users == 0 {
        scopes := scopes - {s};
      }
      assert scopes == DoUnregister(old(View()), id).scopes;
    }

    method AbandonQueued(id: EntryId)
      requires Enabled(View(), Action.AbandonQueued(id))
      modifies this
      ensures View() == DoAbandonQueued(old(View()), id)
    {
      var e := entries[id];
      var waiting := Retain(locks[e.lock].fifo, id);
      locks := locks[e.lock := locks[e.lock].(fifo := waiting)];
      entries := entries[id := e.(phase := Abandoned)];
      log := log + [EvQuit(id, e.scope)];
    }

    method AbandonLocked(id: EntryId)
      requires Enabled(View(), Action.AbandonLocked(id))
      modifies this
      ensures View() == DoAbandonLocked(old(View()), id)
    {
      var e := entries[id];
      locks := locks[e.lock := locks[e.lock].(holder := None)];
      entries := entries[id := e.(phase := Abandoned)];
    }

    method Interrupt(s: Scope) returns (any: bool)
      modifies this
      ensures View() == DoInterrupt(old(View()), s)
      ensures any <==> s in scopes && Cancellable(scopes[s]) != {}
    {
      any := false;
      if s in scopes {
        any := CancelPreemptible(scopes[s]);
      }
      log := log + [EvInterrupted(s)];
    }

    /** Any step, from a valid state to a valid state. */
    method Take(a: Action)
      requires Valid() && Enabled(View(), a)
      modifies this
      ensures Valid() && View() == Apply(old(View()), a)
    {
      StepKeepsInv(View(), a);
      match a
      case Arrive(s, preempt) => var _ := Arrive(s, preempt);
      case Register(id) => Register(id);
      case Enqueue(id) => Enqueue(id);
      case GrantLock(id) => GrantLock(id);
      case GrantPermit(id) => GrantPermit(id);
      case Publish(id) => Publish(id);
      case DropPermit(id) => DropPermit(id);
      case DropLock(id) => DropLock(id);
      case Unregister(id) => Unregister(id);
      case AbandonQueued(id) => AbandonQueued(id);
      case AbandonLocked(id) => AbandonLocked(id);
      case Interrupt(s) => var _ := Interrupt(s);
    }

    /** A scope is busy exactly while an entry, queued, running or leaving, is registered in it. */
    method IsBusy(s: Scope) returns (busy: bool)
      requires Valid()
      ensures busy <==> exists id :: id in entries && entries[id].phase != Arrived && entries[id].scope == s
    {
      busy := s in scopes && scopes[s].users > 0;
      if s in scopes {
        assert RegisteredIn(entries, s) != {};
        var id :| id in RegisteredIn(entries, s);
        assert id in entries;
      }
    }
  }
}
