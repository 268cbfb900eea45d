/** The gate never gets stuck, and a drained gate is clean. */
module GateProgress {
  import opened Options
  import opened GateModel
  import opened GateInvariant
  import opened GatePreservation
  import opened GateTheorems

  /** Steps of entries already in the gate that need nobody to give up. */
  predicate Productive(a: Action) {
    !a.Arrive? && !a.Interrupt? && !a.AbandonQueued? && !a.AbandonLocked?
  }

  /** How many steps an entry in this phase can still take, at most. */
  function Rank(p: Phase): nat {
    match p
    case Arrived => 8
    case Registered => 7
    case Queued => 6
    case Locked => 5
    case Permitted => 4
    case Running => 3
    case Unpermitted => 2
    case Released => 1
    case Abandoned => 1
  }

  function Weight(entries: map<EntryId, Entry>, n: nat): nat {
    if n == 0 then 0
    else Weight(entries, n - 1) + (if n - 1 in entries then Rank(entries[n - 1].phase) else 0)
  }

  function Measure(g: Gate): nat {
    Weight(g.entries, g.nextId)
  }

  lemma {:induction false} WeightUpdate(m: map<EntryId, Entry>, m': map<EntryId, Entry>, id: EntryId, n: nat)
    requires forall x :: x != id ==> (x in m <==> x in m') && (x in m ==> m'[x].phase == m[x].phase)
    ensures Weight(m', n) + (if id < n && id in m then Rank(m[id].phase) else 0)
         == Weight(m, n) + (if id < n && id in m' then Rank(m'[id].phase) else 0)
  {
    if n > 0 {
      WeightUpdate(m, m', id, n - 1);
    }
  }

  /** Every step other than an arrival or an interrupt uses up at least one unit of the measure. */
  lemma StepDecreases(g: Gate, a: Action)
    requires GateInv(g) && Enabled(g, a) && !a.Arrive?
    ensures if a.Interrupt? then Measure(Apply(g, a)) == Measure(g) else Measure(Apply(g, a)) < Measure(g)
  {
    if !a.Interrupt? {
      var id := Subject(a);
      var g' := Apply(g, a);
      SubjectOnly(g, a);
      WeightUpdate(g.entries, g'.entries, id, g.nextId);
    }
  }

  function Subject(a: Action): EntryId
    requires !a.Arrive? && !a.Interrupt?
  {
    a.id
  }

  lemma SubjectOnly(g: Gate, a: Action)
    requires Enabled(g, a) && !a.Arrive? && !a.Interrupt?
    ensures var g' := Apply(g, a); var id := Subject(a);
            && g'.nextId == g.nextId
            && id in g.entries
            && (forall x :: x != id ==>
                  && (x in g.entries <==> x in g'.entries)
                  && (x in g.entries ==> g'.entries[x].phase == g.entries[x].phase))
            && (id in g'.entries ==> Rank(g'.entries[id].phase) < Rank(g.entries[id].phase))
  {
    match a {
      case Register(_) =>
      case Publish(_) =>
      case Unregister(_) =>
      case _ =>
    }
  }

  // ----- no deadlock -----

  lemma HolderCanStep(g: Gate, h: EntryId) returns (a: Action)
    requires GateInv(g) && h in g.entries && HoldsLock(g.entries[h].phase)
    ensures Enabled(g, a) && Productive(a)
  {
    match g.entries[h].phase {
      case Permitted => a := Publish(h);
      case Running => a := DropPermit(h);
      case Unpermitted => a := DropLock(h);
      case Locked =>
        if g.freePermits > 0 {
          a := GrantPermit(h);
        } else {
          var p :| p in PermitHolders(g.entries);
          a := if g.entries[p].phase == Permitted then Publish(p) else DropPermit(p);
        }
    }
  }

  lemma QueuedCanStep(g: Gate, id: EntryId) returns (a: Action)
    requires GateInv(g) && id in g.entries && g.entries[id].phase == Queued
    ensures Enabled(g, a) && Productive(a)
  {
    var l := g.entries[id].lock;
    match g.locks[l].holder {
      case Some(h) => a := HolderCanStep(g, h);
      case None =>
        var head := g.locks[l].fifo[0];
        assert head in g.locks[l].fifo;
        a := GrantLock(head);
    }
  }

  /** While any entry is in the gate some productive step is enabled, a running turn being
      allowed to finish. */
  lemma NeverStuck(g: Gate) returns (a: Action)
    requires GateInv(g) && g.entries != map[]
    ensures Enabled(g, a) && Productive(a)
  {
    assert g.entries.Keys != {};
    var id :| id in g.entries.Keys;
    match g.entries[id].phase {
      case Arrived => a := Register(id);
      case Registered => a := Enqueue(id);
      case Queued => a := QueuedCanStep(g, id);
      case Released => a := Unregister(id);
      case Abandoned => a := Unregister(id);
      case _ => a := HolderCanStep(g, id);
    }
  }

  // ----- draining -----

  ghost predicate Drained(g: Gate) {
    && g.entries == map[] && g.scopes == map[] && g.freePermits == g.maxPermits
    && (forall l :: l in g.locks ==> g.locks[l] == LockState(None, []))
  }

  lemma EmptyIsDrained(g: Gate)
    requires GateInv(g) && g.entries == map[]
    ensures Drained(g)
  {
    assert PermitHolders(g.entries) == {};
    forall s ensures RegisteredIn(g.entries, s) == {} && s !in g.scopes {
    }
    forall l | l in g.locks ensures g.locks[l] == LockState(None, []) {
      var fifo := g.locks[l].fifo;
      assert forall id :: id !in fifo;
      SomeElement(fifo);
    }
  }

  lemma ProductiveStep(g: Gate) returns (a: Action)
    requires GateInv(g) && g.entries != map[]
    ensures Enabled(g, a) && Productive(a) && GateInv(Apply(g, a)) && Measure(Apply(g, a)) < Measure(g)
  {
    a := NeverStuck(g);
    StepDecreases(g, a);
    StepKeepsInv(g, a);
  }

  predicate AllProductive(acts: seq<Action>) {
    forall i :: 0 <= i < |acts| ==> Productive(acts[i])
  }

  lemma ProductiveFirst(g: Gate, a: Action, rest: seq<Action>)
    requires Enabled(g, a) && ValidRun(Apply(g, a), rest) && Drained(After(Apply(g, a), rest))
    requires Productive(a) && AllProductive(rest)
    ensures ValidRun(g, [a] + rest) && AllProductive([a] + rest) && Drained(After(g, [a] + rest))
  {
    FirstThenRest(g, a, rest);
  }

  /** From any reachable state, with no new arrivals, the gate can be run until it is empty and
      clean, without any waiter giving up. */
  lemma {:induction false} CanDrain(g: Gate) returns (acts: seq<Action>)
    requires GateInv(g)
    ensures ValidRun(g, acts) && AllProductive(acts)
    ensures Drained(After(g, acts)) && |acts| <= Measure(g)
    decreases Measure(g)
  {
    if g.entries == map[] {
      EmptyIsDrained(g);
      acts := [];
    } else {
      var a := ProductiveStep(g);
      var rest := CanDrain(Apply(g, a));
      ProductiveFirst(g, a, rest);
      acts := [a] + rest;
    }
  }

  function Work(acts: seq<Action>): nat {
    if acts == [] then 0 else (if acts[0].Interrupt? then 0 else 1) + Work(acts[1..])
  }

  /** Without arrivals every run is bounded, whichever waiters abandon and however often the
      scopes are interrupted, and if it cannot be continued the gate is drained. */
  lemma {:induction false} RunsEndDrained(g: Gate, acts: seq<Action>)
    requires GateInv(g) && ValidRun(g, acts) && (forall i :: 0 <= i < |acts| ==> !acts[i].Arrive?)
    ensures Work(acts) + Measure(After(g, acts)) <= Measure(g)
    ensures (forall a :: Productive(a) ==> !Enabled(After(g, acts), a)) ==> Drained(After(g, acts))
    decreases acts
  {
    if acts == [] {
      if g.entries == map[] {
        EmptyIsDrained(g);
      } else {
        var a := NeverStuck(g);
      }
    } else {
      StepDecreases(g, acts[0]);
      StepKeepsInv(g, acts[0]);
      RunsEndDrained(Apply(g, acts[0]), acts[1..]);
    }
  }
}
