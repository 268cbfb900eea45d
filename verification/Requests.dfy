/** What a caller of the dispatcher asked for, followed through every run to what the gate does for it. */
module Requests {
  import opened Options
  import opened GateModel
  import opened GateInvariant
  import opened GatePreservation
  import opened Dispatcher

  /** Somewhere in the run the call `id` came in, for a session, as a user's message or not. */
  ghost predicate CameIn(w: World, steps: seq<Step>, id: EntryId, s: SessionId, preempt: bool)
    requires ValidSteps(w, steps)
    decreases steps
  {
    && steps != []
    && ((steps[0] == Dispatch(s, preempt) && w.gate.nextId == id)
        || CameIn(Take(w, steps[0]), steps[1..], id, s, preempt))
  }

  // ----- what the gate holds and has logged of one entry -----

  /** Everything the gate says about the entry agrees with this scope and this flag. */
  ghost predicate AllAbout(g: Gate, id: EntryId, scope: Scope, preempt: bool) {
    && id < g.nextId
    && (id in g.entries ==> g.entries[id].scope == scope && g.entries[id].preempt == preempt)
    && (forall i :: 0 <= i < |g.log| && g.log[i].EvRegistered? && g.log[i].id == id ==>
          g.log[i] == EvRegistered(id, scope, preempt))
  }

  /** Ids in the log were handed out; a registered entry has left `Arrived`, and knows where it registered. */
  ghost predicate LogInv(g: Gate) {
    forall i :: 0 <= i < |g.log| && g.log[i].EvRegistered? ==>
      && g.log[i].id < g.nextId
      && (g.log[i].id in g.entries ==>
            var e := g.entries[g.log[i].id];
            e.phase != Arrived && (e.preempt ==> e.exposedAt == Some(i)))
  }

  lemma GateStepAbout(g: Gate, a: Action, id: EntryId, scope: Scope, preempt: bool)
    requires AllAbout(g, id, scope, preempt) && Enabled(g, a) && IdsInv(g)
    ensures AllAbout(Apply(g, a), id, scope, preempt)
  {
    match a {
      case Register(_) =>
      case Publish(_) =>
      case Unregister(_) =>
      case _ =>
    }
  }

  /** What every step but an arrival or a registration does to entries and log. */
  ghost predicate Moves(g: Gate, g': Gate) {
    && g'.nextId == g.nextId
    && (forall id :: id in g'.entries ==>
          && id in g.entries
          && (g.entries[id].phase != Arrived ==> g'.entries[id].phase != Arrived)
          && g'.entries[id].preempt == g.entries[id].preempt
          && (g.entries[id].preempt ==> g'.entries[id].exposedAt == g.entries[id].exposedAt))
    && (g'.log == g.log || (|g'.log| == |g.log| + 1 && g'.log[..|g.log|] == g.log && !g'.log[|g.log|].EvRegistered?))
  }

  lemma StepMoves(g: Gate, a: Action)
    requires Enabled(g, a) && !a.Arrive? && !a.Register?
    ensures Moves(g, Apply(g, a))
  {
    match a {
      case Publish(id) => PublishMovesLog(g, id);
      case Unregister(id) => UnregisterMovesLog(g, id);
      case _ =>
    }
  }

  lemma PublishMovesLog(g: Gate, id: EntryId)
    requires Enabled(g, Publish(id))
    ensures Moves(g, DoPublish(g, id))
  {
  }

  lemma UnregisterMovesLog(g: Gate, id: EntryId)
    requires Enabled(g, Unregister(id))
    ensures Moves(g, DoUnregister(g, id))
  {
  }

  lemma MovesLog(g: Gate, g': Gate)
    requires LogInv(g) && Moves(g, g')
    ensures LogInv(g')
  {
    forall i | 0 <= i < |g'.log| && g'.log[i].EvRegistered?
      ensures g'.log[i].id < g'.nextId
      ensures g'.log[i].id in g'.entries ==>
        var e := g'.entries[g'.log[i].id]; e.phase != Arrived && (e.preempt ==> e.exposedAt == Some(i))
    {
      assert i < |g.log| && g'.log[i] == g.log[i] by {
        if g'.log != g.log { assert i < |g.log| ==> g'.log[..|g.log|][i] == g'.log[i]; }
      }
    }
  }

  lemma RegisterLog(g: Gate, id: EntryId)
    requires LogInv(g) && Enabled(g, Register(id)) && IdsInv(g)
    ensures LogInv(DoRegister(g, id))
  {
    var g' := DoRegister(g, id);
    forall i | 0 <= i < |g.log| && g.log[i].EvRegistered? ensures g.log[i].id != id && g'.log[i] == g.log[i] {
    }
  }

  lemma GateStepLog(g: Gate, a: Action)
    requires LogInv(g) && Enabled(g, a) && IdsInv(g)
    ensures LogInv(Apply(g, a))
  {
    if a.Register? {
      RegisterLog(g, a.id);
    } else if !a.Arrive? {
      StepMoves(g, a);
      MovesLog(g, Apply(g, a));
    }
  }

  // ----- over runs -----

  ghost predicate Told(w: World, id: EntryId, s: SessionId, preempt: bool) {
    AllAbout(w.gate, id, SessionScope(s), preempt) && id in w.sessionOf && w.sessionOf[id] == s
  }

  /** A call is in the gate as soon as it has come in, for the session and with the flag it came with. */
  lemma ArrivesAsAsked(w: World, s: SessionId, preempt: bool)
    requires IdsInv(w.gate) && LogInv(w.gate)
    ensures var id, w' := w.gate.nextId, Take(w, Dispatch(s, preempt));
      InPhase(w'.gate, id, Arrived) && Told(w', id, s, preempt) && w'.gate.cancelled == w.gate.cancelled
  {
  }

  lemma StepTold(w: World, st: Step, id: EntryId, s: SessionId, preempt: bool)
    requires Told(w, id, s, preempt) && IdsInv(w.gate) && Can(w, st)
    ensures Told(Take(w, st), id, s, preempt)
  {
    if st.GateStep? {
      GateStepAbout(w.gate, st.action, id, SessionScope(s), preempt);
    } else if st.Dispatch? {
      GateStepAbout(w.gate, Arrive(SessionScope(st.session), st.preempt), id, SessionScope(s), preempt);
    }
  }

  lemma StepLog(w: World, st: Step)
    requires LogInv(w.gate) && IdsInv(w.gate) && Can(w, st)
    ensures LogInv(Take(w, st).gate)
  {
    if st.GateStep? {
      GateStepLog(w.gate, st.action);
    } else if st.Dispatch? {
      GateStepLog(w.gate, Arrive(SessionScope(st.session), st.preempt));
    }
  }

  lemma StepGateInv(w: World, st: Step)
    requires GateInv(w.gate) && Can(w, st)
    ensures GateInv(Take(w, st).gate)
  {
    if st.GateStep? {
      StepKeepsInv(w.gate, st.action);
    } else if st.Dispatch? {
      KeepArrive(w.gate, SessionScope(st.session), st.preempt);
    }
  }

  lemma {:induction false} RunTold(w: World, steps: seq<Step>, id: EntryId, s: SessionId, preempt: bool)
    requires GateInv(w.gate) && ValidSteps(w, steps) && Told(w, id, s, preempt)
    ensures Told(Outcome(w, steps), id, s, preempt)
    decreases steps
  {
    if steps != [] {
      StepTold(w, steps[0], id, s, preempt);
      StepGateInv(w, steps[0]);
      RunTold(Take(w, steps[0]), steps[1..], id, s, preempt);
    }
  }

  lemma {:induction false} RunLog(w: World, steps: seq<Step>)
    requires GateInv(w.gate) && LogInv(w.gate) && ValidSteps(w, steps)
    ensures GateInv(Outcome(w, steps).gate) && LogInv(Outcome(w, steps).gate)
    decreases steps
  {
    if steps != [] {
      StepLog(w, steps[0]);
      StepGateInv(w, steps[0]);
      RunLog(Take(w, steps[0]), steps[1..]);
    }
  }

  lemma {:induction false} CameInTold(w: World, steps: seq<Step>, id: EntryId, s: SessionId, preempt: bool)
    requires GateInv(w.gate) && LogInv(w.gate) && ValidSteps(w, steps) && CameIn(w, steps, id, s, preempt)
    ensures Told(Outcome(w, steps), id, s, preempt)
    decreases steps
  {
    var w' := Take(w, steps[0]);
    StepGateInv(w, steps[0]);
    if steps[0] == Dispatch(s, preempt) && w.gate.nextId == id {
      ArrivesAsAsked(w, s, preempt);
      RunTold(w', steps[1..], id, s, preempt);
    } else {
      StepLog(w, steps[0]);
      CameInTold(w', steps[1..], id, s, preempt);
    }
  }

  // ----- theorems -----

  /**
   * In every run: what a call asked for is what the gate holds and logs of it, its session's scope and
   * whether it preempts, for as long as it is in the gate.
   */
  lemma KeptAsAsked(maxParallel: nat, steps: seq<Step>, id: EntryId, s: SessionId, preempt: bool)
    requires ValidSteps(NewWorld(maxParallel), steps) && CameIn(NewWorld(maxParallel), steps, id, s, preempt)
    ensures Told(Outcome(NewWorld(maxParallel), steps), id, s, preempt)
  {
    NewGateInv(maxParallel);
    CameInTold(NewWorld(maxParallel), steps, id, s, preempt);
  }

  /** A call leaves the gate only by its own last step. */
  lemma StaysUntilItLeaves(w: World, st: Step, id: EntryId)
    requires id in w.gate.entries && Can(w, st) && st != GateStep(Unregister(id))
    ensures id in Take(w, st).gate.entries
  {
    if st.GateStep? {
      GateKeepsEntry(w.gate, st.action, id);
    }
  }

  lemma GateKeepsEntry(g: Gate, a: Action, id: EntryId)
    requires Enabled(g, a) && id in g.entries && a != Unregister(id)
    ensures id in Apply(g, a).entries
  {
    match a {
      case Register(_) =>
      case Publish(_) =>
      case Unregister(_) =>
      case _ =>
    }
  }

  /**
   * Of two user messages for one session that both registered, the one that registered first is cancelled
   * in every later state, whatever happened in between, until it has released the session's lock.
   */
  lemma NewerMessageWins(maxParallel: nat, steps: seq<Step>, s: SessionId, a: EntryId, b: EntryId, i: nat, j: nat)
    requires ValidSteps(NewWorld(maxParallel), steps)
    requires CameIn(NewWorld(maxParallel), steps, a, s, true) && CameIn(NewWorld(maxParallel), steps, b, s, true)
    requires var g := Outcome(NewWorld(maxParallel), steps).gate;
      && i < j < |g.log| && g.log[i].EvRegistered? && g.log[i].id == a && g.log[j].EvRegistered? && g.log[j].id == b
      && a in g.entries && g.entries[a].phase != Released
    ensures a in Outcome(NewWorld(maxParallel), steps).gate.cancelled
  {
    var g := Outcome(NewWorld(maxParallel), steps).gate;
    NewGateInv(maxParallel);
    RunLog(NewWorld(maxParallel), steps);
    KeptAsAsked(maxParallel, steps, a, s, true);
    KeptAsAsked(maxParallel, steps, b, s, true);
    LaterCancels(g, a, i, j);
  }

  lemma LaterCancels(g: Gate, a: EntryId, i: nat, j: nat)
    requires TokenInv(g) && a in g.entries && g.entries[a].phase != Released && g.entries[a].exposedAt == Some(i)
    requires i < j < |g.log| && g.log[j].EvRegistered? && g.log[j].preempt && g.log[j].scope == g.entries[a].scope
    ensures a in g.cancelled
  {
    assert Cancels(g.log[j], g.entries[a].scope);
    assert CancelledSince(g.log, i, g.entries[a].scope);
  }

  /** Background work cancels nothing, at any step of its way through the gate. */
  lemma BackgroundCancelsNothing(maxParallel: nat, steps: seq<Step>, id: EntryId, s: SessionId, a: Action)
    requires ValidSteps(NewWorld(maxParallel), steps) && CameIn(NewWorld(maxParallel), steps, id, s, false)
    requires var w := Outcome(NewWorld(maxParallel), steps); Can(w, GateStep(a)) && !a.Interrupt? && a.id == id
    ensures var w := Outcome(NewWorld(maxParallel), steps);
      Take(w, GateStep(a)).gate.cancelled == w.gate.cancelled
  {
    KeptAsAsked(maxParallel, steps, id, s, false);
  }
}
