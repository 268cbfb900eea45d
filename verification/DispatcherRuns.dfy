/** Runs of the dispatcher and runs of its gate, and how every call can come to its end. */
module DispatcherRuns {
  import opened GateModel
  import opened GateInvariant
  import opened GateProgress
  import opened GateTheorems
  import opened Dispatcher

  // ----- what the gate sees -----

  function ActionsOf(steps: seq<Step>): seq<Action> {
    if steps == [] then []
    else
      (match steps[0]
       case Dispatch(s, preempt) => [Arrive(SessionScope(s), preempt)]
       case GateStep(a) => [a]
       case _ => [])
      + ActionsOf(steps[1..])
  }

  lemma FirstAction(g: Gate, a: Action, rest: seq<Action>)
    requires Enabled(g, a) && ValidRun(Apply(g, a), rest)
    ensures ValidRun(g, [a] + rest) && After(g, [a] + rest) == After(Apply(g, a), rest)
  {
    assert ([a] + rest)[1..] == rest;
  }

  /** A run of the dispatcher is a run of its gate: a call arrives in the scope of its session, everything the gate
      does is done, and writing rows does nothing to it. */
  lemma {:induction false} GateFollows(w: World, steps: seq<Step>)
    requires ValidSteps(w, steps)
    ensures ValidRun(w.gate, ActionsOf(steps)) && After(w.gate, ActionsOf(steps)) == Outcome(w, steps).gate
    decreases steps
  {
    if steps != [] {
      var rest := ActionsOf(steps[1..]);
      GateFollows(Take(w, steps[0]), steps[1..]);
      match steps[0] {
        case Dispatch(s, preempt) => FirstAction(w.gate, Arrive(SessionScope(s), preempt), rest);
        case GateStep(a) => FirstAction(w.gate, a, rest);
        case _ => assert [] + rest == rest;
      }
    }
  }

  // ----- every call can finish -----

  /** The call has not yet given up, nor begun to leave. */
  predicate MayStillRun(w: World, id: EntryId) {
    id in w.gate.entries && w.gate.entries[id].phase !in {Unpermitted, Released, Abandoned}
  }

  /** The dispatcher knows the session of every call in the gate, and no call has more than two rows. */
  ghost predicate Known(w: World) {
    && (forall id :: id in w.gate.entries ==> id in w.sessionOf && id in w.written)
    && (forall id :: id in w.written ==> w.written[id] <= 2)
  }

  lemma EntriesKnown(g: Gate, a: Action)
    requires Enabled(g, a) && !a.Arrive?
    ensures Apply(g, a).entries.Keys <= g.entries.Keys
  {
  }

  lemma StepKnown(w: World, st: Step)
    requires Known(w) && Can(w, st)
    ensures Known(Take(w, st))
  {
    if st.GateStep? {
      EntriesKnown(w.gate, st.action);
    }
  }

  lemma {:induction false} RunKnown(w: World, steps: seq<Step>)
    requires Known(w) && ValidSteps(w, steps)
    ensures Known(Outcome(w, steps))
    decreases steps
  {
    if steps != [] {
      StepKnown(w, steps[0]);
      RunKnown(Take(w, steps[0]), steps[1..]);
    }
  }

  lemma OneStep(w: World, st: Step)
    requires Can(w, st)
    ensures ValidSteps(w, [st]) && Outcome(w, [st]) == Take(w, st)
  {
    assert [st][1..] == [] && ValidSteps(Take(w, st), []) && Outcome(Take(w, st), []) == Take(w, st);
  }

  lemma TwoSteps(w: World, first: Step, second: Step)
    requires Can(w, first) && Can(Take(w, first), second)
    ensures ValidSteps(w, [first] + [second]) && Outcome(w, [first] + [second]) == Take(Take(w, first), second)
  {
    OneStep(w, first);
    OneStep(Take(w, first), second);
    StepsThenSteps(w, [first], [second]);
  }

  /** A turn that holds its guard can write the rows it has not written. */
  lemma CanWriteOut(w: World, id: EntryId) returns (steps: seq<Step>)
    requires Known(w) && InPhase(w.gate, id, Running)
    ensures ValidSteps(w, steps)
    ensures Outcome(w, steps).gate == w.gate && Outcome(w, steps).written == w.written[id := 2]
    ensures AllForward(steps)
  {
    if w.written[id] == 0 {
      TwoSteps(w, WriteUser(id), WriteAssistant(id));
      steps := [WriteUser(id)] + [WriteAssistant(id)];
    } else if w.written[id] == 1 {
      OneStep(w, WriteAssistant(id));
      steps := [WriteAssistant(id)];
    } else {
      steps := [];
    }
  }

  /** Rows only become more. */
  ghost predicate Grown(w: World, later: World) {
    forall id :: id in w.written ==> id in later.written && w.written[id] <= later.written[id]
  }

  /** A call that was on its way still is, or has written both its rows. */
  ghost predicate Served(w: World, later: World) {
    forall id :: MayStillRun(w, id) ==>
      MayStillRun(later, id) || (id in later.written && later.written[id] >= 2)
  }

  lemma Leaves(g: Gate, a: Action)
    requires Enabled(g, a) && Productive(a)
    ensures forall id :: id in g.entries && g.entries[id].phase !in {Unpermitted, Released, Abandoned} ==>
      id in Apply(g, a).entries
      && (Apply(g, a).entries[id].phase !in {Unpermitted, Released, Abandoned} || a == DropPermit(id))
  {
  }

  /** The next step of a gate that is not empty, after the rows of the turn it lets go. */
  lemma Onwards(w: World) returns (steps: seq<Step>)
    requires GateInv(w.gate) && Known(w) && w.gate.entries != map[]
    ensures ValidSteps(w, steps) && GateInv(Outcome(w, steps).gate)
    ensures Measure(Outcome(w, steps).gate) < Measure(w.gate)
    ensures Grown(w, Outcome(w, steps)) && Served(w, Outcome(w, steps)) && AllForward(steps)
  {
    var a := ProductiveStep(w.gate);
    steps := WithRows(w, a);
  }

  lemma WithRows(w: World, a: Action) returns (steps: seq<Step>)
    requires Known(w) && Enabled(w.gate, a) && Productive(a)
    ensures ValidSteps(w, steps) && Outcome(w, steps).gate == Apply(w.gate, a)
    ensures Grown(w, Outcome(w, steps)) && Served(w, Outcome(w, steps)) && AllForward(steps)
  {
    var before := [];
    if a.DropPermit? {
      before := CanWriteOut(w, a.id);
    }
    var mid := Outcome(w, before);
    OneStep(mid, GateStep(a));
    StepsThenSteps(w, before, [GateStep(a)]);
    steps := before + [GateStep(a)];
    Leaves(w.gate, a);
  }

  /** Steps of calls that are there, none of which gives up. */
  predicate Forward(st: Step) {
    st.WriteUser? || st.WriteAssistant? || (st.GateStep? && Productive(st.action))
  }

  predicate AllForward(steps: seq<Step>) {
    forall i :: 0 <= i < |steps| ==> Forward(steps[i])
  }

  /** Every call that had not begun to leave has recorded its message and its reply. */
  ghost predicate Recorded(w: World, later: World) {
    forall id :: MayStillRun(w, id) ==> id in later.written && later.written[id] >= 2
  }

  lemma RecordedAfter(w: World, mid: World, later: World)
    requires Grown(w, mid) && Served(w, mid) && Grown(mid, later) && Recorded(mid, later)
    ensures Grown(w, later) && Recorded(w, later)
  {
  }

  lemma ForwardBoth(a: seq<Step>, b: seq<Step>)
    requires AllForward(a) && AllForward(b)
    ensures AllForward(a + b)
  {
  }

  lemma EmptyRecorded(w: World)
    requires GateInv(w.gate) && w.gate.entries == map[]
    ensures Drained(w.gate) && Grown(w, w) && Recorded(w, w)
  {
    EmptyIsDrained(w.gate);
  }

  lemma {:induction false} CanEnd(w: World) returns (steps: seq<Step>)
    requires GateInv(w.gate) && Known(w)
    ensures ValidSteps(w, steps) && AllForward(steps) && Drained(Outcome(w, steps).gate)
    ensures Grown(w, Outcome(w, steps)) && Recorded(w, Outcome(w, steps))
    decreases Measure(w.gate)
  {
    if w.gate.entries == map[] {
      EmptyRecorded(w);
      steps := [];
    } else {
      var first := Onwards(w);
      RunKnown(w, first);
      var mid := Outcome(w, first);
      var rest := CanEnd(mid);
      StepsThenSteps(w, first, rest);
      ForwardBoth(first, rest);
      RecordedAfter(w, mid, Outcome(mid, rest));
      steps := first + rest;
    }
  }

  /**
   * Whatever has happened, without new calls or interrupts and with nobody giving up there is a way on that empties
   * the gate, and in which every call that has not begun to leave records its message and its reply.
   */
  lemma EveryCallCanFinish(maxParallel: nat, past: seq<Step>) returns (steps: seq<Step>)
    requires ValidSteps(NewWorld(maxParallel), past)
    ensures var w := Outcome(NewWorld(maxParallel), past);
      && ValidSteps(w, steps) && AllForward(steps) && Drained(Outcome(w, steps).gate)
      && forall id :: MayStillRun(w, id) ==> id in Outcome(w, steps).written && Outcome(w, steps).written[id] == 2
  {
    var start := NewWorld(maxParallel);
    var w := Outcome(start, past);
    NewGateInv(maxParallel);
    GateFollows(start, past);
    RunKeepsInv(start.gate, ActionsOf(past));
    RunKnown(start, past);
    steps := CanEnd(w);
    RunKnown(w, steps);
    assert Recorded(w, Outcome(w, steps));
  }
}
