/** One scheduler's ticks are a run of the system of many, in which only that one takes steps. */
module CronTicks {
  import opened Options
  import opened Cron

  /** What a tick comes to, statement by statement. */
  function StepsOf(decided: Option<int>, t: Tick, w: Worker): seq<Step> {
    if !t.worked then []
    else
      [Check(w, t.now)]
      + if decided.None? then []
        else [Start(w, t.startedAt)] + if t.endRecorded then [Finish(t.endedAt)] else []
  }

  /** The fires started, in order. */
  function Started(log: seq<Event>): seq<int> {
    if log == [] then []
    else
      var e := log[|log| - 1];
      Started(log[..|log| - 1]) + if e.Started? then [e.fire] else []
  }

  lemma StartedMore(log: seq<Event>, e: Event)
    ensures Started(log + [e]) == Started(log) + if e.Started? then [e.fire] else []
  {
    assert (log + [e])[..|log|] == log;
  }

  /** A world in which a scheduler has nothing in hand, with the records and starts of its job. */
  predicate Matches(g: World, s: JobState, w: Worker) {
    HandOf(g, w).Idle? && g.records == s.records && Started(g.log) == s.starts
  }

  ghost predicate Reaches(fires: Schedule, window: int, g: World, h: World) {
    exists steps :: ValidRun(fires, window, g, steps) && h == Run(fires, window, g, steps)
  }

  lemma ReachesSelf(fires: Schedule, window: int, g: World)
    ensures Reaches(fires, window, g, g)
  {
    assert ValidRun(fires, window, g, []) && Run(fires, window, g, []) == g;
  }

  lemma {:induction false} RunThenRun(fires: Schedule, window: int, g: World, first: seq<Step>, second: seq<Step>)
    requires ValidRun(fires, window, g, first) && ValidRun(fires, window, Run(fires, window, g, first), second)
    ensures ValidRun(fires, window, g, first + second)
    ensures Run(fires, window, g, first + second) == Run(fires, window, Run(fires, window, g, first), second)
    decreases |first|
  {
    if first == [] {
      assert first + second == second;
    } else {
      assert (first + second)[0] == first[0] && (first + second)[1..] == first[1..] + second;
      RunThenRun(fires, window, DoStep(fires, window, g, first[0]), first[1..], second);
    }
  }

  lemma OneStep(fires: Schedule, window: int, g: World, s: Step)
    requires CanStep(g, s)
    ensures ValidRun(fires, window, g, [s]) && Run(fires, window, g, [s]) == DoStep(fires, window, g, s)
  {
    var h := DoStep(fires, window, g, s);
    assert [s][1..] == [] && ValidRun(fires, window, h, []) && Run(fires, window, h, []) == h;
  }

  lemma StepAfter(fires: Schedule, window: int, g: World, steps: seq<Step>, s: Step)
    requires ValidRun(fires, window, g, steps) && CanStep(Run(fires, window, g, steps), s)
    ensures ValidRun(fires, window, g, steps + [s])
    ensures Run(fires, window, g, steps + [s]) == DoStep(fires, window, Run(fires, window, g, steps), s)
  {
    OneStep(fires, window, Run(fires, window, g, steps), s);
    RunThenRun(fires, window, g, steps, [s]);
  }

  /** The first statement of a tick: the scheduler has decided, or has nothing to do. */
  lemma TickChecks(fires: Schedule, window: int, g: World, s: JobState, t: Tick, w: Worker)
    requires Matches(g, s, w)
    ensures CanStep(g, Check(w, t.now))
    ensures var h, decided := DoStep(fires, window, g, Check(w, t.now)), Decide(fires, window, s.records, t.now);
      && h.records == s.records && Started(h.log) == s.starts
      && HandOf(h, w) == if decided.Some? then Decided(decided.value, t.now, |g.log|) else Idle
  {
    StartedMore(g.log, Looked(w));
    match Decide(fires, window, s.records, t.now) {
      case None =>
      case Some(f) => StartedMore(g.log, Checked(w, f));
    }
  }

  lemma TickStarts(fires: Schedule, window: int, h: World, s: JobState, t: Tick, w: Worker, f: int)
    requires h.records == s.records && Started(h.log) == s.starts && t.now <= t.startedAt
    requires HandOf(h, w).Decided? && HandOf(h, w).fire == f && HandOf(h, w).now == t.now
    ensures CanStep(h, Start(w, t.startedAt))
    ensures Matches(DoStep(fires, window, h, Start(w, t.startedAt)),
                    JobState(s.records + [t.startedAt], s.starts + [f]), w)
  {
    StartedMore(h.log, Event.Started(w, f));
  }

  /** A tick of one scheduler takes its steps, and ends in the state the tick function gives. */
  lemma TickIsSteps(fires: Schedule, window: int, g: World, s: JobState, t: Tick, w: Worker)
    requires Matches(g, s, w) && t.now <= t.startedAt
    ensures var steps := StepsOf(Decide(fires, window, s.records, t.now), t, w);
      ValidRun(fires, window, g, steps)
      && Matches(Run(fires, window, g, steps), TickStep(fires, window, s, t), w)
  {
    var decided := Decide(fires, window, s.records, t.now);
    if t.worked {
      TickChecks(fires, window, g, s, t, w);
      OneStep(fires, window, g, Check(w, t.now));
      assert [Check(w, t.now)] + [] == [Check(w, t.now)];
      if decided.Some? {
        StartsAndEnds(fires, window, g, s, t, w, decided.value);
      }
    }
  }

  lemma TwoSteps(fires: Schedule, window: int, g: World, a: Step, b: Step)
    requires CanStep(g, a) && CanStep(DoStep(fires, window, g, a), b)
    ensures ValidRun(fires, window, g, [a] + [b])
    ensures Run(fires, window, g, [a] + [b]) == DoStep(fires, window, DoStep(fires, window, g, a), b)
  {
    OneStep(fires, window, g, a);
    StepAfter(fires, window, g, [a], b);
  }

  lemma ThreeSteps(fires: Schedule, window: int, g: World, a: Step, b: Step, c: Step)
    requires CanStep(g, a) && CanStep(DoStep(fires, window, g, a), b)
    requires CanStep(DoStep(fires, window, DoStep(fires, window, g, a), b), c)
    ensures ValidRun(fires, window, g, [a] + ([b] + [c]))
    ensures Run(fires, window, g, [a] + ([b] + [c]))
         == DoStep(fires, window, DoStep(fires, window, DoStep(fires, window, g, a), b), c)
  {
    TwoSteps(fires, window, g, a, b);
    StepAfter(fires, window, g, [a] + [b], c);
    assert [a] + [b] + [c] == [a] + ([b] + [c]);
  }

  lemma TickEnds(fires: Schedule, window: int, h: World, s: JobState, endedAt: int, w: Worker)
    requires Matches(h, s, w)
    ensures Matches(DoStep(fires, window, h, Finish(endedAt)), JobState(s.records + [endedAt], s.starts), w)
  {
  }

  lemma StartsAndEnds(fires: Schedule, window: int, g: World, s: JobState, t: Tick, w: Worker, f: int)
    requires Matches(g, s, w) && t.worked && t.now <= t.startedAt && Decide(fires, window, s.records, t.now) == Some(f)
    ensures var steps := StepsOf(Some(f), t, w);
      ValidRun(fires, window, g, steps)
      && Matches(Run(fires, window, g, steps), TickStep(fires, window, s, t), w)
  {
    var check, start := Check(w, t.now), Start(w, t.startedAt);
    var begun := JobState(s.records + [t.startedAt], s.starts + [f]);
    TickChecks(fires, window, g, s, t, w);
    var h := DoStep(fires, window, g, check);
    TickStarts(fires, window, h, s, t, w, f);
    if t.endRecorded {
      TickEnds(fires, window, DoStep(fires, window, h, start), begun, t.endedAt, w);
      ThreeSteps(fires, window, g, check, start, Finish(t.endedAt));
    } else {
      TwoSteps(fires, window, g, check, start);
      assert [start] + [] == [start] && begun.records + [] == begun.records;
    }
  }

  /**
   * So whatever holds of every run of many schedulers holds of the ticks of one: from an empty table they lead to
   * a state of that system with the same records and the same starts in the same order.
   */
  lemma {:induction false} TicksAreRun(fires: Schedule, window: int, ticks: seq<Tick>, w: Worker)
    requires InOrder(ticks)
    ensures exists g :: Reaches(fires, window, EMPTY, g)
                        && Matches(g, RunTicks(fires, window, JobState([], []), ticks), w)
  {
    if ticks == [] {
      ReachesSelf(fires, window, EMPTY);
      assert Matches(EMPTY, JobState([], []), w);
    } else {
      var front, t := ticks[..|ticks| - 1], ticks[|ticks| - 1];
      TicksAreRun(fires, window, front, w);
      var s := RunTicks(fires, window, JobState([], []), front);
      var g :| Reaches(fires, window, EMPTY, g) && Matches(g, s, w);
      var first :| ValidRun(fires, window, EMPTY, first) && g == Run(fires, window, EMPTY, first);
      var second := StepsOf(Decide(fires, window, s.records, t.now), t, w);
      TickIsSteps(fires, window, g, s, t, w);
      RunThenRun(fires, window, EMPTY, first, second);
      assert Reaches(fires, window, EMPTY, Run(fires, window, g, second));
    }
  }
}
