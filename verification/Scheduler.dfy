/**
 * One-shot tasks: a shared table, any number of schedulers that claim from it, operators that cancel.
 * Times are integer milliseconds.
 */
module Scheduler {
  import opened Numbers
  import opened Options

  type TaskId = nat
  type Worker = nat

  const DUE_LIMIT := 20

  datatype Status = Pending | Running | Done | Failed | Cancelled

  datatype Task = Task(runAt: int, status: Status)

  type Table = map<TaskId, Task>

  // ----- the statements on the table -----

  function WithStatus(t: Table, id: TaskId, status: Status): Table {
    if id in t then t[id := t[id].(status := status)] else t
  }

  predicate IsPending(t: Table, id: TaskId) {
    id in t && t[id].status == Pending
  }

  predicate Due(t: Table, id: TaskId, now: int) {
    IsPending(t, id) && t[id].runAt <= now
  }

  /** `UPDATE … WHERE id = ? AND status = 'pending'`. */
  function UpdatePending(t: Table, id: TaskId, status: Status): Table {
    if IsPending(t, id) then WithStatus(t, id, status) else t
  }

  /** A result of `list_due`: due rows in order of `run_at`, the earliest twenty when there are more. */
  predicate IsDueList(t: Table, now: int, due: seq<TaskId>) {
    && |due| <= DUE_LIMIT
    && (forall i :: 0 <= i < |due| ==> Due(t, due[i], now))
    && (forall i, j :: 0 <= i < j < |due| ==> due[i] != due[j] && t[due[i]].runAt <= t[due[j]].runAt)
    && (forall id :: id in t && Due(t, id, now) && id !in due ==>
          |due| == DUE_LIMIT && forall i :: 0 <= i < |due| ==> t[due[i]].runAt <= t[id].runAt)
  }

  // ----- the step system -----

  /** What one scheduler is doing: the clock of its tick, the rows it still has to try, the row it executes. */
  datatype Activity = Activity(now: int, due: seq<TaskId>, busy: Option<TaskId>)

  datatype Event =
    | Began(id: TaskId, who: Worker, clock: int)
    | Ended(id: TaskId, outcome: Outcome)
    | Withdrawn(id: TaskId)

  datatype World = World(table: Table, workers: map<Worker, Activity>, log: seq<Event>)

  datatype Outcome = Delivered | Errored | Unrecorded

  datatype Step =
    | Insert(id: TaskId, runAt: int)
    | ListDue(w: Worker, now: int, due: seq<TaskId>)
    | Claim(w: Worker)
    | Finish(w: Worker, outcome: Outcome)
    | Stop(w: Worker)
    | Cancel(id: TaskId)

  const EMPTY := World(map[], map[], [])

  predicate Working(g: World, w: Worker) {
    w in g.workers && g.workers[w].busy.Some?
  }

  predicate CanStep(g: World, s: Step) {
    match s
    case Insert(id, _) => id !in g.table
    case ListDue(w, now, due) =>
      (w in g.workers ==> g.workers[w].due == [] && g.workers[w].busy.None?) && IsDueList(g.table, now, due)
    case Claim(w) => w in g.workers && g.workers[w].busy.None? && g.workers[w].due != []
    case Finish(w, _) => Working(g, w)
    case Stop(w) => w in g.workers
    case Cancel(_) => true
  }

  function ClaimStep(g: World, w: Worker): World
    requires w in g.workers && g.workers[w].due != []
  {
    var a := g.workers[w];
    var id := a.due[0];
    if IsPending(g.table, id) then
      World(UpdatePending(g.table, id, Running), g.workers[w := Activity(a.now, a.due[1..], Some(id))],
            g.log + [Began(id, w, a.now)])
    else
      g.(workers := g.workers[w := Activity(a.now, a.due[1..], None)])
  }

  /** `mark_done` and `mark_failed` update whatever the row says; a failed update leaves it. */
  function FinishStep(g: World, w: Worker, outcome: Outcome): World
    requires Working(g, w)
  {
    var a := g.workers[w];
    var id := a.busy.value;
    var table := match outcome
      case Delivered => WithStatus(g.table, id, Done)
      case Errored => WithStatus(g.table, id, Failed)
      case Unrecorded => g.table;
    g.(table := table, workers := g.workers[w := a.(busy := None)], log := g.log + [Ended(id, outcome)])
  }

  function DoStep(g: World, s: Step): World
    requires CanStep(g, s)
  {
    match s
    case Insert(id, runAt) => g.(table := g.table[id := Task(runAt, Pending)])
    case ListDue(w, now, due) => g.(workers := g.workers[w := Activity(now, due, None)])
    case Claim(w) => ClaimStep(g, w)
    case Finish(w, outcome) => FinishStep(g, w, outcome)
    case Stop(w) => g.(workers := map x | x in g.workers && x != w :: g.workers[x])
    case Cancel(id) =>
      if IsPending(g.table, id) then
        World(UpdatePending(g.table, id, Cancelled), g.workers, g.log + [Withdrawn(id)])
      else g
  }

  predicate ValidRun(g: World, steps: seq<Step>)
    decreases |steps|
  {
    steps == [] || (CanStep(g, steps[0]) && ValidRun(DoStep(g, steps[0]), steps[1..]))
  }

  function Run(g: World, steps: seq<Step>): World
    requires ValidRun(g, steps)
    decreases |steps|
  {
    if steps == [] then g else Run(DoStep(g, steps[0]), steps[1..])
  }

  // ----- the invariant -----

  ghost predicate HasBegun(g: World, id: TaskId) {
    exists i :: 0 <= i < |g.log| && g.log[i].Began? && g.log[i].id == id
  }

  ghost predicate WasWithdrawn(g: World, id: TaskId) {
    Withdrawn(id) in g.log
  }

  /** The log and the status column tell the same story. */
  ghost predicate LogInv(g: World) {
    && (forall i :: 0 <= i < |g.log| && g.log[i].Began? ==>
          g.log[i].id in g.table && g.table[g.log[i].id].status in {Running, Done, Failed})
    && (forall i :: 0 <= i < |g.log| && g.log[i].Withdrawn? ==>
          g.log[i].id in g.table && g.table[g.log[i].id].status == Cancelled)
  }

  ghost predicate OnceInv(g: World) {
    forall i, j :: 0 <= i < j < |g.log| && g.log[i].Began? && g.log[j].Began? ==> g.log[i].id != g.log[j].id
  }

  ghost predicate TimeInv(g: World) {
    && (forall i :: 0 <= i < |g.log| && g.log[i].Began? ==>
          g.log[i].id in g.table && g.table[g.log[i].id].runAt <= g.log[i].clock)
    && (forall w, k :: w in g.workers && 0 <= k < |g.workers[w].due| ==>
          g.workers[w].due[k] in g.table && g.table[g.workers[w].due[k]].runAt <= g.workers[w].now)
  }

  /** A row under execution is running, and is executed by one scheduler only. */
  ghost predicate BusyInv(g: World) {
    && (forall w :: Working(g, w) ==>
          g.workers[w].busy.value in g.table && g.table[g.workers[w].busy.value].status == Running)
    && (forall v, w :: Working(g, v) && Working(g, w) && v != w ==>
          g.workers[v].busy.value != g.workers[w].busy.value)
  }

  /** The status of a row says what happened to it, and nothing else does. */
  ghost predicate StoryOf(g: World, id: TaskId) {
    if id in g.table then
      var status := g.table[id].status;
      && (status == Cancelled <==> Withdrawn(id) in g.log)
      && (status == Done <==> Ended(id, Delivered) in g.log)
      && (status == Failed <==> Ended(id, Errored) in g.log)
      && (status == Pending <==> Withdrawn(id) !in g.log && !HasBegun(g, id))
    else
      Withdrawn(id) !in g.log && !HasBegun(g, id) && forall o :: Ended(id, o) !in g.log
  }

  ghost predicate StoryInv(g: World) {
    forall id :: StoryOf(g, id)
  }

  ghost predicate Inv(g: World) {
    LogInv(g) && OnceInv(g) && TimeInv(g) && BusyInv(g) && StoryInv(g)
  }

  lemma HasBegunMore(g: World, h: World, e: Event, id: TaskId)
    requires h.log == g.log + [e]
    ensures HasBegun(h, id) <==> HasBegun(g, id) || (e.Began? && e.id == id)
  {
    if HasBegun(g, id) {
      var i :| 0 <= i < |g.log| && g.log[i].Began? && g.log[i].id == id;
      assert h.log[i] == g.log[i];
    }
    assert h.log[|g.log|] == e;
  }

  lemma SameStory(g: World, h: World, id: TaskId)
    requires StoryOf(g, id) && h.log == g.log && (id in h.table <==> id in g.table)
    requires id in g.table ==> h.table[id].status == g.table[id].status
    ensures StoryOf(h, id)
  {
  }

  lemma ClaimStory(g: World, w: Worker, id: TaskId)
    requires StoryInv(g) && CanStep(g, Claim(w))
    ensures StoryOf(ClaimStep(g, w), id)
  {
    var h, row := ClaimStep(g, w), g.workers[w].due[0];
    assert StoryOf(g, id);
    if IsPending(g.table, row) {
      HasBegunMore(g, h, Began(row, w, g.workers[w].now), id);
    } else {
      SameStory(g, h, id);
    }
  }

  lemma FinishStory(g: World, w: Worker, outcome: Outcome, id: TaskId)
    requires StoryInv(g) && BusyInv(g) && Working(g, w)
    ensures StoryOf(FinishStep(g, w, outcome), id)
  {
    assert StoryOf(g, id);
    HasBegunMore(g, FinishStep(g, w, outcome), Ended(g.workers[w].busy.value, outcome), id);
  }

  lemma CancelStory(g: World, row: TaskId, id: TaskId)
    requires StoryInv(g)
    ensures StoryOf(DoStep(g, Cancel(row)), id)
  {
    assert StoryOf(g, id);
    if IsPending(g.table, row) {
      HasBegunMore(g, DoStep(g, Cancel(row)), Withdrawn(row), id);
    }
  }

  lemma StoryKept(g: World, s: Step)
    requires StoryInv(g) && BusyInv(g) && CanStep(g, s)
    ensures StoryInv(DoStep(g, s))
  {
    forall id ensures StoryOf(DoStep(g, s), id) {
      assert StoryOf(g, id);
      match s {
        case Insert(row, runAt) => assert HasBegun(DoStep(g, s), id) <==> HasBegun(g, id);
        case Claim(w) => ClaimStory(g, w, id);
        case Finish(w, outcome) => FinishStory(g, w, outcome, id);
        case Cancel(row) => CancelStory(g, row, id);
        case _ => SameStory(g, DoStep(g, s), id);
      }
    }
  }

  lemma BusyKept(g: World, s: Step)
    requires BusyInv(g) && CanStep(g, s)
    ensures BusyInv(DoStep(g, s))
  {
  }

  lemma LogKept(g: World, s: Step)
    requires LogInv(g) && BusyInv(g) && CanStep(g, s)
    ensures LogInv(DoStep(g, s))
  {
    if s.Finish? {
      FinishKeepsLog(g, s.w, s.outcome);
    }
  }

  lemma FinishKeepsLog(g: World, w: Worker, outcome: Outcome)
    requires LogInv(g) && BusyInv(g) && Working(g, w)
    ensures LogInv(FinishStep(g, w, outcome))
  {
    var id := g.workers[w].busy.value;
    assert g.table[id].status == Running;
  }

  lemma OnceKept(g: World, s: Step)
    requires OnceInv(g) && LogInv(g) && CanStep(g, s)
    ensures OnceInv(DoStep(g, s))
  {
  }

  lemma TimeKept(g: World, s: Step)
    requires TimeInv(g) && CanStep(g, s)
    ensures TimeInv(DoStep(g, s))
  {
  }

  lemma StepKeepsInv(g: World, s: Step)
    requires Inv(g) && CanStep(g, s)
    ensures Inv(DoStep(g, s))
  {
    LogKept(g, s);
    OnceKept(g, s);
    TimeKept(g, s);
    BusyKept(g, s);
    StoryKept(g, s);
  }

  lemma {:induction false} RunKeepsInv(g: World, steps: seq<Step>)
    requires Inv(g) && ValidRun(g, steps)
    ensures Inv(Run(g, steps))
    decreases |steps|
  {
    if steps != [] {
      StepKeepsInv(g, steps[0]);
      RunKeepsInv(DoStep(g, steps[0]), steps[1..]);
    }
  }

  // ----- theorems over every run -----

  /** However many schedulers interleave, the body of a task starts at most once. */
  lemma AtMostOnce(steps: seq<Step>, i: nat, j: nat)
    requires ValidRun(EMPTY, steps)
    requires i < j < |Run(EMPTY, steps).log|
    requires Run(EMPTY, steps).log[i].Began? && Run(EMPTY, steps).log[j].Began?
    ensures Run(EMPTY, steps).log[i].id != Run(EMPTY, steps).log[j].id
  {
    RunKeepsInv(EMPTY, steps);
  }

  /** A task that was cancelled successfully never starts, and one that started is never cancelled. */
  lemma CancelExcludesStart(steps: seq<Step>, id: TaskId)
    requires ValidRun(EMPTY, steps)
    ensures !(WasWithdrawn(Run(EMPTY, steps), id) && HasBegun(Run(EMPTY, steps), id))
  {
    RunKeepsInv(EMPTY, steps);
  }

  /** No body starts before its time on the clock of the scheduler that claimed it. */
  lemma NeverEarly(steps: seq<Step>, i: nat)
    requires ValidRun(EMPTY, steps)
    requires i < |Run(EMPTY, steps).log| && Run(EMPTY, steps).log[i].Began?
    ensures var g := Run(EMPTY, steps);
      g.log[i].id in g.table && g.table[g.log[i].id].runAt <= g.log[i].clock
  {
    RunKeepsInv(EMPTY, steps);
  }

  /**
   * Over every run the status of a row is what happened to it: cancelled if it was withdrawn, done or failed if
   * its execution ended that way, pending if it was neither withdrawn nor started.
   */
  lemma StatusTellsStory(steps: seq<Step>, id: TaskId)
    requires ValidRun(EMPTY, steps) && id in Run(EMPTY, steps).table
    ensures StoryOf(Run(EMPTY, steps), id)
  {
    RunKeepsInv(EMPTY, steps);
  }

  ghost predicate Edge(before: Status, after: Status) {
    || before == after
    || (before == Pending && (after == Running || after == Cancelled))
    || (before == Running && (after == Done || after == Failed))
  }

  /** A status only moves forward, and rows stay with their `run_at`. */
  lemma StatusMovesForward(g: World, s: Step, id: TaskId)
    requires Inv(g) && CanStep(g, s) && id in g.table
    ensures id in DoStep(g, s).table && DoStep(g, s).table[id].runAt == g.table[id].runAt
    ensures Edge(g.table[id].status, DoStep(g, s).table[id].status)
  {
  }

  lemma {:induction false} NotPendingAgain(g: World, steps: seq<Step>, id: TaskId)
    requires Inv(g) && ValidRun(g, steps) && id in g.table && g.table[id].status != Pending
    ensures id in Run(g, steps).table && Run(g, steps).table[id].status != Pending
    decreases |steps|
  {
    if steps != [] {
      StepKeepsInv(g, steps[0]);
      StatusMovesForward(g, steps[0], id);
      NotPendingAgain(DoStep(g, steps[0]), steps[1..], id);
    }
  }

  // ----- rows left running -----

  predicate Executes(g: World, w: Worker, id: TaskId) {
    Working(g, w) && g.workers[w].busy.value == id
  }

  /** A scheduler dies while it executes a row, or neither outcome can be recorded. */
  predicate Abrupt(g: World, s: Step) {
    (s.Stop? && Working(g, s.w)) || (s.Finish? && s.outcome == Unrecorded)
  }

  predicate NoAbrupt(g: World, steps: seq<Step>)
    requires ValidRun(g, steps)
    decreases |steps|
  {
    steps == [] || (!Abrupt(g, steps[0]) && NoAbrupt(DoStep(g, steps[0]), steps[1..]))
  }

  ghost predicate Orphan(g: World, id: TaskId) {
    id in g.table && g.table[id].status == Running && forall w :: !Executes(g, w, id)
  }

  /** Every running row is being executed. */
  ghost predicate Owned(g: World) {
    forall id :: !Orphan(g, id)
  }

  lemma OwnedKept(g: World, s: Step)
    requires Inv(g) && Owned(g) && CanStep(g, s) && !Abrupt(g, s)
    ensures Owned(DoStep(g, s))
  {
    var h := DoStep(g, s);
    forall id | id in h.table && h.table[id].status == Running ensures exists w :: Executes(h, w, id) {
      if id in g.table && g.table[id].status == Running {
        assert !Orphan(g, id);
        var w :| Executes(g, w, id);
        assert Executes(h, w, id);
      } else {
        assert Executes(h, s.w, id);
      }
    }
  }

  lemma AbruptOrphans(g: World, s: Step)
    requires Inv(g) && CanStep(g, s) && Abrupt(g, s)
    ensures Orphan(DoStep(g, s), g.workers[s.w].busy.value)
  {
    var h, id := DoStep(g, s), g.workers[s.w].busy.value;
    forall w ensures !Executes(h, w, id) {
      if w != s.w && Executes(h, w, id) {
        assert Executes(g, w, id);
      }
    }
  }

  /** Nothing ever touches an orphaned row again. */
  lemma OrphanKept(g: World, s: Step, id: TaskId)
    requires Inv(g) && CanStep(g, s) && Orphan(g, id)
    ensures Orphan(DoStep(g, s), id)
  {
    var h := DoStep(g, s);
    forall w ensures !Executes(h, w, id) {
      assert !Executes(g, w, id);
    }
    if s.Finish? {
      assert !Executes(g, s.w, id);
    }
  }

  lemma {:induction false} OrphanStays(g: World, steps: seq<Step>, id: TaskId)
    requires Inv(g) && ValidRun(g, steps) && Orphan(g, id)
    ensures Orphan(Run(g, steps), id)
    decreases |steps|
  {
    if steps != [] {
      OrphanKept(g, steps[0], id);
      StepKeepsInv(g, steps[0]);
      OrphanStays(DoStep(g, steps[0]), steps[1..], id);
    }
  }

  /**
   * Every running row is being executed at the end of a run exactly if no scheduler died over one and no
   * outcome went unrecorded; one such step leaves a row running for good.
   */
  lemma {:induction false} NoneLeftRunningIff(g: World, steps: seq<Step>)
    requires Inv(g) && Owned(g) && ValidRun(g, steps)
    ensures Owned(Run(g, steps)) <==> NoAbrupt(g, steps)
    decreases |steps|
  {
    if steps != [] {
      StepKeepsInv(g, steps[0]);
      if Abrupt(g, steps[0]) {
        AbruptOrphans(g, steps[0]);
        OrphanStays(DoStep(g, steps[0]), steps[1..], g.workers[steps[0].w].busy.value);
      } else {
        OwnedKept(g, steps[0]);
        NoneLeftRunningIff(DoStep(g, steps[0]), steps[1..]);
      }
    }
  }

  lemma RunFirst(g: World, s: Step, rest: seq<Step>)
    requires CanStep(g, s) && ValidRun(DoStep(g, s), rest)
    ensures ValidRun(g, [s] + rest) && Run(g, [s] + rest) == Run(DoStep(g, s), rest)
  {
    assert ([s] + rest)[1..] == rest;
  }

  /** From the empty world: a scheduler claims a row and dies over it. */
  lemma DiesOverARow(id: TaskId, w: Worker, now: int) returns (steps: seq<Step>)
    ensures ValidRun(EMPTY, steps) && Orphan(Run(EMPTY, steps), id)
  {
    var inserted := DoStep(EMPTY, Insert(id, now));
    var listed := DoStep(inserted, ListDue(w, now, [id]));
    var claimed := DoStep(listed, Claim(w));
    var dead := DoStep(claimed, Stop(w));
    assert claimed.table[id].status == Running;
    steps := [];
    RunFirst(claimed, Stop(w), steps);
    steps := [Stop(w)] + steps;
    RunFirst(listed, Claim(w), steps);
    steps := [Claim(w)] + steps;
    RunFirst(inserted, ListDue(w, now, [id]), steps);
    steps := [ListDue(w, now, [id])] + steps;
    RunFirst(EMPTY, Insert(id, now), steps);
    steps := [Insert(id, now)] + steps;
  }

  // ----- working off a list -----

  predicate Concerns(s: Step, w: Worker) {
    (s.ListDue? || s.Stop?) && s.w == w
  }

  lemma ListedStep(g: World, s: Step, w: Worker, id: TaskId)
    requires Inv(g) && CanStep(g, s) && !Concerns(s, w) && w in g.workers && id in g.workers[w].due
    ensures w in DoStep(g, s).workers
    ensures id in DoStep(g, s).workers[w].due || (id in DoStep(g, s).table && DoStep(g, s).table[id].status != Pending)
  {
    if s == Claim(w) && id != g.workers[w].due[0] {
      assert id in g.workers[w].due[1..];
    }
  }

  /** Once a scheduler has worked off its list, nothing on that list is pending any more. */
  lemma {:induction false} ListedLeavesPending(g: World, steps: seq<Step>, w: Worker, id: TaskId)
    requires Inv(g) && ValidRun(g, steps) && w in g.workers && id in g.workers[w].due
    requires forall i :: 0 <= i < |steps| ==> !Concerns(steps[i], w)
    ensures w in Run(g, steps).workers
    ensures var h := Run(g, steps);
      h.workers[w].due == [] ==> id in h.table && h.table[id].status != Pending
    decreases |steps|
  {
    if steps != [] {
      var h := DoStep(g, steps[0]);
      assert !Concerns(steps[0], w);
      StepKeepsInv(g, steps[0]);
      ListedStep(g, steps[0], w, id);
      if id in h.workers[w].due {
        ListedLeavesPending(h, steps[1..], w, id);
      } else {
        NotPendingAgain(h, steps[1..], id);
        StaysListed(h, steps[1..], w);
      }
    }
  }

  lemma {:induction false} StaysListed(g: World, steps: seq<Step>, w: Worker)
    requires ValidRun(g, steps) && w in g.workers && forall i :: 0 <= i < |steps| ==> !Concerns(steps[i], w)
    ensures w in Run(g, steps).workers
    decreases |steps|
  {
    if steps != [] {
      assert !Concerns(steps[0], w);
      StaysListed(DoStep(g, steps[0]), steps[1..], w);
    }
  }

  /** A list shorter than the limit has every due row on it. */
  lemma ShortListIsComplete(t: Table, now: int, due: seq<TaskId>, id: TaskId)
    requires IsDueList(t, now, due) && |due| < DUE_LIMIT
    ensures id in due <==> Due(t, id, now)
  {
  }

  /**
   * A scheduler that lists fewer rows than the limit, and then works its list off, has left no row
   * pending that was due when it looked.
   */
  lemma DueTasksAreTaken(g: World, w: Worker, now: int, due: seq<TaskId>, steps: seq<Step>, id: TaskId)
    requires Inv(g) && CanStep(g, ListDue(w, now, due)) && |due| < DUE_LIMIT && Due(g.table, id, now)
    requires ValidRun(DoStep(g, ListDue(w, now, due)), steps)
    requires forall i :: 0 <= i < |steps| ==> !Concerns(steps[i], w)
    ensures var h := Run(DoStep(g, ListDue(w, now, due)), steps);
      w in h.workers && (h.workers[w].due == [] ==> id in h.table && h.table[id].status != Pending)
  {
    StepKeepsInv(g, ListDue(w, now, due));
    ShortListIsComplete(g.table, now, due, id);
    ListedLeavesPending(DoStep(g, ListDue(w, now, due)), steps, w, id);
  }

  // ----- the store and one scheduler's pass over its list -----

  /** One world grows into another by steps of schedulers and operators. */
  ghost predicate Leads(g: World, h: World) {
    exists steps :: ValidRun(g, steps) && h == Run(g, steps)
  }

  lemma LeadsNowhere(g: World)
    ensures Leads(g, g)
  {
    assert ValidRun(g, []) && Run(g, []) == g;
  }

  lemma {:induction false} RunThenRun(g: World, first: seq<Step>, second: seq<Step>)
    requires ValidRun(g, first) && ValidRun(Run(g, first), second)
    ensures ValidRun(g, first + second) && Run(g, first + second) == Run(Run(g, first), second)
    decreases |first|
  {
    if first == [] {
      assert first + second == second;
    } else {
      assert (first + second)[0] == first[0] && (first + second)[1..] == first[1..] + second;
      RunThenRun(DoStep(g, first[0]), first[1..], second);
    }
  }

  lemma LeadsOn(g: World, mid: World, steps: seq<Step>)
    requires Leads(g, mid) && ValidRun(mid, steps)
    ensures Leads(g, Run(mid, steps))
  {
    var first :| ValidRun(g, first) && mid == Run(g, first);
    RunThenRun(g, first, steps);
  }

  lemma LeadsOneOn(g: World, mid: World, s: Step)
    requires Leads(g, mid) && CanStep(mid, s)
    ensures Leads(g, DoStep(mid, s))
  {
    assert [s][1..] == [] && Run(DoStep(mid, s), []) == DoStep(mid, s);
    LeadsOn(g, mid, [s]);
  }

  predicate NotBy(s: Step, w: Worker) {
    match s
    case Insert(_, _) => true
    case ListDue(v, _, _) => v != w
    case Claim(v) => v != w
    case Finish(v, _) => v != w
    case Stop(v) => v != w
    case Cancel(_) => true
  }

  predicate At(g: World, w: Worker, a: Activity) {
    w in g.workers && g.workers[w] == a
  }

  lemma {:induction false} OthersLeaveWorker(g: World, steps: seq<Step>, w: Worker)
    requires ValidRun(g, steps) && w in g.workers && forall i :: 0 <= i < |steps| ==> NotBy(steps[i], w)
    ensures At(Run(g, steps), w, g.workers[w])
    decreases |steps|
  {
    if steps != [] {
      assert NotBy(steps[0], w);
      OthersLeaveWorker(DoStep(g, steps[0]), steps[1..], w);
    }
  }

  lemma {:induction false} LogGrows(g: World, steps: seq<Step>)
    requires ValidRun(g, steps)
    ensures g.log <= Run(g, steps).log
    decreases |steps|
  {
    if steps != [] {
      LogGrows(DoStep(g, steps[0]), steps[1..]);
    }
  }

  predicate Past(t: Table, id: TaskId) {
    id in t && t[id].status != Pending
  }

  /** Rows that were claimed or cancelled do not become pending again. */
  ghost predicate PastKept(before: Table, after: Table) {
    forall id :: Past(before, id) ==> Past(after, id)
  }

  lemma ClaimedIsPast(g: World, w: Worker, id: TaskId)
    requires CanStep(g, Claim(w)) && g.workers[w].due[0] in g.table
    ensures Past(ClaimStep(g, w).table, g.workers[w].due[0])
    ensures Past(g.table, id) ==> Past(ClaimStep(g, w).table, id)
  {
  }

  /** `ScheduledTaskStore`. `works` says whether a statement succeeds; one that fails changes nothing. */
  class TaskStore {
    var rows: Table

    constructor ()
      ensures rows == map[]
    {
      rows := map[];
    }

    /** A new row falls due at its time, and no other row changes. */
    method Insert(id: TaskId, runAt: int)
      requires id !in rows
      modifies this
      ensures forall now :: Due(rows, id, now) <==> runAt <= now
      ensures forall x :: x != id ==> (x in rows <==> x in old(rows)) && (x in rows ==> rows[x] == old(rows)[x])
    {
      rows := rows[id := Task(runAt, Pending)];
    }

    method MarkRunning(id: TaskId, works: bool) returns (claimed: Option<bool>)
      modifies this
      ensures claimed == if works then Some(IsPending(old(rows), id)) else None
      ensures rows == if works then UpdatePending(old(rows), id, Running) else old(rows)
    {
      if !works {
        return None;
      }
      if id in rows && rows[id].status == Pending {
        rows := rows[id := rows[id].(status := Running)];
        return Some(true);
      }
      return Some(false);
    }

    method MarkDone(id: TaskId, works: bool) returns (ok: bool)
      modifies this
      ensures ok == works && rows == if works then WithStatus(old(rows), id, Done) else old(rows)
    {
      ok := works;
      if ok && id in rows {
        rows := rows[id := rows[id].(status := Done)];
      }
    }

    method MarkFailed(id: TaskId, works: bool) returns (ok: bool)
      modifies this
      ensures ok == works && rows == if works then WithStatus(old(rows), id, Failed) else old(rows)
    {
      ok := works;
      if ok && id in rows {
        rows := rows[id := rows[id].(status := Failed)];
      }
    }

    method CancelTask(id: TaskId, works: bool) returns (cancelled: Option<bool>)
      modifies this
      ensures cancelled == if works then Some(IsPending(old(rows), id)) else None
      ensures rows == if works then UpdatePending(old(rows), id, Cancelled) else old(rows)
    {
      if !works {
        return None;
      }
      if id in rows && rows[id].status == Pending {
        rows := rows[id := rows[id].(status := Cancelled)];
        return Some(true);
      }
      return Some(false);
    }
  }

  /** What the outside makes of a row: whether it can be claimed, delivered, and marked afterwards. */
  datatype Fate = Fate(claims: bool, delivers: bool, marksDone: bool, marksFailed: bool)

  function OutcomeOf(f: Fate): Outcome {
    if f.delivers && f.marksDone then Delivered else if f.marksFailed then Errored else Unrecorded
  }

  // ----- what one scheduler begins, it ends -----

  predicate BegunBy(log: seq<Event>, w: Worker, id: TaskId) {
    exists i :: 0 <= i < |log| && log[i].Began? && log[i].id == id && log[i].who == w
  }

  /** The scheduler has begun nothing new. */
  ghost predicate NoneBegun(before: seq<Event>, log: seq<Event>, w: Worker) {
    forall id :: BegunBy(log, w, id) ==> BegunBy(before, w, id)
  }

  ghost predicate OneBegun(before: seq<Event>, log: seq<Event>, w: Worker, one: TaskId) {
    forall id :: id != one && BegunBy(log, w, id) ==> BegunBy(before, w, id)
  }

  predicate NotBegunBy(log: seq<Event>, w: Worker, due: seq<TaskId>) {
    forall i :: 0 <= i < |due| ==> !BegunBy(log, w, due[i])
  }

  /** What the scheduler began of its list has ended, with the outcome its delivery and the store gave it. */
  predicate EndedAsBegun(log: seq<Event>, w: Worker, due: seq<TaskId>, fate: TaskId -> Fate) {
    forall i :: 0 <= i < |due| && BegunBy(log, w, due[i]) ==> Ended(due[i], OutcomeOf(fate(due[i]))) in log
  }

  lemma BegunMore(log: seq<Event>, e: Event, w: Worker, id: TaskId)
    ensures BegunBy(log + [e], w, id) <==> BegunBy(log, w, id) || (e.Began? && e.id == id && e.who == w)
  {
    if BegunBy(log, w, id) {
      var i :| 0 <= i < |log| && log[i].Began? && log[i].id == id && log[i].who == w;
      assert (log + [e])[i] == log[i];
    }
    if e.Began? && e.id == id && e.who == w {
      assert (log + [e])[|log|] == e;
    }
  }

  lemma OtherBegins(g: World, s: Step, w: Worker)
    requires CanStep(g, s) && NotBy(s, w)
    ensures NoneBegun(g.log, DoStep(g, s).log, w)
  {
    var log := DoStep(g, s).log;
    if log != g.log {
      assert log == g.log + [log[|g.log|]];
      forall id | BegunBy(log, w, id) ensures BegunBy(g.log, w, id) {
        BegunMore(g.log, log[|g.log|], w, id);
      }
    }
  }

  lemma {:induction false} OthersBegin(g: World, steps: seq<Step>, w: Worker)
    requires ValidRun(g, steps) && forall i :: 0 <= i < |steps| ==> NotBy(steps[i], w)
    ensures NoneBegun(g.log, Run(g, steps).log, w)
    decreases |steps|
  {
    if steps != [] {
      OtherBegins(g, steps[0], w);
      OthersBegin(DoStep(g, steps[0]), steps[1..], w);
    }
  }

  /** A claim begins the row it claims, and nothing else. */
  lemma ClaimBegins(g: World, w: Worker, works: bool)
    requires CanStep(g, Claim(w))
    ensures var log, id := (if works then DoStep(g, Claim(w)) else g).log, g.workers[w].due[0];
      g.log <= log && (if works && IsPending(g.table, id) then OneBegun(g.log, log, w, id) else log == g.log)
  {
    var id := g.workers[w].due[0];
    forall x ensures BegunBy(g.log + [Began(id, w, g.workers[w].now)], w, x) ==> BegunBy(g.log, w, x) || x == id {
      BegunMore(g.log, Began(id, w, g.workers[w].now), w, x);
    }
  }

  lemma StillNone(before: seq<Event>, mid: seq<Event>, log: seq<Event>, w: Worker, id: TaskId)
    requires NoneBegun(before, mid, w)
    ensures NoneBegun(mid, log, w) ==> NoneBegun(before, log, w)
    ensures OneBegun(mid, log, w, id) ==> OneBegun(before, log, w, id)
  {
  }

  /** A pending row has been begun by nobody. */
  lemma DueNotBegun(g: World, w: Worker, now: int, due: seq<TaskId>)
    requires Inv(g) && CanStep(g, ListDue(w, now, due))
    ensures NotBegunBy(g.log, w, due)
  {
    forall i | 0 <= i < |due| ensures !BegunBy(g.log, w, due[i]) {
      assert StoryOf(g, due[i]);
    }
  }

  lemma StillAsBegun(before: seq<Event>, log: seq<Event>, w: Worker, due: seq<TaskId>, fate: TaskId -> Fate,
                     one: TaskId)
    requires before <= log && EndedAsBegun(before, w, due, fate)
    requires NoneBegun(before, log, w)
          || (Ended(one, OutcomeOf(fate(one))) in log && OneBegun(before, log, w, one))
    ensures EndedAsBegun(log, w, due, fate)
  {
    forall i | 0 <= i < |due| && BegunBy(log, w, due[i]) ensures Ended(due[i], OutcomeOf(fate(due[i]))) in log {
      if due[i] != one || NoneBegun(before, log, w) {
        assert Ended(due[i], OutcomeOf(fate(due[i]))) in before;
      }
    }
  }

  /** One scheduler at the table, and what all of them are doing. */
  class Runner {
    const store: TaskStore
    const me: Worker
    var workers: map<Worker, Activity>
    var log: seq<Event>

    constructor (s: TaskStore, w: Worker)
      ensures store == s && me == w && workers == map[] && log == []
    {
      store, me, workers, log := s, w, map[], [];
    }

    function Now(): World
      reads this, store
    {
      World(store.rows, workers, log)
    }

    /** Since `from` only steps were taken, and this scheduler is where it says. */
    ghost predicate Since(from: World, a: Activity)
      reads this, store
    {
      Inv(Now()) && Leads(from, Now()) && At(Now(), me, a)
    }

    /** Other schedulers and operators, at any point where this one waits. */
    method Meanwhile(ghost from: World)
      requires me in workers && Since(from, workers[me])
      modifies this, store
      ensures Since(from, old(workers)[me])
      ensures PastKept(old(store.rows), store.rows) && old(log) <= log && NoneBegun(old(log), log, me)
    {
      var steps: seq<Step> := *;
      if ValidRun(Now(), steps) && forall i :: 0 <= i < |steps| ==> NotBy(steps[i], me) {
        ghost var now := Now();
        RunKeepsInv(now, steps);
        OthersBegin(now, steps, me);
        LeadsOn(from, now, steps);
        OthersLeaveWorker(now, steps, me);
        LogGrows(now, steps);
        forall id | Past(now.table, id) ensures Past(Run(now, steps).table, id) {
          NotPendingAgain(now, steps, id);
        }
        var later := Run(Now(), steps);
        store.rows, workers, log := later.table, later.workers, later.log;
      }
    }

    lemma SinceStep(from: World, s: Step)
      requires Inv(Now()) && Leads(from, Now()) && CanStep(Now(), s)
      ensures Inv(DoStep(Now(), s)) && Leads(from, DoStep(Now(), s))
    {
      StepKeepsInv(Now(), s);
      LeadsOneOn(from, Now(), s);
    }

    /** Tries to claim the next row of the list. */
    method ClaimNext(works: bool, ghost from: World) returns (claimed: Option<bool>)
      requires me in workers && Since(from, workers[me])
      requires workers[me].due != [] && workers[me].busy == None
      modifies this, store
      ensures Now() == if works then DoStep(old(Now()), Claim(me)) else old(Now())
      ensures claimed == if works then Some(IsPending(old(store.rows), old(workers)[me].due[0])) else None
      ensures Inv(Now()) && Leads(from, Now()) && me in workers
      ensures claimed.Some? ==> var a := old(workers)[me];
        && workers[me] == Activity(a.now, a.due[1..], if claimed.value then Some(a.due[0]) else None)
        && Past(store.rows, a.due[0])
      ensures PastKept(old(store.rows), store.rows)
    {
      SinceStep(from, Claim(me));
      var a := workers[me];
      ClaimedIsPast(Now(), me, a.due[0]);
      claimed := store.MarkRunning(a.due[0], works);
      if claimed.Some? {
        workers := workers[me := Activity(a.now, a.due[1..], if claimed.value then Some(a.due[0]) else None)];
        if claimed.value {
          log := log + [Began(a.due[0], me, a.now)];
        }
      }
    }

    /** Delivers the row in hand and records the outcome, as far as the store lets it. */
    method Execute(fate: Fate, ghost from: World)
      requires me in workers && Since(from, workers[me]) && workers[me].busy.Some?
      modifies this, store
      ensures Since(from, old(workers)[me].(busy := None)) && PastKept(old(store.rows), store.rows)
      ensures old(log) <= log && Ended(old(workers)[me].busy.value, OutcomeOf(fate)) in log
      ensures NoneBegun(old(log), log, me)
    {
      Meanwhile(from);
      Record(fate, from);
    }

    /** A delivered row is marked done; one that is not, or could not be, is marked failed if that works. */
    method Record(fate: Fate, ghost from: World)
      requires me in workers && Since(from, workers[me]) && workers[me].busy.Some?
      modifies this, store
      ensures Since(from, old(workers)[me].(busy := None)) && PastKept(old(store.rows), store.rows)
      ensures Now() == DoStep(old(Now()), Finish(me, OutcomeOf(fate)))
    {
      var id := workers[me].busy.value;
      ghost var before := World(store.rows, workers, log);
      var recorded := false;
      if fate.delivers {
        recorded := store.MarkDone(id, fate.marksDone);
      }
      var outcome := Delivered;
      if !recorded {
        recorded := store.MarkFailed(id, fate.marksFailed);
        outcome := if recorded then Errored else Unrecorded;
      }
      StepKeepsInv(before, Finish(me, outcome));
      LeadsOneOn(from, before, Finish(me, outcome));
      workers := workers[me := workers[me].(busy := None)];
      log := log + [Ended(id, outcome)];
      assert Now() == DoStep(before, Finish(me, outcome));
    }

    /** The tick ends early: the rest of the list is dropped. */
    method EndTick(ghost from: World)
      requires me in workers && Inv(Now()) && Leads(from, Now())
      modifies this`workers
      ensures me !in workers && Inv(Now()) && Leads(from, Now())
    {
      SinceStep(from, Stop(me));
      workers := map x | x in workers && x != me :: workers[x];
    }

    /** After a wait, tries to claim the next row of the list. */
    method WaitAndClaim(works: bool, ghost from: World) returns (claimed: Option<bool>)
      requires me in workers && Since(from, workers[me])
      requires workers[me].due != [] && workers[me].busy == None
      modifies this, store
      ensures claimed.Some? <==> works
      ensures Inv(Now()) && Leads(from, Now()) && me in workers
      ensures claimed.Some? ==> var a := old(workers)[me];
        && workers[me] == Activity(a.now, a.due[1..], if claimed.value then Some(a.due[0]) else None)
        && Past(store.rows, a.due[0])
      ensures PastKept(old(store.rows), store.rows) && old(log) <= log
      ensures if claimed == Some(true) then OneBegun(old(log), log, me, old(workers)[me].due[0])
              else NoneBegun(old(log), log, me)
    {
      ghost var id := workers[me].due[0];
      Meanwhile(from);
      ghost var before, g := log, Now();
      claimed := ClaimNext(works, from);
      ClaimBegins(g, me, works);
      StillNone(old(log), before, log, me, id);
    }

    /** One row of the list; a failed claim ends the tick. A row that was claimed is executed. */
    method RunNext(fate: Fate, ghost from: World) returns (ok: bool)
      requires me in workers && Since(from, workers[me])
      requires workers[me].due != [] && workers[me].busy == None
      modifies this, store
      ensures ok == fate.claims && old(log) <= log
      ensures ok ==> var a := old(workers)[me];
        && Since(from, Activity(a.now, a.due[1..], None)) && Past(store.rows, a.due[0])
        && (NoneBegun(old(log), log, me)
            || (Ended(a.due[0], OutcomeOf(fate)) in log && OneBegun(old(log), log, me, a.due[0])))
      ensures PastKept(old(store.rows), store.rows)
      ensures !ok ==> me !in workers && Inv(Now()) && Leads(from, Now()) && NoneBegun(old(log), log, me)
    {
      var claimed := WaitAndClaim(fate.claims, from);
      if claimed == None {
        EndTick(from);
        return false;
      }
      if claimed.value {
        Execute(fate, from);
      }
      return true;
    }

    /** Works off the list, up to the first claim that fails. */
    method WorkOff(now: int, due: seq<TaskId>, fate: TaskId -> Fate, ghost from: World) returns (ok: bool)
      requires Since(from, Activity(now, due, None)) && NotBegunBy(log, me, due)
      modifies this, store
      ensures Inv(Now()) && Leads(from, Now())
      ensures ok <==> forall i :: 0 <= i < |due| ==> fate(due[i]).claims
      ensures if ok then At(Now(), me, Activity(now, [], None)) else me !in workers
      ensures forall i :: 0 <= i < |due| && (forall j :: 0 <= j <= i ==> fate(due[j]).claims) ==>
        Past(store.rows, due[i])
      ensures EndedAsBegun(log, me, due, fate)
    {
      for k := 0 to |due|
        invariant Since(from, Activity(now, due[k..], None))
        invariant forall i :: 0 <= i < k ==> fate(due[i]).claims && Past(store.rows, due[i])
        invariant EndedAsBegun(log, me, due, fate)
      {
        ghost var before := log;
        ok := RunNext(fate(due[k]), from);
        StillAsBegun(before, log, me, due, fate, due[k]);
        if !ok {
          return;
        }
      }
      return true;
    }

    /**
     * `run_due_scheduled` on the list it read, with any number of schedulers and operators in between: it takes
     * steps of the system only, and settles its list up to the first claim that fails, so that with fewer rows
     * than the limit, and no such claim, nothing is pending any more that was due when it looked. Each row it
     * claimed it also ran, and the row ended as its delivery and its statements came out.
     */
    method RunDueScheduled(now: int, due: seq<TaskId>, fate: TaskId -> Fate) returns (ok: bool)
      requires Inv(Now()) && CanStep(Now(), ListDue(me, now, due))
      modifies this, store
      ensures Inv(Now()) && Leads(old(Now()), Now())
      ensures ok <==> forall i :: 0 <= i < |due| ==> fate(due[i]).claims
      ensures if ok then At(Now(), me, Activity(now, [], None)) else me !in workers
      ensures forall i :: 0 <= i < |due| && (forall j :: 0 <= j <= i ==> fate(due[j]).claims) ==>
        Past(store.rows, due[i])
      ensures ok && |due| < DUE_LIMIT ==> forall id :: Due(old(store.rows), id, now) ==> Past(store.rows, id)
      ensures EndedAsBegun(log, me, due, fate)
    {
      ghost var from := Now();
      LeadsNowhere(from);
      SinceStep(from, ListDue(me, now, due));
      DueNotBegun(from, me, now, due);
      workers := workers[me := Activity(now, due, None)];
      ok := WorkOff(now, due, fate, from);
      forall id | |due| < DUE_LIMIT && Due(from.table, id, now) ensures id in due {
        ShortListIsComplete(from.table, now, due, id);
      }
    }
  }

  // ----- how long a scheduler sleeps -----

  function MaxTick(tickSecs: nat): int {
    Max(tickSecs, 5) * 1000
  }

  function NextSleep(next: Option<int>, now: int, maxTick: int): int {
    Max(match next case Some(t) => Min(Max(t - now, 0), maxTick) case None => maxTick, 1000)
  }

  /**
   * It sleeps between a second and its tick, wakes at most a second after the next task falls due, and
   * wakes before that only when its tick is over.
   */
  lemma WakesInTime(next: Option<int>, now: int, tickSecs: nat)
    ensures var r := NextSleep(next, now, MaxTick(tickSecs));
      && 1000 <= r <= MaxTick(tickSecs)
      && (next.Some? ==> now + r <= Max(next.value, now) + 1000)
      && (next.Some? && now + r < next.value ==> r == MaxTick(tickSecs))
      && (next.None? ==> r == MaxTick(tickSecs))
  {
  }
}
