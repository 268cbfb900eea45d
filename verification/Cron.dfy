/**
 * Recurring jobs: which fire of a schedule a tick picks, and how often a fire starts its job.
 * Times are integer milliseconds; a schedule is the predicate of its fire instants.
 */
module Cron {
  import opened Options
  import Scheduler

  type Schedule = int -> bool

  function Window(tickSecs: nat): int {
    (tickSecs + 2) * 1000
  }

  /** The first fire after `lo` and not after `hi`. */
  function FirstFire(fires: Schedule, lo: int, hi: int): (r: Option<int>)
    ensures r.Some? ==> lo < r.value <= hi && fires(r.value) && forall t :: lo < t < r.value ==> !fires(t)
    ensures r.None? ==> forall t :: lo < t <= hi ==> !fires(t)
    decreases hi - lo
  {
    if lo >= hi then None
    else if fires(lo + 1) then Some(lo + 1)
    else FirstFire(fires, lo + 1, hi)
  }

  /** The next instants of the schedule after `lo`, as `schedule.after(..).take(4)` lists them. */
  ghost predicate Upcoming(fires: Schedule, lo: int, next: seq<int>) {
    && |next| <= 4
    && (forall i :: 0 <= i < |next| ==> lo < next[i] && fires(next[i]))
    && (forall i, j :: 0 <= i < j < |next| ==> next[i] < next[j])
    && (forall t :: lo < t && fires(t) && t !in next ==> |next| == 4 && next[3] < t)
  }

  /** Every fire after `lo` is at or after the first instant listed. */
  lemma FirstOfUpcoming(fires: Schedule, lo: int, next: seq<int>, t: int)
    requires Upcoming(fires, lo, next) && lo < t && fires(t)
    ensures next != [] && next[0] <= t
  {
  }

  /** The search through those instants finds the first fire of the window, if it has one. */
  method FireInWindow(next: seq<int>, lo: int, now: int, ghost fires: Schedule) returns (fire: Option<int>)
    requires Upcoming(fires, lo, next)
    ensures fire == FirstFire(fires, lo, now)
  {
    forall t | lo < t && fires(t) ensures next != [] && next[0] <= t {
      FirstOfUpcoming(fires, lo, next, t);
    }
    for i := 0 to |next|
      invariant forall j :: 0 <= j < i ==> next[j] > now
    {
      if next[i] <= now {
        assert next[0] <= next[i];
        return Some(next[i]);
      }
    }
    fire := None;
  }

  // ----- the records of one job -----

  /** `last_run_at`: the greatest `created_at`. */
  function Latest(records: seq<int>): Option<int> {
    if records == [] then None
    else match Latest(records[..|records| - 1])
      case None => Some(records[|records| - 1])
      case Some(l) => Some(if l < records[|records| - 1] then records[|records| - 1] else l)
  }

  /** A run on record within a second of the fire, or after it, means the fire has been served. */
  predicate Served(records: seq<int>, fire: int) {
    Latest(records).Some? && Latest(records).value >= fire - 1000
  }

  lemma {:induction false} ServedIff(records: seq<int>, fire: int)
    ensures Served(records, fire) <==> exists i :: 0 <= i < |records| && records[i] >= fire - 1000
  {
    if records != [] {
      var front := records[..|records| - 1];
      ServedIff(front, fire);
      if exists i :: 0 <= i < |records| && records[i] >= fire - 1000 {
        var i :| 0 <= i < |records| && records[i] >= fire - 1000;
        if i < |front| { assert front[i] >= fire - 1000; }
      }
      if Served(front, fire) {
        var i :| 0 <= i < |front| && front[i] >= fire - 1000;
        assert records[i] >= fire - 1000;
      }
    }
  }

  /** The fire that a tick at `now` decides to start. */
  function Decide(fires: Schedule, window: int, records: seq<int>, now: int): Option<int> {
    match FirstFire(fires, now - window, now)
    case None => None
    case Some(f) => if Served(records, f) then None else Some(f)
  }

  // ----- one scheduler: every fire exactly once, or not at all -----

  /**
   * A tick: its clock, and the times at which the start and the end of a run are recorded, if it runs. A tick
   * that has not `worked` ended early, at a statement that failed before this job's start was on record: in the
   * one-shot pass, for another job, or for this one.
   */
  datatype Tick = Tick(now: int, startedAt: int, endedAt: int, worked: bool, endRecorded: bool)

  datatype JobState = JobState(records: seq<int>, starts: seq<int>)

  function TickStep(fires: Schedule, window: int, s: JobState, t: Tick): JobState {
    match Decide(fires, window, s.records, t.now)
    case None => s
    case Some(f) =>
      if !t.worked then s
      else JobState(s.records + [t.startedAt] + (if t.endRecorded then [t.endedAt] else []), s.starts + [f])
  }

  function RunTicks(fires: Schedule, window: int, s: JobState, ticks: seq<Tick>): JobState {
    if ticks == [] then s
    else TickStep(fires, window, RunTicks(fires, window, s, ticks[..|ticks| - 1]), ticks[|ticks| - 1])
  }

  /** Time goes forward within a tick and from tick to tick. */
  predicate Monotone(ticks: seq<Tick>) {
    && (forall i :: 0 <= i < |ticks| ==> ticks[i].now <= ticks[i].startedAt <= ticks[i].endedAt)
    && (forall i, j :: 0 <= i < j < |ticks| ==> ticks[i].endedAt <= ticks[j].now)
  }

  function Count(f: int, starts: seq<int>): nat {
    if starts == [] then 0
    else Count(f, starts[..|starts| - 1]) + if starts[|starts| - 1] == f then 1 else 0
  }

  lemma {:induction false} CountZero(f: int, starts: seq<int>)
    ensures Count(f, starts) == 0 <==> f !in starts
  {
    if starts != [] {
      CountZero(f, starts[..|starts| - 1]);
    }
  }

  lemma CountStep(f: int, starts: seq<int>, g: int)
    ensures Count(f, starts + [g]) == Count(f, starts) + if g == f then 1 else 0
  {
    assert (starts + [g])[..|starts|] == starts;
  }

  /** A served fire stays served. */
  lemma ServedGrows(records: seq<int>, more: seq<int>, fire: int)
    requires Served(records, fire)
    ensures Served(records + more, fire)
  {
    ServedIff(records, fire);
    ServedIff(records + more, fire);
    var i :| 0 <= i < |records| && records[i] >= fire - 1000;
    assert (records + more)[i] == records[i];
  }

  lemma ServedBy(records: seq<int>, i: nat, fire: int)
    requires i < |records| && records[i] >= fire - 1000
    ensures Served(records, fire)
  {
    ServedIff(records, fire);
  }

  /** The record of a start is no earlier than the tick that decided it. */
  predicate InOrder(ticks: seq<Tick>) {
    forall i :: 0 <= i < |ticks| ==> ticks[i].now <= ticks[i].startedAt
  }

  /** Every fire that started is served, and started once. */
  predicate StartedServed(s: JobState) {
    forall f :: f in s.starts ==> Served(s.records, f) && Count(f, s.starts) == 1
  }

  lemma TickKeepsServed(fires: Schedule, window: int, s: JobState, t: Tick)
    requires StartedServed(s) && t.now <= t.startedAt
    ensures StartedServed(TickStep(fires, window, s, t))
  {
    var d := Decide(fires, window, s.records, t.now);
    if d.Some? && t.worked {
      var f := d.value;
      var w := TickStep(fires, window, s, t);
      var more := [t.startedAt] + if t.endRecorded then [t.endedAt] else [];
      assert w.records == s.records + more;
      assert w.records[|s.records|] == t.startedAt;
      ServedBy(w.records, |s.records|, f);
      CountZero(f, s.starts);
      forall g | g in w.starts ensures Served(w.records, g) && Count(g, w.starts) == 1 {
        CountStep(g, s.starts, f);
        if g != f { ServedGrows(s.records, more, g); }
      }
    }
  }

  lemma {:induction false} RunKeepsServed(fires: Schedule, window: int, s: JobState, ticks: seq<Tick>)
    requires StartedServed(s) && InOrder(ticks)
    ensures StartedServed(RunTicks(fires, window, s, ticks))
  {
    if ticks != [] {
      RunKeepsServed(fires, window, s, ticks[..|ticks| - 1]);
      TickKeepsServed(fires, window, RunTicks(fires, window, s, ticks[..|ticks| - 1]), ticks[|ticks| - 1]);
    }
  }

  /** With one scheduler no fire starts its job twice, however long the runs and the pauses between ticks are. */
  lemma NoFireTwice(fires: Schedule, window: int, s: JobState, ticks: seq<Tick>, f: int)
    requires s.starts == [] && InOrder(ticks)
    ensures Count(f, RunTicks(fires, window, s, ticks).starts) <= 1
  {
    RunKeepsServed(fires, window, s, ticks);
    CountZero(f, RunTicks(fires, window, s, ticks).starts);
  }

  // ----- which fires start -----

  /** The tick's window holds the fire and no older one. */
  ghost predicate Picks(fires: Schedule, window: int, now: int, f: int) {
    fires(f) && now - window < f <= now && forall t :: now - window < t < f ==> !fires(t)
  }

  /** The search returns the oldest fire of the window, so an older one hides those after it. */
  lemma PicksIff(fires: Schedule, window: int, now: int, f: int)
    ensures FirstFire(fires, now - window, now) == Some(f) <==> Picks(fires, window, now, f)
  {
    var r := FirstFire(fires, now - window, now);
    if Picks(fires, window, now, f) {
      assert r.Some? && fires(r.value) && fires(f);
    }
  }

  /** At tick `k` of a run, which worked, the fire is picked and not yet served. */
  ghost predicate StartsAtTick(fires: Schedule, window: int, s: JobState, ticks: seq<Tick>, k: nat, f: int)
    requires k < |ticks|
  {
    && ticks[k].worked && Picks(fires, window, ticks[k].now, f)
    && !Served(RunTicks(fires, window, s, ticks[..k]).records, f)
  }

  lemma TickStarts(fires: Schedule, window: int, s: JobState, t: Tick, f: int)
    ensures f in TickStep(fires, window, s, t).starts
       <==> f in s.starts || (t.worked && Picks(fires, window, t.now, f) && !Served(s.records, f))
  {
    PicksIff(fires, window, t.now, f);
  }

  /** For every schedule: a fire starts its job iff some tick that works picks it before it is served. */
  lemma {:induction false} StartedIff(fires: Schedule, window: int, s: JobState, ticks: seq<Tick>, f: int)
    ensures f in RunTicks(fires, window, s, ticks).starts
       <==> f in s.starts || exists k :: 0 <= k < |ticks| && StartsAtTick(fires, window, s, ticks, k, f)
  {
    if ticks != [] {
      var n := |ticks| - 1;
      var front := ticks[..n];
      StartedIff(fires, window, s, front, f);
      TickStarts(fires, window, RunTicks(fires, window, s, front), ticks[n], f);
      forall k | 0 <= k < n
        ensures StartsAtTick(fires, window, s, ticks, k, f) <==> StartsAtTick(fires, window, s, front, k, f)
      {
        assert ticks[..k] == front[..k];
      }
      assert StartsAtTick(fires, window, s, ticks, n, f)
        <==> ticks[n].worked && Picks(fires, window, ticks[n].now, f)
             && !Served(RunTicks(fires, window, s, front).records, f);
    }
  }

  /** And then exactly once. */
  lemma ExactlyOnceIff(fires: Schedule, window: int, s: JobState, ticks: seq<Tick>, f: int)
    requires StartedServed(s) && InOrder(ticks) && f !in s.starts
    ensures Count(f, RunTicks(fires, window, s, ticks).starts)
         == if exists k :: 0 <= k < |ticks| && StartsAtTick(fires, window, s, ticks, k, f) then 1 else 0
  {
    StartedIff(fires, window, s, ticks, f);
    RunKeepsServed(fires, window, s, ticks);
    CountZero(f, RunTicks(fires, window, s, ticks).starts);
  }

  lemma ServedNext(fires: Schedule, window: int, s: JobState, t: Tick, f: int)
    requires Served(s.records, f)
    ensures Served(TickStep(fires, window, s, t).records, f)
  {
    var w := TickStep(fires, window, s, t);
    assert w.records == s.records + w.records[|s.records|..];
    ServedGrows(s.records, w.records[|s.records|..], f);
  }

  lemma {:induction false} ServedLater(fires: Schedule, window: int, s: JobState, ticks: seq<Tick>, k: nat, f: int)
    requires k <= |ticks| && Served(RunTicks(fires, window, s, ticks[..k]).records, f)
    ensures Served(RunTicks(fires, window, s, ticks).records, f)
  {
    if k == |ticks| {
      assert ticks[..k] == ticks;
    } else {
      var front := ticks[..|ticks| - 1];
      assert front[..k] == ticks[..k];
      ServedLater(fires, window, s, front, k, f);
      ServedNext(fires, window, RunTicks(fires, window, s, front), ticks[|ticks| - 1], f);
    }
  }

  /** The first tick at or after a time. */
  predicate FirstAtOrAfter(ticks: seq<Tick>, k: nat, f: int) {
    k < |ticks| && f <= ticks[k].now && forall i :: 0 <= i < k ==> ticks[i].now < f
  }

  /** The first tick at or after a time that works. */
  predicate FirstWorking(ticks: seq<Tick>, k: nat, f: int) {
    && k < |ticks| && ticks[k].worked && f <= ticks[k].now
    && forall i :: 0 <= i < k && ticks[i].worked ==> ticks[i].now < f
  }

  /** Fires at least a window apart. */
  ghost predicate Spaced(fires: Schedule, window: int) {
    forall a, b :: fires(a) && fires(b) && a < b ==> b - a >= window
  }

  lemma SpacedPicks(fires: Schedule, window: int, now: int, f: int)
    requires Spaced(fires, window) && fires(f) && now - window < f <= now
    ensures Picks(fires, window, now, f)
  {
    forall t | now - window < t < f ensures !fires(t) {
      assert f - t < window;
    }
  }

  /**
   * With fires at least a window apart, the first tick `k` at or after a fire that works settles it for good:
   * the fire starts exactly once if that tick comes before the window has passed and no run is on record since
   * a second before the fire; otherwise never.
   */
  lemma SpacedOnceIff(fires: Schedule, window: int, s: JobState, ticks: seq<Tick>, k: nat, f: int)
    requires Monotone(ticks) && Spaced(fires, window) && fires(f) && StartedServed(s) && f !in s.starts
    requires FirstWorking(ticks, k, f)
    ensures Count(f, RunTicks(fires, window, s, ticks).starts)
         == if ticks[k].now < f + window && !Served(RunTicks(fires, window, s, ticks[..k]).records, f) then 1 else 0
  {
    ExactlyOnceIff(fires, window, s, ticks, f);
    if ticks[k].now < f + window {
      SpacedPicks(fires, window, ticks[k].now, f);
      if !Served(RunTicks(fires, window, s, ticks[..k]).records, f) {
        assert StartsAtTick(fires, window, s, ticks, k, f);
      }
    }
    if j :| 0 <= j < |ticks| && StartsAtTick(fires, window, s, ticks, j, f) {
      NotServedBefore(fires, window, s, ticks, k, j, f);
    }
  }

  /** A tick that starts the fire is in its window, and so is the first that works, which found it unserved. */
  lemma NotServedBefore(fires: Schedule, window: int, s: JobState, ticks: seq<Tick>, k: nat, j: nat, f: int)
    requires Monotone(ticks) && FirstWorking(ticks, k, f) && j < |ticks| && StartsAtTick(fires, window, s, ticks, j, f)
    ensures ticks[k].now < f + window && !Served(RunTicks(fires, window, s, ticks[..k]).records, f)
  {
    assert k <= j && ticks[k].now <= ticks[j].now;
    if Served(RunTicks(fires, window, s, ticks[..k]).records, f) {
      assert ticks[..j][..k] == ticks[..k];
      ServedLater(fires, window, s, ticks[..j], k, f);
    }
  }

  predicate EveryFiveSeconds(t: int) {
    t % 5000 == 0
  }

  lemma NoneBetween(f: int, t: int)
    requires EveryFiveSeconds(f) && f - 5000 < t < f
    ensures !EveryFiveSeconds(t)
  {
    assert f == 5000 * (f / 5000);
    assert t / 5000 == f / 5000 - 1;
  }

  lemma DensePicks(window: int, now: int, f: int)
    requires window == 7000 && EveryFiveSeconds(f) && f - 5000 <= now - window < f <= now
    ensures FirstFire(EveryFiveSeconds, now - window, now) == Some(f)
  {
    forall t | now - window < t < f ensures !EveryFiveSeconds(t) {
      NoneBetween(f, t);
    }
    PicksIff(EveryFiveSeconds, window, now, f);
  }

  lemma DenseDecides(records: seq<int>, window: int, now: int, f: int)
    requires window == 7000 && EveryFiveSeconds(f) && f - 5000 <= now - window < f <= now
    ensures Decide(EveryFiveSeconds, window, records, now) == if Served(records, f) then None else Some(f)
  {
    DensePicks(window, now, f);
  }

  lemma ThreeTicks(fires: Schedule, window: int, s: JobState, a: Tick, b: Tick, c: Tick)
    ensures RunTicks(fires, window, s, [a, b, c])
         == TickStep(fires, window, TickStep(fires, window, TickStep(fires, window, s, a), b), c)
  {
    assert [a, b, c][..2] == [a, b] && [a, b][..1] == [a] && [a][..0] == [];
    assert RunTicks(fires, window, s, [a]) == TickStep(fires, window, s, a);
    assert RunTicks(fires, window, s, [a, b]) == TickStep(fires, window, TickStep(fires, window, s, a), b);
  }

  function TickAt(t: int): Tick {
    Tick(t, t, t, true, true)
  }

  /**
   * Denser schedules lose fires: with the default tick of five seconds and a fire every five seconds, every
   * fire `f` has a run that ticks half a second after it, with nothing on record, and never starts it. The
   * older fire in the same window hides it, and the run of that older fire then counts for it.
   */
  lemma OlderFireHides(f: int, window: int)
    requires EveryFiveSeconds(f) && window == Window(5)
    ensures RunTicks(EveryFiveSeconds, window, JobState([], []),
                     [TickAt(f + 500), TickAt(f + 5500), TickAt(f + 10500)]).starts == [f - 5000] + [f + 5000]
  {
    ThreeTicks(EveryFiveSeconds, window, JobState([], []), TickAt(f + 500), TickAt(f + 5500), TickAt(f + 10500));
    DenseDecides([], window, f + 500, f - 5000);
    var records := [] + [f + 500] + [f + 500];
    DenseDecides(records, window, f + 5500, f);
    ServedBy(records, 0, f);
    DenseDecides(records, window, f + 10500, f + 5000);
    ServedIff(records, f + 5000);
    assert TickStep(EveryFiveSeconds, window, JobState([], []), TickAt(f + 500)) == JobState(records, [f - 5000]);
  }

  // ----- the scheduler loop -----

  /**
   * One round of the loop: when its sleep was over, the tick, when its work was done and the next sleep was
   * computed, and the next one-shot task then on the table. The tick reads its clock after the one-shot pass.
   */
  datatype Round = Round(woke: int, tick: Tick, done: int, next: Option<int>)

  function Ticks(rounds: seq<Round>): (ticks: seq<Tick>)
    ensures |ticks| == |rounds| && forall i :: 0 <= i < |rounds| ==> ticks[i] == rounds[i].tick
  {
    seq(|rounds|, i requires 0 <= i < |rounds| => rounds[i].tick)
  }

  /** Waking late and the one-shot pass take at most `before`, the recurring jobs at most `after`. */
  predicate Timed(r: Round, before: int, after: int) {
    && r.woke <= r.tick.now <= r.tick.startedAt <= r.tick.endedAt <= r.done
    && r.tick.now - r.woke <= before && r.done - r.tick.now <= after
  }

  /** Rounds follow each other after the sleep that `Scheduler.NextSleep` gives. */
  predicate Paced(rounds: seq<Round>, before: int, after: int, tickSecs: nat) {
    && (forall i :: 0 <= i < |rounds| ==> Timed(rounds[i], before, after))
    && (forall i :: 0 <= i < |rounds| - 1 ==>
          rounds[i + 1].woke == rounds[i].done
            + Scheduler.NextSleep(rounds[i].next, rounds[i].done, Scheduler.MaxTick(tickSecs)))
  }

  lemma {:induction false} LaterRound(rounds: seq<Round>, before: int, after: int, tickSecs: nat, i: nat, j: nat)
    requires Paced(rounds, before, after, tickSecs) && i < j < |rounds|
    ensures rounds[i].done <= rounds[j].woke
  {
    Scheduler.WakesInTime(rounds[j - 1].next, rounds[j - 1].done, tickSecs);
    if i < j - 1 {
      LaterRound(rounds, before, after, tickSecs, i, j - 1);
      assert Timed(rounds[j - 1], before, after);
    }
  }

  lemma PacedIsMonotone(rounds: seq<Round>, before: int, after: int, tickSecs: nat)
    requires Paced(rounds, before, after, tickSecs)
    ensures Monotone(Ticks(rounds))
  {
    forall i | 0 <= i < |rounds| ensures Timed(rounds[i], before, after) {
    }
    forall i, j | 0 <= i < j < |rounds| ensures rounds[i].tick.endedAt <= rounds[j].tick.now {
      LaterRound(rounds, before, after, tickSecs, i, j);
      assert Timed(rounds[i], before, after) && Timed(rounds[j], before, after);
    }
  }

  /**
   * If one-shot work, the work on recurring jobs and the longest sleep fit in the window together, every fire
   * after the first tick is in the window of the first tick at or after it.
   */
  lemma EveryFireSeen(rounds: seq<Round>, before: int, after: int, tickSecs: nat, k: nat, f: int)
    requires Paced(rounds, before, after, tickSecs)
    requires before + after + Scheduler.MaxTick(tickSecs) <= Window(tickSecs)
    requires FirstAtOrAfter(Ticks(rounds), k, f) && rounds[0].tick.now < f
    ensures k > 0 && rounds[k].tick.now - Window(tickSecs) < f <= rounds[k].tick.now
  {
    Scheduler.WakesInTime(rounds[k - 1].next, rounds[k - 1].done, tickSecs);
    assert Timed(rounds[k - 1], before, after) && Timed(rounds[k], before, after);
    assert Ticks(rounds)[k - 1].now < f;
  }

  /** Such a scheduler loses a fire of a spaced schedule only to a failed tick or a run recorded too recently. */
  lemma NoFireMissed(fires: Schedule, s: JobState, rounds: seq<Round>, before: int, after: int, tickSecs: nat,
                     k: nat, f: int)
    requires Paced(rounds, before, after, tickSecs)
    requires before + after + Scheduler.MaxTick(tickSecs) <= Window(tickSecs)
    requires Spaced(fires, Window(tickSecs)) && fires(f) && StartedServed(s) && f !in s.starts
    requires FirstAtOrAfter(Ticks(rounds), k, f) && rounds[0].tick.now < f && rounds[k].tick.worked
    ensures Count(f, RunTicks(fires, Window(tickSecs), s, Ticks(rounds)).starts)
         == if Served(RunTicks(fires, Window(tickSecs), s, Ticks(rounds)[..k]).records, f) then 0 else 1
  {
    EveryFireSeen(rounds, before, after, tickSecs, k, f);
    PacedIsMonotone(rounds, before, after, tickSecs);
    SpacedOnceIff(fires, Window(tickSecs), s, Ticks(rounds), k, f);
  }

  lemma NeverInWindow(fires: Schedule, window: int, ticks: seq<Tick>, f: int)
    requires forall i :: 0 <= i < |ticks| ==> ticks[i].now < f || f <= ticks[i].now - window
    ensures f !in RunTicks(fires, window, JobState([], []), ticks).starts
  {
    StartedIff(fires, window, JobState([], []), ticks, f);
  }

  /** A fire between the windows of two ticks in a row never starts, whatever the schedule and the other ticks. */
  lemma BetweenWindowsIsLost(fires: Schedule, window: int, ticks: seq<Tick>, k: nat, f: int)
    requires Monotone(ticks) && 0 < k < |ticks| && ticks[k - 1].now < f <= ticks[k].now - window
    ensures f !in RunTicks(fires, window, JobState([], []), ticks).starts
  {
    forall i | 0 <= i < |ticks| ensures ticks[i].now < f || f <= ticks[i].now - window {
      if i < k - 1 { assert ticks[i].endedAt <= ticks[k - 1].now; }
      if i > k { assert ticks[k].endedAt <= ticks[i].now; }
    }
    NeverInWindow(fires, window, ticks, f);
  }

  /** Two rounds that use up their time, the first a millisecond before the fire, with nothing else to do. */
  lemma TwoRounds(before: nat, after: nat, tickSecs: nat, f: int) returns (rounds: seq<Round>)
    ensures Paced(rounds, before, after, tickSecs) && |rounds| == 2
    ensures rounds[0].tick.worked && rounds[0].tick.now == f - 1
    ensures rounds[1].tick.worked && rounds[1].tick.now == f - 1 + after + Scheduler.MaxTick(tickSecs) + before
  {
    var woke := f - 1 + after + Scheduler.MaxTick(tickSecs);
    rounds := [Round(f - 1, TickAt(f - 1), f - 1 + after, None),
               Round(woke, TickAt(woke + before), woke + before, None)];
  }

  /** In a run all of whose ticks work, a fire that nothing on record had served never starts. */
  ghost predicate Loses(fires: Schedule, rounds: seq<Round>, tickSecs: nat, k: nat, f: int) {
    && Spaced(fires, Window(tickSecs)) && fires(f) && (forall i :: 0 <= i < |rounds| ==> rounds[i].tick.worked)
    && FirstAtOrAfter(Ticks(rounds), k, f) && rounds[0].tick.now < f
    && f !in RunTicks(fires, Window(tickSecs), JobState([], []), Ticks(rounds)).starts
    && !Served(RunTicks(fires, Window(tickSecs), JobState([], []), Ticks(rounds)[..k]).records, f)
  }

  ghost predicate LosesNone(before: int, after: int, tickSecs: nat) {
    forall fires, rounds, k, f :: Paced(rounds, before, after, tickSecs) ==> !Loses(fires, rounds, tickSecs, k, f)
  }

  lemma RoundsCanLose(before: nat, after: nat, tickSecs: nat)
    requires before + after + Scheduler.MaxTick(tickSecs) > Window(tickSecs)
    ensures !LosesNone(before, after, tickSecs)
  {
    var f, window := 0, Window(tickSecs);
    var fires: Schedule := t => t == f;
    var rounds := TwoRounds(before, after, tickSecs, f);
    var ticks := Ticks(rounds);
    PacedIsMonotone(rounds, before, after, tickSecs);
    BetweenWindowsIsLost(fires, window, ticks, 1, f);
    FirstFindsNothing(fires, window, ticks[0], f);
    assert ticks[..1] == [ticks[0]];
    assert Loses(fires, rounds, tickSecs, 1, f);
  }

  lemma FirstFindsNothing(fires: Schedule, window: int, t: Tick, f: int)
    requires t.now < f && forall x :: x < f ==> !fires(x)
    ensures RunTicks(fires, window, JobState([], []), [t]).records == []
  {
    assert [t][..0] == [];
  }

  /**
   * No run loses a fire of a spaced schedule exactly when one-shot work, the work on recurring jobs and the
   * longest sleep fit in the window together.
   */
  lemma LosesNoneIff(before: nat, after: nat, tickSecs: nat)
    ensures LosesNone(before, after, tickSecs) <==> before + after + Scheduler.MaxTick(tickSecs) <= Window(tickSecs)
  {
    if before + after + Scheduler.MaxTick(tickSecs) > Window(tickSecs) {
      RoundsCanLose(before, after, tickSecs);
    } else {
      forall fires, rounds, k, f | Paced(rounds, before, after, tickSecs)
        ensures !Loses(fires, rounds, tickSecs, k, f)
      {
        if Loses(fires, rounds, tickSecs, k, f) {
          NoFireMissed(fires, JobState([], []), rounds, before, after, tickSecs, k, f);
          CountZero(f, RunTicks(fires, Window(tickSecs), JobState([], []), Ticks(rounds)).starts);
        }
      }
    }
  }

  /**
   * So a configured tick of five seconds or more leaves two seconds for the work of a tick, whatever it is;
   * a shorter one leaves less, and below three seconds even an idle scheduler loses fires.
   */
  lemma TimeForWork(before: nat, after: nat, tickSecs: nat)
    ensures LosesNone(before, after, tickSecs)
       <==> before + after <= if tickSecs >= 5 then 2000 else tickSecs * 1000 - 3000
  {
    LosesNoneIff(before, after, tickSecs);
  }

  /** Which of the three statements of a job's tick succeed. */
  datatype CronStore = CronStore(answers: bool, writesStart: bool, writesEnd: bool)

  /** The table of runs of one job and one scheduler's tick over it. */
  class CronRuns {
    var records: seq<int>
    ghost var starts: seq<int>

    constructor ()
      ensures records == [] && starts == []
    {
      records, starts := [], [];
    }

    /** `works` says whether the statement succeeds. */
    method RecordRun(createdAt: int, works: bool) returns (ok: bool)
      modifies this`records
      ensures ok == works && records == old(records) + if works then [createdAt] else []
    {
      ok := works;
      if ok {
        records := records + [createdAt];
      }
    }

    method LastRunAt(works: bool) returns (ok: bool, last: Option<int>)
      ensures ok == works && (works ==> last == Latest(records))
    {
      ok, last := works, None;
      if !ok {
        return;
      }
      for i := 0 to |records|
        invariant last == Latest(records[..i])
      {
        assert records[..i + 1][..i] == records[..i];
        if last.None? || last.value < records[i] {
          last := Some(records[i]);
        }
      }
      assert records[..|records|] == records;
    }

    /**
     * `run_due_cron` for one job; `next` is what the cron library lists after the window's start, `store` which
     * statements succeed. One that fails before the start is on record ends the tick, for later jobs too.
     */
    method RunDue(now: int, startedAt: int, endedAt: int, tickSecs: nat, next: seq<int>, store: CronStore,
                  ghost fires: Schedule)
      returns (worked: bool)
      requires Upcoming(fires, now - Window(tickSecs), next)
      modifies this
      ensures JobState(records, starts)
           == TickStep(fires, Window(tickSecs), JobState(old(records), old(starts)),
                       Tick(now, startedAt, endedAt, store.answers && store.writesStart, store.writesEnd))
      ensures worked <==>
        match FirstFire(fires, now - Window(tickSecs), now)
        case None => true
        case Some(f) => store.answers && (Served(old(records), f) || store.writesStart)
    {
      worked := true;
      var fire := FireInWindow(next, now - Window(tickSecs), now, fires);
      if fire.None? {
        return;
      }
      var last;
      worked, last := LastRunAt(store.answers);
      if !worked || (last.Some? && last.value >= fire.value - 1000) {
        return;
      }
      worked := RecordRun(startedAt, store.writesStart);
      if !worked {
        return;
      }
      starts := starts + [fire.value];
      var _ := RecordRun(endedAt, store.writesEnd);
    }
  }

  // ----- any number of schedulers -----

  type Worker = nat

  /** A scheduler has either nothing in hand or a fire it decided to start, at position `at` of the log. */
  datatype Hand = Idle | Decided(fire: int, now: int, at: nat)

  datatype Event = Checked(who: Worker, fire: int) | Started(who: Worker, fire: int) | Looked(who: Worker)

  datatype World = World(records: seq<int>, hands: map<Worker, Hand>, log: seq<Event>)

  datatype Step =
    | Check(w: Worker, now: int)
    | Start(w: Worker, createdAt: int)
    | Fail(w: Worker)         // the start could not be recorded, or the scheduler died
    | Finish(createdAt: int)

  const EMPTY := World([], map[], [])

  function HandOf(g: World, w: Worker): Hand {
    if w in g.hands then g.hands[w] else Idle
  }

  predicate CanStep(g: World, s: Step) {
    match s
    case Check(w, _) => HandOf(g, w).Idle?
    case Start(w, createdAt) => HandOf(g, w).Decided? && HandOf(g, w).now <= createdAt
    case Fail(w) => HandOf(g, w).Decided?
    case Finish(_) => true
  }

  /** The check and the first record are separate statements: others can come in between. */
  function DoStep(fires: Schedule, window: int, g: World, s: Step): World
    requires CanStep(g, s)
  {
    match s
    case Check(w, now) =>
      (match Decide(fires, window, g.records, now)
       case None => g.(log := g.log + [Looked(w)])
       case Some(f) => g.(hands := g.hands[w := Decided(f, now, |g.log|)], log := g.log + [Checked(w, f)]))
    case Start(w, createdAt) =>
      World(g.records + [createdAt], g.hands[w := Idle], g.log + [Started(w, HandOf(g, w).fire)])
    case Fail(w) => g.(hands := g.hands[w := Idle], log := g.log + [Looked(w)])
    case Finish(createdAt) => g.(records := g.records + [createdAt])
  }

  predicate ValidRun(fires: Schedule, window: int, g: World, steps: seq<Step>)
    decreases |steps|
  {
    steps == [] || (CanStep(g, steps[0]) && ValidRun(fires, window, DoStep(fires, window, g, steps[0]), steps[1..]))
  }

  function Run(fires: Schedule, window: int, g: World, steps: seq<Step>): World
    requires ValidRun(fires, window, g, steps)
    decreases |steps|
  {
    if steps == [] then g else Run(fires, window, DoStep(fires, window, g, steps[0]), steps[1..])
  }

  predicate StartOf(e: Event, f: int) {
    e.Started? && e.fire == f
  }

  /** A decision in hand: its check is in the log, the scheduler did nothing since, nobody had started the fire. */
  ghost predicate HandInv(g: World) {
    forall w :: HandOf(g, w).Decided? ==>
      var h := HandOf(g, w);
      && h.at < |g.log| && g.log[h.at] == Checked(w, h.fire) && h.fire <= h.now
      && (forall i :: h.at < i < |g.log| ==> g.log[i].who != w)
      && (forall i :: 0 <= i < h.at ==> !StartOf(g.log[i], h.fire))
  }

  /** Every start is on record. */
  predicate RecordInv(g: World) {
    forall i :: 0 <= i < |g.log| && g.log[i].Started? ==> Served(g.records, g.log[i].fire)
  }

  /** Of two starts of a fire, the later was decided before the earlier happened, with no other step of its own. */
  predicate Overlap(log: seq<Event>, i: nat, j: nat)
    requires i < j < |log| && log[j].Started?
  {
    exists c :: 0 <= c < i && log[c] == Checked(log[j].who, log[j].fire)
      && forall m :: c < m < j ==> log[m].who != log[j].who
  }

  predicate RepeatInv(g: World) {
    forall i, j :: 0 <= i < j < |g.log| && g.log[i].Started? && g.log[j].Started? && g.log[i].fire == g.log[j].fire ==>
      Overlap(g.log, i, j)
  }

  ghost predicate Inv(g: World) {
    HandInv(g) && RecordInv(g) && RepeatInv(g)
  }

  lemma HandKept(fires: Schedule, window: int, g: World, s: Step)
    requires Inv(g) && CanStep(g, s)
    ensures HandInv(DoStep(fires, window, g, s))
  {
    var h := DoStep(fires, window, g, s);
    forall w | HandOf(h, w).Decided?
      ensures HandOf(h, w).at < |h.log| && h.log[HandOf(h, w).at] == Checked(w, HandOf(h, w).fire)
      ensures HandOf(h, w).fire <= HandOf(h, w).now
      ensures forall i :: HandOf(h, w).at < i < |h.log| ==> h.log[i].who != w
      ensures forall i :: 0 <= i < HandOf(h, w).at ==> !StartOf(h.log[i], HandOf(h, w).fire)
    {
      if s.Check? && s.w == w {
        var f := HandOf(h, w).fire;
        assert Decide(fires, window, g.records, s.now) == Some(f);
        forall i | 0 <= i < |g.log| ensures !StartOf(h.log[i], f) {
          assert h.log[i] == g.log[i];
        }
      } else {
        assert HandOf(h, w) == HandOf(g, w);
      }
    }
  }

  lemma OverlapGrows(log: seq<Event>, longer: seq<Event>, i: nat, j: nat)
    requires log <= longer && i < j < |log| && log[j].Started? && Overlap(log, i, j)
    ensures Overlap(longer, i, j)
  {
    var c :| 0 <= c < i && log[c] == Checked(log[j].who, log[j].fire)
      && forall m :: c < m < j ==> log[m].who != log[j].who;
    assert longer[c] == log[c];
  }

  lemma RepeatKept(fires: Schedule, window: int, g: World, s: Step)
    requires Inv(g) && CanStep(g, s)
    ensures RepeatInv(DoStep(fires, window, g, s))
  {
    var h := DoStep(fires, window, g, s);
    forall i, j | 0 <= i < j < |h.log| && h.log[i].Started? && h.log[j].Started? && h.log[i].fire == h.log[j].fire
      ensures Overlap(h.log, i, j)
    {
      if j < |g.log| {
        assert g.log[i] == h.log[i] && g.log[j] == h.log[j];
        OverlapGrows(g.log, h.log, i, j);
      } else {
        var c := HandOf(g, s.w).at;
        assert StartOf(g.log[i], HandOf(g, s.w).fire);
        assert h.log[c] == g.log[c] && forall m :: c < m < j ==> h.log[m] == g.log[m];
      }
    }
  }

  lemma RecordsKept(fires: Schedule, window: int, g: World, s: Step)
    requires RecordInv(g) && CanStep(g, s) && HandInv(g)
    ensures RecordInv(DoStep(fires, window, g, s))
  {
    var h := DoStep(fires, window, g, s);
    forall i | 0 <= i < |h.log| && h.log[i].Started? ensures Served(h.records, h.log[i].fire) {
      if i < |g.log| {
        ServedGrows(g.records, h.records[|g.records|..], g.log[i].fire);
        assert h.records == g.records + h.records[|g.records|..];
      } else {
        ServedBy(h.records, |g.records|, h.log[i].fire);
      }
    }
  }

  lemma InvKept(fires: Schedule, window: int, g: World, s: Step)
    requires Inv(g) && CanStep(g, s)
    ensures Inv(DoStep(fires, window, g, s))
  {
    HandKept(fires, window, g, s);
    RecordsKept(fires, window, g, s);
    RepeatKept(fires, window, g, s);
  }

  lemma {:induction false} RunKeepsInv(fires: Schedule, window: int, g: World, steps: seq<Step>)
    requires Inv(g) && ValidRun(fires, window, g, steps)
    ensures Inv(Run(fires, window, g, steps))
    decreases |steps|
  {
    if steps != [] {
      InvKept(fires, window, g, steps[0]);
      RunKeepsInv(fires, window, DoStep(fires, window, g, steps[0]), steps[1..]);
    }
  }

  /** A fire starts again only in a scheduler that had made up its mind before the first start. */
  lemma RepeatsOverlap(fires: Schedule, window: int, steps: seq<Step>, i: nat, j: nat)
    requires ValidRun(fires, window, EMPTY, steps)
    requires i < j < |Run(fires, window, EMPTY, steps).log|
    requires Run(fires, window, EMPTY, steps).log[i].Started?
    requires StartOf(Run(fires, window, EMPTY, steps).log[j], Run(fires, window, EMPTY, steps).log[i].fire)
    ensures Overlap(Run(fires, window, EMPTY, steps).log, i, j)
    ensures Run(fires, window, EMPTY, steps).log[i].who != Run(fires, window, EMPTY, steps).log[j].who
  {
    RunKeepsInv(fires, window, EMPTY, steps);
  }

  /** Nothing prevents that: two schedulers that check before either records both start the fire. */
  lemma TwoSchedulersCanRepeat(fires: Schedule, window: int, f: int, v: Worker, w: Worker)
    requires Spaced(fires, window) && fires(f) && window > 0 && v != w
    ensures var steps := [Check(v, f), Check(w, f), Start(v, f), Start(w, f)];
      && ValidRun(fires, window, EMPTY, steps)
      && Run(fires, window, EMPTY, steps).log == [Checked(v, f), Checked(w, f), Started(v, f), Started(w, f)]
  {
    var steps := [Check(v, f), Check(w, f), Start(v, f), Start(w, f)];
    var g1 := DoStep(fires, window, EMPTY, steps[0]);
    var g2 := DoStep(fires, window, g1, steps[1]);
    var g3 := DoStep(fires, window, g2, steps[2]);
    var g4 := DoStep(fires, window, g3, steps[3]);
    var s1, s2, s3 := [Check(w, f), Start(v, f), Start(w, f)], [Start(v, f), Start(w, f)], [Start(w, f)];
    assert steps[1..] == s1 && s1[1..] == s2 && s2[1..] == s3 && s3[1..] == [];
    assert ValidRun(fires, window, g4, []) && Run(fires, window, g4, []) == g4;
    assert ValidRun(fires, window, g3, s3) && Run(fires, window, g3, s3) == g4;
    assert ValidRun(fires, window, g2, s2) && Run(fires, window, g2, s2) == g4;
    assert ValidRun(fires, window, g1, s1) && Run(fires, window, g1, s1) == g4;
  }

  // ----- when exactly a fire can start twice -----

  predicate Holds(g: World, w: Worker, f: int) {
    HandOf(g, w).Decided? && HandOf(g, w).fire == f
  }

  predicate TwoHands(g: World, f: int) {
    exists v :: v in g.hands && Holds(g, v, f) && exists w :: w in g.hands && w != v && Holds(g, w, f)
  }

  function StartCount(log: seq<Event>, f: int): nat {
    if log == [] then 0 else StartCount(log[..|log| - 1], f) + if StartOf(log[|log| - 1], f) then 1 else 0
  }

  lemma StartCountStep(log: seq<Event>, e: Event, f: int)
    ensures StartCount(log + [e], f) == StartCount(log, f) + if StartOf(e, f) then 1 else 0
  {
    assert (log + [e])[..|log|] == log;
  }

  lemma {:induction false} StartedServes(g: World, f: int, log: seq<Event>)
    requires RecordInv(g) && log <= g.log && StartCount(log, f) > 0
    ensures Served(g.records, f)
  {
    if StartOf(log[|log| - 1], f) {
      assert g.log[|log| - 1] == log[|log| - 1];
    } else {
      StartedServes(g, f, log[..|log| - 1]);
    }
  }

  /** The fire has started at most once; once it has, nobody still means to start it. */
  ghost predicate Settled(g: World, f: int) {
    StartCount(g.log, f) <= 1 && (StartCount(g.log, f) == 1 ==> forall w :: !Holds(g, w, f))
  }

  lemma CheckSettled(fires: Schedule, window: int, g: World, w: Worker, now: int, f: int)
    requires RecordInv(g) && HandOf(g, w).Idle? && Settled(g, f)
    ensures Settled(DoStep(fires, window, g, Check(w, now)), f)
  {
    var h := DoStep(fires, window, g, Check(w, now));
    StartCountStep(g.log, Looked(w), f);
    if Decide(fires, window, g.records, now).Some? {
      StartCountStep(g.log, Checked(w, Decide(fires, window, g.records, now).value), f);
    }
    if StartCount(g.log, f) == 1 {
      StartedServes(g, f, g.log);
      forall v ensures !Holds(h, v, f) {
        CheckHolds(fires, window, g, w, now, f, v);
      }
    }
  }

  /** A check puts a fire in a hand only if it is not served. */
  lemma CheckHolds(fires: Schedule, window: int, g: World, w: Worker, now: int, f: int, v: Worker)
    requires HandOf(g, w).Idle? && Served(g.records, f)
    ensures Holds(DoStep(fires, window, g, Check(w, now)), v, f) ==> Holds(g, v, f)
  {
  }

  lemma StartSettled(fires: Schedule, window: int, g: World, w: Worker, at: int, f: int)
    requires CanStep(g, Start(w, at)) && Settled(g, f) && !TwoHands(g, f)
    ensures Settled(DoStep(fires, window, g, Start(w, at)), f)
  {
    var h := DoStep(fires, window, g, Start(w, at));
    StartCountStep(g.log, Started(w, HandOf(g, w).fire), f);
    assert forall v :: Holds(h, v, f) ==> v != w && Holds(g, v, f);
    if Holds(g, w, f) {
      assert StartCount(g.log, f) == 0;
      assert forall v :: v != w ==> !Holds(g, v, f);
    }
  }

  lemma FailSettled(fires: Schedule, window: int, g: World, w: Worker, f: int)
    requires CanStep(g, Fail(w)) && Settled(g, f)
    ensures Settled(DoStep(fires, window, g, Fail(w)), f)
  {
    StartCountStep(g.log, Looked(w), f);
    forall v ensures Holds(DoStep(fires, window, g, Fail(w)), v, f) ==> Holds(g, v, f) {
    }
  }

  lemma SettledKept(fires: Schedule, window: int, g: World, s: Step, f: int)
    requires RecordInv(g) && CanStep(g, s) && Settled(g, f) && !TwoHands(g, f)
    ensures Settled(DoStep(fires, window, g, s), f)
  {
    match s
    case Check(w, now) => CheckSettled(fires, window, g, w, now, f);
    case Start(w, at) => StartSettled(fires, window, g, w, at, f);
    case Fail(w) => FailSettled(fires, window, g, w, f);
    case Finish(_) => assert forall v :: Holds(DoStep(fires, window, g, s), v, f) <==> Holds(g, v, f);
  }

  predicate NeverTwoHands(fires: Schedule, window: int, g: World, steps: seq<Step>, f: int)
    requires ValidRun(fires, window, g, steps)
    decreases |steps|
  {
    !TwoHands(g, f) &&
    (steps == [] || NeverTwoHands(fires, window, DoStep(fires, window, g, steps[0]), steps[1..], f))
  }

  lemma {:induction false} SettledRun(fires: Schedule, window: int, g: World, steps: seq<Step>, f: int)
    requires ValidRun(fires, window, g, steps) && Inv(g) && Settled(g, f)
    requires NeverTwoHands(fires, window, g, steps, f)
    ensures Settled(Run(fires, window, g, steps), f)
    decreases |steps|
  {
    if steps != [] {
      SettledKept(fires, window, g, steps[0], f);
      InvKept(fires, window, g, steps[0]);
      SettledRun(fires, window, DoStep(fires, window, g, steps[0]), steps[1..], f);
    }
  }

  /** A fire that two schedulers never hold at once starts at most once, whatever the schedule and the clocks. */
  lemma OneHandOneStart(fires: Schedule, window: int, steps: seq<Step>, f: int)
    requires ValidRun(fires, window, EMPTY, steps) && NeverTwoHands(fires, window, EMPTY, steps, f)
    ensures StartCount(Run(fires, window, EMPTY, steps).log, f) <= 1
  {
    SettledRun(fires, window, EMPTY, steps, f);
  }

  /** And from every state in which two hold it, both can go on and start it. */
  lemma TwoHandsStartTwice(fires: Schedule, window: int, g: World, f: int, v: Worker, w: Worker, a: int, b: int)
    requires v != w && Holds(g, v, f) && Holds(g, w, f) && HandOf(g, v).now <= a && HandOf(g, w).now <= b
    ensures ValidRun(fires, window, g, [Start(v, a), Start(w, b)])
    ensures StartCount(Run(fires, window, g, [Start(v, a), Start(w, b)]).log, f) == StartCount(g.log, f) + 2
  {
    var last := [Start(w, b)];
    var g1 := DoStep(fires, window, g, Start(v, a));
    assert HandOf(g1, w) == HandOf(g, w);
    var g2 := DoStep(fires, window, g1, Start(w, b));
    assert [Start(v, a), Start(w, b)][1..] == last && last[1..] == [];
    assert ValidRun(fires, window, g2, []) && Run(fires, window, g2, []) == g2;
    assert ValidRun(fires, window, g1, last) && Run(fires, window, g1, last) == g2;
    StartCountStep(g.log, Started(v, f), f);
    StartCountStep(g1.log, Started(w, f), f);
  }
}
