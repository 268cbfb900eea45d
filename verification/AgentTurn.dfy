/**
  One turn from the moment it holds its guard to its last row: the user's message is recorded, the
  tool loop runs, the reply is recorded, while other turns and writers go on around it.
*/
module AgentTurn {
  import opened Options
  import opened GateModel
  import opened GateInvariant
  import opened GateTheorems
  import opened Dispatcher
  import Compaction
  import Sanitize
  import Text
  import ToolLoop

  // ----- what happens around a turn -----

  /** A step that is not the turn's own. */
  predicate NotBy(st: Step, id: EntryId) {
    match st
    case Dispatch(_, _) => true
    case GateStep(a) => a.Arrive? || a.Interrupt? || a.id != id
    case WriteUser(x) => x != id
    case WriteAssistant(x) => x != id
    case WriteOther(_) => true
  }

  predicate NoneBy(steps: seq<Step>, id: EntryId) {
    forall i :: 0 <= i < |steps| ==> NotBy(steps[i], id)
  }

  /** The turn stands where it stood, and if it was cancelled it still is. */
  ghost predicate Undisturbed(w: World, later: World, id: EntryId, rows: nat) {
    CanWrite(later, id, rows) && id < later.gate.nextId && w.gate.cancelled <= later.gate.cancelled
  }

  lemma StepDisturbsNot(w: World, st: Step, id: EntryId, rows: nat)
    requires CanWrite(w, id, rows) && id < w.gate.nextId && Can(w, st) && NotBy(st, id)
    ensures Undisturbed(w, Take(w, st), id, rows)
  {
    if st.GateStep? {
      match st.action {
        case Register(_) =>
        case Unregister(_) =>
        case _ =>
      }
    }
  }

  lemma {:induction false} StepsDisturbNot(w: World, steps: seq<Step>, id: EntryId, rows: nat)
    requires CanWrite(w, id, rows) && id < w.gate.nextId && ValidSteps(w, steps) && NoneBy(steps, id)
    ensures Undisturbed(w, Outcome(w, steps), id, rows)
    decreases steps
  {
    if steps != [] {
      StepDisturbsNot(w, steps[0], id, rows);
      StepsDisturbNot(Take(w, steps[0]), steps[1..], id, rows);
    }
  }

  /** One world grows into another by steps of the dispatcher. */
  ghost predicate Leads(w: World, later: World) {
    exists steps :: ValidSteps(w, steps) && later == Outcome(w, steps)
  }

  lemma LeadsNowhere(w: World)
    ensures Leads(w, w)
  {
    assert ValidSteps(w, []) && Outcome(w, []) == w;
  }

  lemma LeadsOn(w: World, mid: World, steps: seq<Step>)
    requires Leads(w, mid) && ValidSteps(mid, steps)
    ensures Leads(w, Outcome(mid, steps))
  {
    var first :| ValidSteps(w, first) && mid == Outcome(w, first);
    StepsThenSteps(w, first, steps);
  }

  lemma LeadsOneOn(w: World, mid: World, st: Step)
    requires Leads(w, mid) && Can(mid, st)
    ensures Leads(w, Take(mid, st))
  {
    assert [st][1..] == [] && Outcome(Take(mid, st), []) == Take(mid, st);
    LeadsOn(w, mid, [st]);
  }

  lemma ReachOne(g: Gate, maxParallel: nat, a: Action)
    requires Reachable(g, maxParallel) && Enabled(g, a)
    ensures Reachable(Apply(g, a), maxParallel)
  {
    var acts :| ValidRun(NewGate(maxParallel), acts) && After(NewGate(maxParallel), acts) == g;
    assert [a][1..] == [] && After(Apply(g, a), []) == Apply(g, a);
    RunThenRun(NewGate(maxParallel), acts, [a]);
  }

  lemma {:induction false} StepsReach(w: World, steps: seq<Step>, maxParallel: nat)
    requires Reachable(w.gate, maxParallel) && ValidSteps(w, steps)
    ensures Reachable(Outcome(w, steps).gate, maxParallel)
    decreases steps
  {
    if steps != [] {
      match steps[0] {
        case Dispatch(s, preempt) => ReachOne(w.gate, maxParallel, Arrive(SessionScope(s), preempt));
        case GateStep(a) => ReachOne(w.gate, maxParallel, a);
        case _ =>
      }
      StepsReach(Take(w, steps[0]), steps[1..], maxParallel);
    }
  }

  lemma FromNew(maxParallel: nat, w: World)
    requires Leads(NewWorld(maxParallel), w)
    ensures Reachable(w.gate, maxParallel) && forall id :: id in w.written ==> id < w.gate.nextId
  {
    var steps :| ValidSteps(NewWorld(maxParallel), steps) && w == Outcome(NewWorld(maxParallel), steps);
    assert ValidRun(NewGate(maxParallel), []) && After(NewGate(maxParallel), []) == NewGate(maxParallel);
    StepsReach(NewWorld(maxParallel), steps, maxParallel);
    NewGateInv(maxParallel);
    StepsKeepWorld(NewWorld(maxParallel), steps, "");
  }

  // ----- a superseded turn -----

  /** After the entry registered, a newer user message registered in its scope. */
  predicate Superseded(g: Gate, id: EntryId) {
    && id in g.entries && g.entries[id].preempt && g.entries[id].exposedAt.Some?
    && exists j :: g.entries[id].exposedAt.value < j < |g.log|
         && g.log[j].EvRegistered? && g.log[j].preempt && g.log[j].scope == g.entries[id].scope
  }

  lemma SupersededIsCancelled(g: Gate, maxParallel: nat, id: EntryId)
    requires Reachable(g, maxParallel) && Superseded(g, id) && InPhase(g, id, Running)
    ensures id in g.cancelled
  {
    ReachableInv(g, maxParallel);
    var at, s := g.entries[id].exposedAt.value, g.entries[id].scope;
    var j :| at < j < |g.log| && g.log[j].EvRegistered? && g.log[j].preempt && g.log[j].scope == s;
    assert Cancels(g.log[j], s);
    assert CancelledSince(g.log, at, s);
  }

  // ----- the turn -----

  /** Since `w` only dispatcher steps were taken; the turn holds its guard and has written so many rows. */
  ghost predicate Since(w: World, later: World, id: EntryId, rows: nat) {
    Leads(w, later) && Undisturbed(w, later, id, rows)
  }

  /** The row of the user's message. */
  function UserRow(id: int, content: string): Compaction.Write {
    Compaction.Append(Compaction.StoredMessage(id, "user", content, None))
  }

  /** The log the model is shown: the session's, with the user's message behind it. */
  function WithMessage(log: Compaction.History, id: int, content: string): Compaction.History {
    Compaction.History(log.rows + [Compaction.StoredMessage(id, "user", content, None)], log.provenance, log.inFlight)
  }

  lemma MessageWritten(m: Compaction.Marks, log: Compaction.History, id: int, content: string)
    requires Compaction.NextId(log, id) && Compaction.Extends(m, Compaction.EmptyHistory, log)
    ensures Compaction.Extends(m, Compaction.EmptyHistory, WithMessage(log, id, content))
  {
    assert "user"[0] != Compaction.COMPACTION[0];
    Compaction.ExtendsOne(m, Compaction.EmptyHistory, log, UserRow(id, content));
  }

  // ----- what the caller is told, and what is stored of it -----

  const INTERRUPTED_MARKER := "\n\n*[\U{043F}\U{0440}\U{0435}\U{0440}\U{0432}\U{0430}\U{043D}\U{043E}]*"
  const INTERRUPTED_TEXT :=
    "\U{26A1} \U{0417}\U{0430}\U{043F}\U{0440}\U{043E}\U{0441} "
    + "\U{043F}\U{0440}\U{0435}\U{0440}\U{0432}\U{0430}\U{043D}."

  function InterruptedReply(partial: string): string {
    if Text.Blank(partial) then INTERRUPTED_TEXT else Text.Trim(partial) + INTERRUPTED_MARKER
  }

  /** An interrupted reply is never blank. It keeps what the model had said, marked as cut short, and is the plain
      notice exactly when that was blank. */
  lemma InterruptedSays(partial: string)
    ensures var r := InterruptedReply(partial);
      && !Text.Blank(r) && (r == INTERRUPTED_TEXT <==> Text.Blank(partial))
      && (!Text.Blank(partial) ==> Text.Trim(partial) < r && r[|Text.Trim(partial)|..] == INTERRUPTED_MARKER)
  {
    var r, marker, notice := InterruptedReply(partial), INTERRUPTED_MARKER, INTERRUPTED_TEXT;
    assert marker[|marker| - 1] == '*' && notice[|notice| - 1] == '.' && notice[0] == '\U{26A1}';
    Text.BlankIff(r);
    assert r[|r| - 1] == if Text.Blank(partial) then '.' else '*';
  }

  datatype Response = Response(text: string, persisted: string, interrupted: bool)

  /** The store's part in a turn: whether its three statements succeed. */
  datatype Store = Store(userRow: bool, loads: bool, replyRow: bool)

  /** How the turn ended, as the loop it ran says, and what the model was shown. */
  ghost predicate Told(s: ToolLoop.Settings, limits: ToolLoop.Limits, log: Compaction.History,
                       system: Compaction.Message, outcome: ToolLoop.Outcome, turn: ToolLoop.ToolLoop,
                       replies: seq<Compaction.Message>, before: Option<ToolLoop.Outcome>)
    reads turn
  {
    && turn.settings == s && ToolLoop.TurnEnds(before) && ToolLoop.TurnEnds(turn.trouble)
    && outcome == (if before.Some? then before.value
                   else if turn.trouble.Some? then turn.trouble.value
                   else ToolLoop.Complete(ToolLoop.TextOf(turn.turns) == ""))
    && ToolLoop.Accounted(turn, limits, replies, outcome)
    && (forall c :: c in turn.asked ==>
          c.sent == c.base + c.own && ToolLoop.ShowsSession(s.marks, log, system, c.base))
    && |turn.asked| <= limits.iterations + limits.emptyRetries
    && (outcome.Complete? && limits.iterations > 0 ==> turn.asked != [])
  }

  /** `AgentLoop`, with the state it shares with every other turn. */
  class AgentLoop {
    var world: World
    const settings: ToolLoop.Settings
    const limits: ToolLoop.Limits

    constructor (w: World, s: ToolLoop.Settings, bounds: ToolLoop.Limits)
      ensures world == w && settings == s && limits == bounds
    {
      world, settings, limits := w, s, bounds;
    }

    /** Other turns, interrupts and writers, at any point where this turn waits. */
    method Meanwhile(id: EntryId, ghost from: World, ghost rows: nat)
      requires Since(from, world, id, rows)
      modifies this
      ensures Since(from, world, id, rows)
    {
      var steps: seq<Step> := *;
      if ValidSteps(world, steps) && NoneBy(steps, id) {
        StepsDisturbNot(world, steps, id, rows);
        LeadsOn(from, world, steps);
        world := Outcome(world, steps);
      }
    }

    /** The turn appends its next row, if the store lets it. */
    method AppendMessage(st: Step, id: EntryId, works: bool, ghost from: World, ghost rows: nat) returns (ok: bool)
      requires Since(from, world, id, rows)
      requires st == (if rows == 0 then WriteUser(id) else WriteAssistant(id)) && rows < 2
      modifies this
      ensures ok == works && Since(from, world, id, if works then rows + 1 else rows)
    {
      Meanwhile(id, from, rows);
      ok := works;
      if ok {
        LeadsOneOn(from, world, st);
        world := Take(world, st);
      }
    }

    /** The tool loop, with the token the gate gave the turn. */
    method Answer(id: EntryId, log: Compaction.History, system: Compaction.Message)
      returns (outcome: ToolLoop.Outcome, turn: ToolLoop.ToolLoop,
               ghost replies: seq<Compaction.Message>, ghost before: Option<ToolLoop.Outcome>)
      requires Compaction.RealMarks(settings.marks) && system.toolCalls == None
      requires Compaction.Extends(settings.marks, Compaction.EmptyHistory, log)
      ensures fresh(turn) && Told(settings, limits, log, system, outcome, turn, replies, before)
      ensures id in world.gate.cancelled ==> outcome.Interrupted? && turn.asked == []
    {
      ghost var met;
      outcome, turn, replies, before, met :=
        ToolLoop.RunAgentTurn(settings, log, system, id in world.gate.cancelled, limits);
    }

    /** The reply a caller gets, and the form of it that is stored with what the tools came to. */
    method Respond(finalText: string, entries: seq<Sanitize.ToolPersistEntry>, interrupted: bool)
      returns (r: Response)
      ensures r.interrupted == interrupted
      ensures r.persisted
           == Sanitize.PersistedAssistant(if interrupted then InterruptedReply(finalText) else finalText, entries)
      ensures r.text == Sanitize.SanitizeUserReply(r.persisted)
    {
      var text := finalText;
      if interrupted {
        text := InterruptedReply(finalText);
      }
      var persisted := Sanitize.BuildPersistedAssistant(text, entries);
      var shown := Sanitize.Sanitized(text);
      Sanitize.PersistedSanitizesAlike(text, entries);
      return Response(shown, persisted, interrupted);
    }

    /** What was said and stored is what the loop came to. */
    ghost predicate Says(r: Response, outcome: ToolLoop.Outcome, turn: ToolLoop.ToolLoop)
      reads turn
    {
      && r.interrupted == outcome.Interrupted?
      && r.persisted == Sanitize.PersistedAssistant(
           if outcome.Interrupted? then InterruptedReply(turn.finalText) else turn.finalText, turn.toolPersist)
      && r.text == Sanitize.SanitizeUserReply(r.persisted)
    }

    /** The turn once its user row is written. */
    method RunAndReply(id: EntryId, log: Compaction.History, system: Compaction.Message, works: bool, ghost from: World)
      returns (rows: nat, response: Option<Response>,
               ghost outcome: ToolLoop.Outcome, ghost turn: ToolLoop.ToolLoop,
               ghost replies: seq<Compaction.Message>, ghost before: Option<ToolLoop.Outcome>)
      requires Since(from, world, id, 1) && Compaction.RealMarks(settings.marks) && system.toolCalls == None
      requires Compaction.Extends(settings.marks, Compaction.EmptyHistory, log)
      modifies this
      ensures Since(from, world, id, rows) && rows == if outcome.Failed? || !works then 1 else 2
      ensures fresh(turn) && Told(settings, limits, log, system, outcome, turn, replies, before)
      ensures id in old(world).gate.cancelled ==> outcome.Interrupted? && turn.asked == []
      ensures (response.Some? <==> rows == 2) && (response.Some? ==> Says(response.value, outcome, turn))
    {
      rows, response := 1, None;
      var end, loop;
      end, loop, replies, before := Answer(id, log, system);
      outcome, turn := end, loop;
      if end.Failed? {
        return;
      }
      var said := Respond(loop.finalText, loop.toolPersist, end.Interrupted?);
      var ok := AppendMessage(WriteAssistant(id), id, works, from, 1);
      if ok {
        rows, response := 2, Some(said);
      }
    }

    /**
     * `handle_with_progress`, for a turn that holds its guard. Whatever goes on meanwhile, it takes only steps
     * of the dispatcher; it writes its user row, runs, and writes its reply row, stopping at the first
     * statement that fails and at a turn that failed. What it says and stores is what the loop came to. A turn
     * superseded while it was queued calls no model; its message is still recorded and its answer is that it
     * was interrupted.
     */
    method HandleTurn(id: EntryId, log: Compaction.History, rowId: int, content: string,
                      system: Compaction.Message, store: Store, ghost maxParallel: nat)
      returns (rows: nat, response: Option<Response>,
               ghost outcome: Option<ToolLoop.Outcome>, ghost turn: ToolLoop.ToolLoop?,
               ghost replies: seq<Compaction.Message>, ghost before: Option<ToolLoop.Outcome>)
      requires Leads(NewWorld(maxParallel), world) && CanWrite(world, id, 0)
      requires Compaction.RealMarks(settings.marks) && system.toolCalls == None
      requires Compaction.Extends(settings.marks, Compaction.EmptyHistory, log)
      requires Compaction.NextId(log, rowId)
      modifies this
      ensures Since(old(world), world, id, rows)
      ensures rows == if !store.userRow then 0
                      else if !store.loads || outcome == Some(ToolLoop.Failed) || !store.replyRow then 1
                      else 2
      // the loop ran, on the session with the user's message in it
      ensures outcome.Some? <==> store.userRow && store.loads
      ensures outcome.Some? ==> turn != null && fresh(turn)
      ensures outcome.Some? ==>
        Told(settings, limits, WithMessage(log, rowId, content), system, outcome.value, turn, replies, before)
      ensures Superseded(old(world).gate, id) && outcome.Some? ==> outcome == Some(ToolLoop.Interrupted)
      ensures Superseded(old(world).gate, id) && outcome.Some? ==> turn.asked == []
      // the answer is given, and stored, together
      ensures (response.Some? <==> rows == 2) && (response.Some? ==> Says(response.value, outcome.value, turn))
    {
      ghost var from := world;
      LeadsNowhere(from);
      FromNew(maxParallel, from);
      rows, response, outcome, turn, replies, before := 0, None, None, null, [], None;
      var ok := AppendMessage(WriteUser(id), id, store.userRow, from, 0);
      if !ok {
        return;
      }
      rows := 1;
      Meanwhile(id, from, 1);
      if !store.loads {
        return;
      }
      if Superseded(from.gate, id) {
        SupersededIsCancelled(from.gate, maxParallel, id);
      }
      MessageWritten(settings.marks, log, rowId, content);
      ghost var end;
      rows, response, end, turn, replies, before :=
        RunAndReply(id, WithMessage(log, rowId, content), system, store.replyRow, from);
      outcome := Some(end);
    }
  }
}
