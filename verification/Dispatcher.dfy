/**
  The dispatcher on top of the scope gate: turns of one session, run concurrently, write their
  session history as if they had run one after another.
*/
module Dispatcher {
  import opened Options
  import opened GateModel
  import opened GateInvariant
  import opened GatePreservation
  import opened GateFifo

  type SessionId = string

  datatype Role = User | Assistant

  /** One row of the `messages` table; `turn` is the dispatcher turn that wrote it, if one did. */
  datatype Row = Row(session: SessionId, turn: Option<EntryId>, role: Role)

  datatype World = World(
    gate: Gate,
    sessionOf: map<EntryId, SessionId>,  // the session each call resolved to
    written: map<EntryId, nat>,          // how many of its two rows each call has appended
    messages: seq<Row>)

  function NewWorld(maxParallel: nat): World {
    World(NewGate(maxParallel), map[], map[], [])
  }

  function SessionScope(s: SessionId): Scope {
    "session:" + s
  }

  /** Different sessions get different scope keys. */
  lemma SessionScopeInjective(a: SessionId, b: SessionId)
    ensures SessionScope(a) == SessionScope(b) ==> a == b
  {
    assert SessionScope(a)[8..] == a && SessionScope(b)[8..] == b;
  }

  datatype Step =
    | Dispatch(session: SessionId, preempt: bool)  // session resolved, `enter` called
    | GateStep(action: Action)                     // any other step inside the gate
    | WriteUser(id: EntryId)                       // the turn records the user message
    | WriteAssistant(id: EntryId)                  // the turn records its reply
    | WriteOther(row: Row)                         // spawn delivery, subagents, compaction

  predicate CanWrite(w: World, id: EntryId, rows: nat) {
    InPhase(w.gate, id, Running) && id in w.sessionOf && id in w.written && w.written[id] == rows
  }

  predicate Can(w: World, st: Step) {
    match st
    case Dispatch(_, _) => true
    case GateStep(a) => !a.Arrive? && Enabled(w.gate, a)
    case WriteUser(id) => CanWrite(w, id, 0)
    case WriteAssistant(id) => CanWrite(w, id, 1)
    case WriteOther(row) => row.turn == None
  }

  function Take(w: World, st: Step): World
    requires Can(w, st)
  {
    match st
    case Dispatch(s, preempt) =>
      var id := w.gate.nextId;
      w.(gate := DoArrive(w.gate, SessionScope(s), preempt),
         sessionOf := w.sessionOf[id := s],
         written := w.written[id := 0])
    case GateStep(a) => w.(gate := Apply(w.gate, a))
    case WriteUser(id) =>
      w.(written := w.written[id := 1], messages := w.messages + [Row(w.sessionOf[id], Some(id), User)])
    case WriteAssistant(id) =>
      w.(written := w.written[id := 2], messages := w.messages + [Row(w.sessionOf[id], Some(id), Assistant)])
    case WriteOther(row) => w.(messages := w.messages + [row])
  }

  predicate ValidSteps(w: World, steps: seq<Step>)
    decreases steps
  {
    steps == [] || (Can(w, steps[0]) && ValidSteps(Take(w, steps[0]), steps[1..]))
  }

  function Outcome(w: World, steps: seq<Step>): World
    requires ValidSteps(w, steps)
    decreases steps
  {
    if steps == [] then w else Outcome(Take(w, steps[0]), steps[1..])
  }

  lemma {:induction false} StepsThenSteps(w: World, first: seq<Step>, second: seq<Step>)
    requires ValidSteps(w, first) && ValidSteps(Outcome(w, first), second)
    ensures ValidSteps(w, first + second) && Outcome(w, first + second) == Outcome(Outcome(w, first), second)
    decreases first
  {
    if first == [] {
      assert first + second == second;
    } else {
      assert (first + second)[0] == first[0] && (first + second)[1..] == first[1..] + second;
      StepsThenSteps(Take(w, first[0]), first[1..], second);
    }
  }

  // ----- the sequential reference -----

  /** The rows of one turn, as far as it got: user message first, then the reply. */
  function Block(s: SessionId, id: EntryId, rows: nat): seq<Row> {
    if rows == 0 then []
    else if rows == 1 then [Row(s, Some(id), User)]
    else [Row(s, Some(id), User), Row(s, Some(id), Assistant)]
  }

  function RowsOf(written: map<EntryId, nat>, id: EntryId): nat {
    if id in written then written[id] else 0
  }

  /** Turns run one after another in the given order. */
  function Sequential(s: SessionId, order: seq<EntryId>, written: map<EntryId, nat>): seq<Row> {
    if order == [] then []
    else
      var last := order[|order| - 1];
      Sequential(s, order[..|order| - 1], written) + Block(s, last, RowsOf(written, last))
  }

  /** The rows dispatcher turns wrote to a session. */
  function TurnRows(messages: seq<Row>, s: SessionId): seq<Row> {
    if messages == [] then []
    else
      var row := messages[|messages| - 1];
      TurnRows(messages[..|messages| - 1], s) + (if row.session == s && row.turn.Some? then [row] else [])
  }

  lemma TurnRowsAppend(messages: seq<Row>, row: Row, s: SessionId)
    ensures TurnRows(messages + [row], s) ==
            if row.session == s && row.turn.Some? then TurnRows(messages, s) + [row] else TurnRows(messages, s)
  {
    assert (messages + [row])[..|messages|] == messages;
  }

  lemma SequentialAppend(s: SessionId, order: seq<EntryId>, id: EntryId, written: map<EntryId, nat>)
    ensures Sequential(s, order + [id], written) == Sequential(s, order, written) + Block(s, id, RowsOf(written, id))
  {
    assert (order + [id])[..|order|] == order;
  }

  lemma {:induction false} SequentialFrame(s: SessionId, order: seq<EntryId>, id: EntryId, n: nat,
                                           written: map<EntryId, nat>)
    requires id !in order
    ensures Sequential(s, order, written[id := n]) == Sequential(s, order, written)
  {
    if order != [] {
      assert order[|order| - 1] in order;
      SequentialFrame(s, order[..|order| - 1], id, n, written);
    }
  }

  // ----- the invariant -----

  /** The order in which the turns of a session came through the gate. */
  function EntryOrder(w: World, s: SessionId): seq<EntryId> {
    Trace(w.gate.log, Publication, SessionScope(s))
  }

  predicate PastPublication(g: Gate, id: EntryId) {
    id < g.nextId && (id in g.entries ==> Published(g.entries[id].phase))
  }

  ghost predicate CallsInv(w: World) {
    && (forall id :: id in w.gate.entries ==>
          && id in w.sessionOf && id in w.written
          && w.gate.entries[id].scope == SessionScope(w.sessionOf[id]))
    && (forall id :: id in w.written ==> id < w.gate.nextId)
    && (forall id :: id in w.gate.entries && !Published(w.gate.entries[id].phase) ==> w.written[id] == 0)
  }

  ghost predicate OrderInv(w: World, s: SessionId) {
    && (forall id :: id in EntryOrder(w, s) ==>
          PastPublication(w.gate, id) && id in w.sessionOf && w.sessionOf[id] == s)
    && NoDuplicates(EntryOrder(w, s))
    && (forall id :: id in w.gate.entries && w.gate.entries[id].phase in {Running, Unpermitted}
                     && w.gate.entries[id].scope == SessionScope(s) ==>
          |EntryOrder(w, s)| > 0 && EntryOrder(w, s)[|EntryOrder(w, s)| - 1] == id)
  }

  ghost predicate RefinesSequential(w: World, s: SessionId) {
    TurnRows(w.messages, s) == Sequential(s, EntryOrder(w, s), w.written)
  }

  ghost predicate WorldInv(w: World, s: SessionId) {
    GateInv(w.gate) && CallsInv(w) && OrderInv(w, s) && RefinesSequential(w, s)
  }

  // ----- preservation -----

  lemma PublicationGrowth(g: Gate, a: Action, s: Scope)
    requires Enabled(g, a)
    ensures Trace(Apply(g, a).log, Publication, s) ==
      if a.Publish? && g.entries[a.id].scope == s then Trace(g.log, Publication, s) + [a.id]
      else Trace(g.log, Publication, s)
  {
    var g' := Apply(g, a);
    if g'.log != g.log {
      var ev := g'.log[|g.log|];
      assert g'.log == g.log + [ev];
      TraceAppend(g.log, ev, Publication, s);
    }
  }

  /** How a gate step other than an arrival moves the entries. */
  ghost predicate EntriesMove(g: Gate, g': Gate, a: Action) {
    && g'.nextId == g.nextId
    && (forall id :: id in g'.entries ==>
          && id in g.entries && g'.entries[id].scope == g.entries[id].scope
          && (Published(g.entries[id].phase) ==> Published(g'.entries[id].phase))
          && (g'.entries[id].phase in {Running, Unpermitted} ==>
                g.entries[id].phase in {Running, Unpermitted} || a == Publish(id)))
  }

  lemma GateMoves(g: Gate, a: Action)
    requires Enabled(g, a) && !a.Arrive?
    ensures EntriesMove(g, Apply(g, a), a)
  {
    match a {
      case Register(id) => RegisterMoves(g, id);
      case Publish(id) => PublishMoves(g, id);
      case Unregister(id) => UnregisterMoves(g, id);
      case _ =>
    }
  }

  lemma RegisterMoves(g: Gate, id: EntryId)
    requires Enabled(g, Register(id))
    ensures EntriesMove(g, DoRegister(g, id), Register(id))
  {
  }

  lemma PublishMoves(g: Gate, id: EntryId)
    requires Enabled(g, Publish(id))
    ensures EntriesMove(g, DoPublish(g, id), Publish(id))
  {
  }

  lemma UnregisterMoves(g: Gate, id: EntryId)
    requires Enabled(g, Unregister(id))
    ensures EntriesMove(g, DoUnregister(g, id), Unregister(id))
  {
  }

  lemma CallsMove(w: World, w': World, a: Action)
    requires CallsInv(w) && EntriesMove(w.gate, w'.gate, a)
    requires w'.sessionOf == w.sessionOf && w'.written == w.written
    ensures CallsInv(w')
  {
  }

  lemma PublishElsewhere(w: World, id: EntryId, s: SessionId)
    requires OrderInv(w, s) && Enabled(w.gate, Publish(id)) && w.gate.entries[id].scope != SessionScope(s)
    ensures OrderInv(w.(gate := DoPublish(w.gate, id)), s)
  {
    PublicationGrowth(w.gate, Publish(id), SessionScope(s));
    var w' := w.(gate := DoPublish(w.gate, id));
    assert EntryOrder(w', s) == EntryOrder(w, s);
    forall x | x in EntryOrder(w, s) ensures PastPublication(w'.gate, x) {
      assert PastPublication(w.gate, x) && x != id;
    }
  }

  /** So it follows every earlier turn of its session. */
  lemma PublishHere(w: World, id: EntryId, s: SessionId)
    requires OrderInv(w, s) && IdsInv(w.gate) && Enabled(w.gate, Publish(id))
    requires w.gate.entries[id].scope == SessionScope(s)
    requires id in w.sessionOf && w.sessionOf[id] == s
    requires forall x :: x in w.gate.entries && x != id && w.gate.entries[x].phase in {Running, Unpermitted} ==>
               w.gate.entries[x].scope != w.gate.entries[id].scope
    ensures OrderInv(w.(gate := DoPublish(w.gate, id)), s)
  {
    PublicationGrowth(w.gate, Publish(id), SessionScope(s));
    assert !PastPublication(w.gate, id);
    var order := EntryOrder(w, s);
    forall x | x in order + [id]
      ensures PastPublication(DoPublish(w.gate, id), x) && x in w.sessionOf && w.sessionOf[x] == s
    {
      if x != id { assert x in order; }
    }
  }

  lemma PublishOrder(w: World, id: EntryId, s: SessionId)
    requires ScopeInv(w.gate) && HolderInv(w.gate) && IdsInv(w.gate) && CallsInv(w) && OrderInv(w, s)
    requires Enabled(w.gate, Publish(id))
    ensures OrderInv(w.(gate := DoPublish(w.gate, id)), s)
  {
    if w.gate.entries[id].scope == SessionScope(s) {
      SessionScopeInjective(w.sessionOf[id], s);
      PublishHere(w, id, s);
    } else {
      PublishElsewhere(w, id, s);
    }
  }

  lemma OrderMove(w: World, w': World, a: Action, s: SessionId)
    requires OrderInv(w, s) && EntriesMove(w.gate, w'.gate, a) && !a.Publish?
    requires EntryOrder(w', s) == EntryOrder(w, s) && w'.sessionOf == w.sessionOf
    ensures OrderInv(w', s)
  {
  }

  lemma GateOrder(w: World, a: Action, s: SessionId)
    requires WorldInv(w, s) && Can(w, GateStep(a))
    ensures OrderInv(Take(w, GateStep(a)), s)
  {
    if a.Publish? {
      PublishOrder(w, a.id, s);
    } else {
      PublicationGrowth(w.gate, a, SessionScope(s));
      GateMoves(w.gate, a);
      OrderMove(w, Take(w, GateStep(a)), a, s);
    }
  }

  /** A turn has written nothing when it comes through the gate. */
  lemma PublishRefines(w: World, id: EntryId, s: SessionId)
    requires CallsInv(w) && RefinesSequential(w, s) && Enabled(w.gate, Publish(id))
    ensures RefinesSequential(w.(gate := DoPublish(w.gate, id)), s)
  {
    PublicationGrowth(w.gate, Publish(id), SessionScope(s));
    assert RowsOf(w.written, id) == 0;
    NothingWritten(s, EntryOrder(w, s), id, w.written);
  }

  lemma NothingWritten(s: SessionId, order: seq<EntryId>, id: EntryId, written: map<EntryId, nat>)
    requires RowsOf(written, id) == 0
    ensures Sequential(s, order + [id], written) == Sequential(s, order, written)
  {
    SequentialAppend(s, order, id, written);
  }

  lemma GateRefines(w: World, a: Action, s: SessionId)
    requires CallsInv(w) && RefinesSequential(w, s) && Can(w, GateStep(a))
    ensures RefinesSequential(Take(w, GateStep(a)), s)
  {
    if a.Publish? {
      PublishRefines(w, a.id, s);
    } else {
      PublicationGrowth(w.gate, a, SessionScope(s));
    }
  }

  lemma GateKeeps(w: World, a: Action, s: SessionId)
    requires WorldInv(w, s) && Can(w, GateStep(a))
    ensures WorldInv(Take(w, GateStep(a)), s)
  {
    StepKeepsInv(w.gate, a);
    GateMoves(w.gate, a);
    CallsMove(w, Take(w, GateStep(a)), a);
    GateOrder(w, a, s);
    GateRefines(w, a, s);
  }

  lemma DispatchCalls(w: World, t: SessionId, preempt: bool)
    requires IdsInv(w.gate) && CallsInv(w)
    ensures CallsInv(Take(w, Dispatch(t, preempt)))
  {
  }

  lemma DispatchOrder(w: World, t: SessionId, preempt: bool, s: SessionId)
    requires IdsInv(w.gate) && OrderInv(w, s) && RefinesSequential(w, s)
    ensures OrderInv(Take(w, Dispatch(t, preempt)), s) && RefinesSequential(Take(w, Dispatch(t, preempt)), s)
  {
    assert w.gate.nextId !in EntryOrder(w, s) by {
      assert !PastPublication(w.gate, w.gate.nextId);
    }
    SequentialFrame(s, EntryOrder(w, s), w.gate.nextId, 0, w.written);
  }

  lemma DispatchKeeps(w: World, t: SessionId, preempt: bool, s: SessionId)
    requires WorldInv(w, s)
    ensures WorldInv(Take(w, Dispatch(t, preempt)), s)
  {
    KeepArrive(w.gate, SessionScope(t), preempt);
    DispatchCalls(w, t, preempt);
    DispatchOrder(w, t, preempt, s);
  }

  /** The block of the last turn in the order grows by a row. */
  lemma BlockGrows(s: SessionId, order: seq<EntryId>, written: map<EntryId, nat>, id: EntryId, n: nat, row: Row)
    requires order != [] && order[|order| - 1] == id && NoDuplicates(order) && RowsOf(written, id) == n < 2
    requires row == Row(s, Some(id), if n == 0 then User else Assistant)
    ensures Sequential(s, order, written[id := n + 1]) == Sequential(s, order, written) + [row]
  {
    var before := order[..|order| - 1];
    assert id !in before;
    SequentialFrame(s, before, id, n + 1, written);
    assert Block(s, id, n + 1) == Block(s, id, n) + [row];
    assert Sequential(s, before, written) + (Block(s, id, n) + [row])
        == Sequential(s, before, written) + Block(s, id, n) + [row];
  }

  /** A turn that writes is the last that came through the gate, so its row extends the last block. */
  lemma WriteRefines(w: World, id: EntryId, role: Role, n: nat, s: SessionId)
    requires CallsInv(w) && OrderInv(w, s) && RefinesSequential(w, s) && CanWrite(w, id, n) && n < 2
    requires role == if n == 0 then User else Assistant
    ensures RefinesSequential(
      w.(written := w.written[id := n + 1], messages := w.messages + [Row(w.sessionOf[id], Some(id), role)]), s)
  {
    var row := Row(w.sessionOf[id], Some(id), role);
    TurnRowsAppend(w.messages, row, s);
    SessionScopeInjective(w.sessionOf[id], s);
    if w.sessionOf[id] == s {
      BlockGrows(s, EntryOrder(w, s), w.written, id, n, row);
    } else {
      assert id !in EntryOrder(w, s);
      SequentialFrame(s, EntryOrder(w, s), id, n + 1, w.written);
    }
  }

  lemma WriteFrame(w: World, w': World, id: EntryId, n: nat, s: SessionId)
    requires IdsInv(w.gate) && CallsInv(w) && OrderInv(w, s)
    requires InPhase(w.gate, id, Running)
    requires w'.gate == w.gate && w'.sessionOf == w.sessionOf && w'.written == w.written[id := n]
    ensures CallsInv(w') && OrderInv(w', s)
  {
  }

  lemma WriteKeeps(w: World, st: Step, s: SessionId)
    requires IdsInv(w.gate) && CallsInv(w) && OrderInv(w, s) && RefinesSequential(w, s)
    requires Can(w, st) && (st.WriteUser? || st.WriteAssistant?)
    ensures var w' := Take(w, st);
            w'.gate == w.gate && CallsInv(w') && OrderInv(w', s) && RefinesSequential(w', s)
  {
    if st.WriteUser? {
      WriteRefines(w, st.id, User, 0, s);
      WriteFrame(w, Take(w, st), st.id, 1, s);
    } else {
      WriteRefines(w, st.id, Assistant, 1, s);
      WriteFrame(w, Take(w, st), st.id, 2, s);
    }
  }

  lemma OtherKeeps(w: World, row: Row, s: SessionId)
    requires CallsInv(w) && OrderInv(w, s) && RefinesSequential(w, s) && row.turn == None
    ensures var w' := w.(messages := w.messages + [row]);
            CallsInv(w') && OrderInv(w', s) && RefinesSequential(w', s)
  {
    TurnRowsAppend(w.messages, row, s);
  }

  lemma StepKeepsWorld(w: World, st: Step, s: SessionId)
    requires WorldInv(w, s) && Can(w, st)
    ensures WorldInv(Take(w, st), s)
  {
    match st {
      case Dispatch(t, preempt) => DispatchKeeps(w, t, preempt, s);
      case GateStep(a) => GateKeeps(w, a, s);
      case WriteUser(_) => WriteKeeps(w, st, s);
      case WriteAssistant(_) => WriteKeeps(w, st, s);
      case WriteOther(row) => OtherKeeps(w, row, s);
    }
  }

  lemma {:induction false} StepsKeepWorld(w: World, steps: seq<Step>, s: SessionId)
    requires WorldInv(w, s) && ValidSteps(w, steps)
    ensures WorldInv(Outcome(w, steps), s)
    decreases steps
  {
    if steps != [] {
      StepKeepsWorld(w, steps[0], s);
      StepsKeepWorld(Take(w, steps[0]), steps[1..], s);
    }
  }

  // ----- theorems -----

  /** However turns, interrupts, abandoned calls and other writers interleave, the rows the
      dispatcher's turns wrote to a session are those of the same turns run one at a time in the
      order they came through the gate: whole blocks, each a user row and then a reply row, as
      far as the turn got, and only turns that came through the gate have written. */
  lemma ConcurrentRefinesSequential(maxParallel: nat, steps: seq<Step>, s: SessionId)
    requires ValidSteps(NewWorld(maxParallel), steps)
    ensures var w := Outcome(NewWorld(maxParallel), steps);
            && TurnRows(w.messages, s) == Sequential(s, EntryOrder(w, s), w.written)
            && NoDuplicates(EntryOrder(w, s))
  {
    NewGateInv(maxParallel);
    assert WorldInv(NewWorld(maxParallel), s);
    StepsKeepWorld(NewWorld(maxParallel), steps, s);
  }

  lemma EarlierCannotWrite(w: World, s: SessionId, i: nat, st: Step)
    requires CallsInv(w) && OrderInv(w, s) && i + 1 < |EntryOrder(w, s)|
    requires Can(w, st) && (st.WriteUser? || st.WriteAssistant?)
    ensures st.id != EntryOrder(w, s)[i]
  {
    var order := EntryOrder(w, s);
    assert order[i] in order && order[i] != order[|order| - 1];
    SessionScopeInjective(w.sessionOf[st.id], s);
  }

  /** Only the latest turn of a session can still be incomplete: once a later one has come
      through the gate, no turn before it writes again. */
  lemma EarlierTurnsAreFinal(maxParallel: nat, steps: seq<Step>, s: SessionId, i: nat, st: Step)
    requires ValidSteps(NewWorld(maxParallel), steps)
    requires var w := Outcome(NewWorld(maxParallel), steps);
             i + 1 < |EntryOrder(w, s)| && Can(w, st) && (st.WriteUser? || st.WriteAssistant?)
    ensures st.id != EntryOrder(Outcome(NewWorld(maxParallel), steps), s)[i]
  {
    NewGateInv(maxParallel);
    StepsKeepWorld(NewWorld(maxParallel), steps, s);
    EarlierCannotWrite(Outcome(NewWorld(maxParallel), steps), s, i, st);
  }
}
