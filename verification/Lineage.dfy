/**
 * What the text of a summary tells.
 *
 * `Compaction` follows the ids of the messages a summary stands for. Here the texts are followed: `tells` says
 * what a text tells of a conversation, and a summariser is faithful if its answer tells what the summary it was
 * given told and the messages it was given. With such a summariser the model is always told everything.
 */
module Lineage {
  import opened Options
  import opened Text
  import opened Compaction

  type Pairs = seq<(string, string)>

  // ----- the summary that is quoted -----

  /** The summary a plan quotes is the text the latest summary row was committed with. */
  lemma QuotesTheLatest(m: Marks, rows: seq<StoredMessage>, body: string)
    requires RealMarks(m) && !Blank(body) && LastCompactionIndex(rows).Some?
    requires rows[LastCompactionIndex(rows).value].content == m.current + body
    ensures PreviousSummaryBody(m, rows) == Some(Trim(body))
  {
    SummaryRoundTrip(m, body);
  }

  lemma {:induction false} QuoteStays(m: Marks, h: History, ws: seq<Write>)
    requires ValidWrites(m, h, ws) && NoCommits(ws)
    ensures PreviousSummaryBody(m, Written(m, h, ws).rows) == PreviousSummaryBody(m, h.rows)
    decreases ws
  {
    if ws != [] {
      var h' := Do(m, h, ws[0]);
      if ws[0].Append? {
        assert h'.rows[..|h.rows|] == h.rows;
      }
      QuoteStays(m, h', ws[1..]);
    }
  }

  /** Whatever is planned next, until someone else commits, it quotes the summary that was committed last. */
  lemma CommittedIsQuoted(m: Marks, h: History, k: nat, id: int, body: string, ws: seq<Write>, tailKeep: nat)
    requires RealMarks(m) && CanDo(m, h, Commit(k, id, body))
    requires ValidWrites(m, Do(m, h, Commit(k, id, body)), ws) && NoCommits(ws)
    requires PlanCompaction(m, Written(m, Do(m, h, Commit(k, id, body)), ws).rows, tailKeep).Some?
    ensures var later := Written(m, Do(m, h, Commit(k, id, body)), ws);
      PlanCompaction(m, later.rows, tailKeep).value.previousSummary == Some(Trim(body))
  {
    var h' := Do(m, h, Commit(k, id, body));
    SummaryDecides(m, h.rows, id, h.inFlight[k].plan, body);
    QuotesTheLatest(m, h'.rows, body);
    QuoteStays(m, h', ws);
    PlanQuotes(m, Written(m, h', ws).rows, tailKeep);
  }

  // ----- faithful summaries -----

  function Told(tells: string -> Pairs, quoted: Option<string>): Pairs {
    match quoted case Some(text) => tells(text) case None => []
  }

  /** What the summariser was given: the summary it is to update, and the messages. */
  function Given(tells: string -> Pairs, p: Plan): Pairs {
    Told(tells, p.previousSummary) + p.toSummarize
  }

  /** Every summary committed in the run tells what its plan was given. */
  ghost predicate Faithful(m: Marks, tells: string -> Pairs, h: History, ws: seq<Write>)
    requires ValidWrites(m, h, ws)
    decreases ws
  {
    ws == [] ||
    (&& (ws[0].Commit? ==> tells(Trim(ws[0].body)) == Given(tells, h.inFlight[ws[0].k].plan))
     && Faithful(m, tells, Do(m, h, ws[0]), ws[1..]))
  }

  /** The messages a boundary covers. */
  function Covered(rows: seq<StoredMessage>, boundary: int): Pairs {
    ToPairs(Below(Conversation(rows), boundary))
  }

  ghost predicate SummaryTells(m: Marks, tells: string -> Pairs, rows: seq<StoredMessage>, r: StoredMessage) {
    r.covers.Some? && tells(StripSummaryPrefix(m, r.content)) == Covered(rows, r.covers.value)
  }

  ghost predicate TextInv(m: Marks, tells: string -> Pairs, h: History) {
    && (forall i :: 0 <= i < |h.rows| && IsSummary(h.rows[i]) ==> SummaryTells(m, tells, h.rows, h.rows[i]))
    && (forall i :: 0 <= i < |h.inFlight| ==>
          Given(tells, h.inFlight[i].plan) == Covered(h.rows, h.inFlight[i].plan.covers))
  }

  /** A boundary covers the same messages when a row is added. */
  lemma CoveredStays(rows: seq<StoredMessage>, r: StoredMessage, boundary: int, sources: seq<int>)
    requires StandsFor(rows, boundary, sources) && forall i :: 0 <= i < |rows| ==> rows[i].id < r.id
    ensures Covered(rows + [r], boundary) == Covered(rows, boundary)
  {
    BelowGrows(rows, r, boundary);
  }

  lemma AppendTells(m: Marks, tells: string -> Pairs, h: History, row: StoredMessage)
    requires HistoryInv(m, h) && TextInv(m, tells, h) && CanDo(m, h, Append(row))
    ensures TextInv(m, tells, Do(m, h, Append(row)))
  {
    var h' := Do(m, h, Append(row));
    forall i | 0 <= i < |h'.rows| && IsSummary(h'.rows[i]) ensures SummaryTells(m, tells, h'.rows, h'.rows[i]) {
      assert GoodSummary(m, h, h.rows[i]) && SummaryTells(m, tells, h.rows, h.rows[i]);
      CoveredStays(h.rows, row, h.rows[i].covers.value, h.provenance[h.rows[i].id]);
    }
    forall i | 0 <= i < |h.inFlight|
      ensures Given(tells, h'.inFlight[i].plan) == Covered(h'.rows, h'.inFlight[i].plan.covers)
    {
      CoveredStays(h.rows, row, h.inFlight[i].plan.covers, h.inFlight[i].sources);
    }
  }

  lemma CommitTells(m: Marks, tells: string -> Pairs, h: History, k: nat, id: int, body: string)
    requires RealMarks(m) && HistoryInv(m, h) && TextInv(m, tells, h) && CanDo(m, h, Commit(k, id, body))
    requires tells(Trim(body)) == Given(tells, h.inFlight[k].plan)
    ensures TextInv(m, tells, Do(m, h, Commit(k, id, body)))
  {
    var h' := Do(m, h, Commit(k, id, body));
    var row := h'.rows[|h.rows|];
    forall i | 0 <= i < |h'.rows| && IsSummary(h'.rows[i]) ensures SummaryTells(m, tells, h'.rows, h'.rows[i]) {
      if i < |h.rows| {
        assert GoodSummary(m, h, h.rows[i]) && SummaryTells(m, tells, h.rows, h.rows[i]);
        CoveredStays(h.rows, row, h.rows[i].covers.value, h.provenance[h.rows[i].id]);
      } else {
        SummaryRoundTrip(m, body);
        CoveredStays(h.rows, row, h.inFlight[k].plan.covers, h.inFlight[k].sources);
      }
    }
    forall i | 0 <= i < |h.inFlight|
      ensures Given(tells, h.inFlight[i].plan) == Covered(h'.rows, h.inFlight[i].plan.covers)
    {
      CoveredStays(h.rows, row, h.inFlight[i].plan.covers, h.inFlight[i].sources);
    }
  }

  /** A plan is given what everything up to its boundary says. */
  lemma PlanTells(m: Marks, tells: string -> Pairs, h: History, tailKeep: nat)
    requires RealMarks(m) && HistoryInv(m, h) && TextInv(m, tells, h) && CanDo(m, h, PlanNext(tailKeep))
    ensures TextInv(m, tells, Do(m, h, PlanNext(tailKeep)))
  {
    GivenCovered(m, tells, h, tailKeep);
  }

  /** What the latest summary tells is everything before the uncovered rows. */
  lemma QuotedTells(m: Marks, tells: string -> Pairs, h: History, k: nat)
    requires RealMarks(m) && HistoryInv(m, h) && TextInv(m, tells, h) && k <= |Conversation(h.rows)|
    requires LastCompactionIndex(h.rows).None? ==> k == 0
    requires LastCompactionIndex(h.rows).Some? ==>
               var r := h.rows[LastCompactionIndex(h.rows).value];
               r.covers.Some? ==> Below(Conversation(h.rows), r.covers.value) == Conversation(h.rows)[..k]
    ensures Told(tells, PreviousSummaryBody(m, h.rows)) == ToPairs(Conversation(h.rows)[..k])
  {
    if LastCompactionIndex(h.rows).Some? {
      var last := h.rows[LastCompactionIndex(h.rows).value];
      assert GoodSummary(m, h, last) && SummaryTells(m, tells, h.rows, last);
      var body :| !Blank(body) && last.content == m.current + body;
      QuotesTheLatest(m, h.rows, body);
      SummaryRoundTrip(m, body);
    } else {
      assert ToPairs(Conversation(h.rows)[..0]) == [];
      NoSummaryQuoted(m, h.rows);
    }
  }

  lemma GivenCovered(m: Marks, tells: string -> Pairs, h: History, tailKeep: nat)
    requires RealMarks(m) && HistoryInv(m, h) && TextInv(m, tells, h) && PlanCompaction(m, h.rows, tailKeep).Some?
    ensures var p := PlanCompaction(m, h.rows, tailKeep).value; Given(tells, p) == Covered(h.rows, p.covers)
  {
    var p := PlanCompaction(m, h.rows, tailKeep).value;
    var k := UncoveredIsTail(h.rows);
    QuotedTells(m, tells, h, k);
    TakenCovered(m, h.rows, tailKeep, p, k);
  }

  lemma TakenCovered(m: Marks, rows: seq<StoredMessage>, tailKeep: nat, p: Plan, k: nat)
    requires Sorted(rows) && PlanCompaction(m, rows, tailKeep) == Some(p)
    requires k <= |Conversation(rows)| && UncoveredRows(rows) == Conversation(rows)[k..]
    ensures p.previousSummary == PreviousSummaryBody(m, rows)
    ensures ToPairs(Conversation(rows)[..k]) + p.toSummarize == Covered(rows, p.covers)
  {
    PlanShape(m, rows, tailKeep, p);
    PlanCut(rows, Conversation(rows), p, k);
    PlanTakes(m, rows, tailKeep, p);
    PairsSplit(Conversation(rows), k, |p.toSummarize|);
  }

  lemma PlanTakes(m: Marks, rows: seq<StoredMessage>, tailKeep: nat, p: Plan)
    requires PlanCompaction(m, rows, tailKeep) == Some(p)
    ensures p.previousSummary == PreviousSummaryBody(m, rows) && |p.toSummarize| <= |UncoveredRows(rows)|
    ensures p.toSummarize == ToPairs(UncoveredRows(rows))[..|p.toSummarize|]
  {
    PlanCoversAllButTail(m, rows, tailKeep);
  }

  lemma NoSummaryQuoted(m: Marks, rows: seq<StoredMessage>)
    requires LastCompactionIndex(rows).None?
    ensures PreviousSummaryBody(m, rows).None?
  {
  }

  lemma PairsSplit(q: seq<StoredMessage>, k: nat, n: nat)
    requires k + n <= |q|
    ensures ToPairs(q[..k]) + ToPairs(q[k..])[..n] == ToPairs(q[..k + n])
    ensures ToPairs(q[..k]) + ToPairs(q[k..]) == ToPairs(q)
  {
  }

  lemma StepTells(m: Marks, tells: string -> Pairs, h: History, w: Write)
    requires RealMarks(m) && HistoryInv(m, h) && TextInv(m, tells, h) && CanDo(m, h, w)
    requires w.Commit? ==> tells(Trim(w.body)) == Given(tells, h.inFlight[w.k].plan)
    ensures TextInv(m, tells, Do(m, h, w))
  {
    match w {
      case Append(row) => AppendTells(m, tells, h, row);
      case PlanNext(tail) => PlanTells(m, tells, h, tail);
      case Commit(k, id, body) => CommitTells(m, tells, h, k, id, body);
      case GiveUp(k) =>
    }
  }

  lemma {:induction false} RunTells(m: Marks, tells: string -> Pairs, h: History, ws: seq<Write>)
    requires RealMarks(m) && HistoryInv(m, h) && TextInv(m, tells, h)
    requires ValidWrites(m, h, ws) && Faithful(m, tells, h, ws)
    ensures HistoryInv(m, Written(m, h, ws)) && TextInv(m, tells, Written(m, h, ws))
    decreases ws
  {
    if ws != [] {
      StepTells(m, tells, h, ws[0]);
      WriteKeeps(m, h, ws[0]);
      RunTells(m, tells, Do(m, h, ws[0]), ws[1..]);
    }
  }

  /** The model is shown every message, or a summary that tells the first of them and then the rest. */
  ghost predicate ToldAll(m: Marks, tells: string -> Pairs, h: History) {
    var all := ToPairs(Conversation(h.rows));
    match LastCompactionIndex(h.rows)
    case None => EffectiveHistory(h.rows) == all
    case Some(i) =>
      && EffectiveHistory(h.rows) == [(COMPACTION, h.rows[i].content)] + EffectiveHistory(h.rows)[1..]
      && tells(StripSummaryPrefix(m, h.rows[i].content)) + EffectiveHistory(h.rows)[1..] == all
  }

  lemma TextComplete(m: Marks, tells: string -> Pairs, h: History)
    requires HistoryInv(m, h) && TextInv(m, tells, h)
    ensures ToldAll(m, tells, h)
  {
    var conv := Conversation(h.rows);
    var k := UncoveredIsTail(h.rows);
    PairsSplit(conv, k, 0);
    if LastCompactionIndex(h.rows).None? {
      assert [] + ToPairs(conv) == ToPairs(conv);
    } else {
      var last := h.rows[LastCompactionIndex(h.rows).value];
      assert IsSummary(last) && SummaryTells(m, tells, h.rows, last);
      var shown := ToPairs(UncoveredRows(h.rows));
      assert EffectiveHistory(h.rows) == [(COMPACTION, last.content)] + shown;
      assert EffectiveHistory(h.rows)[1..] == shown;
    }
  }

  /**
   * Over every run of appends, plans and late commits in which the summaries are faithful, the model is told
   * the whole conversation: each message itself, or what the summary tells in its place, once and in order.
   */
  lemma NothingUntold(m: Marks, tells: string -> Pairs, ws: seq<Write>)
    requires RealMarks(m) && ValidWrites(m, EmptyHistory, ws) && Faithful(m, tells, EmptyHistory, ws)
    ensures ToldAll(m, tells, Written(m, EmptyHistory, ws))
  {
    RunTells(m, tells, EmptyHistory, ws);
    TextComplete(m, tells, Written(m, EmptyHistory, ws));
  }

  // ----- each plan is used once -----

  function Planned(ws: seq<Write>): nat {
    if ws == [] then 0 else Planned(ws[1..]) + if ws[0].PlanNext? then 1 else 0
  }

  function Resolved(ws: seq<Write>): nat {
    if ws == [] then 0 else Resolved(ws[1..]) + if ws[0].Commit? || ws[0].GiveUp? then 1 else 0
  }

  /** Every plan is committed or given up at most once; the others are still in flight. */
  lemma {:induction false} EachPlanOnce(m: Marks, h: History, ws: seq<Write>)
    requires ValidWrites(m, h, ws)
    ensures |Written(m, h, ws).inFlight| + Resolved(ws) == |h.inFlight| + Planned(ws)
    decreases ws
  {
    if ws != [] {
      EachPlanOnce(m, Do(m, h, ws[0]), ws[1..]);
    }
  }

  /** A commit or a failure uses up that plan and no other. */
  lemma UsesItsPlan(m: Marks, h: History, w: Write, k: nat)
    requires CanDo(m, h, w) && ((w.Commit? && w.k == k) || (w.GiveUp? && w.k == k))
    ensures var left := Do(m, h, w).inFlight;
      |left| == |h.inFlight| - 1 && forall i :: 0 <= i < |left| ==> left[i] == h.inFlight[if i < k then i else i + 1]
  {
  }
}
