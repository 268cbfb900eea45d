/**
  History compaction: an append-only message log in which summary rows stand for what they cover.

  The functions are those of the compactor, on the rows one session lists in id order. The step
  system at the end lets any number of compactions be planned and committed while other writers
  append, and carries for every summary the ids of the messages that went into it, through its
  chain of previous summaries.
*/
module Compaction {
  import opened Numbers
  import opened Options
  import opened Text

  datatype StoredMessage = StoredMessage(id: int, role: string, content: string, covers: Option<int>)

  const COMPACTION := "compaction"

  predicate IsSummary(r: StoredMessage) {
    r.role == COMPACTION
  }

  // ----- the summary text -----

  /** The markers a summary row may start with; their wording does not matter here. */
  datatype Marks = Marks(current: string, legacy: string, legacyTail: string)

  /** The shape of the real markers: the current one starts with a bracket, ends in newlines,
      is not blank, and does not extend the legacy one. */
  predicate RealMarks(m: Marks) {
    && m.current != "" && !IsWhitespace(m.current[0])
    && IsWhitespace(m.current[|m.current| - 1])
    && !(m.legacy <= TrimEnd(m.current))
  }

  /** Two markers that share a bracketed opening and then part, the current one ending in a newline, have it. */
  lemma MarkersThatPart(m: Marks, opening: string, a: string, b: string)
    requires m.current == opening + a && m.legacy == opening + b && opening != "" && !IsWhitespace(opening[0])
    requires a != "" && b != "" && a[0] != b[0] && IsWhitespace(a[|a| - 1])
    ensures RealMarks(m)
  {
    TrimEndSplits(m.current);
    assert m.current[0] == opening[0];
    assert m.current[|m.current| - 1] == a[|a| - 1];
    assert m.current[|opening|] == a[0] && m.legacy[|opening|] == b[0];
  }

  /** The markers of the program, whatever guidance the current one goes on to give. */
  lemma MarkersAreReal(m: Marks, guidance: string, opening: string, current: string, legacy: string)
    requires opening == "[" + "CONTEXT COMPACTION \U{2014} REFERENCE ONLY] Earlier turns were "
    requires current == "compacted " + guidance + "\n\n" && legacy == "summarized."
    requires m.current == opening + current && m.legacy == opening + legacy
    ensures RealMarks(m)
  {
    assert opening[0] == '[' && current[0] == 'c' && current[|current| - 1] == '\n';
    MarkersThatPart(m, opening, current, legacy);
  }

  function TrimStartMatches(s: string, cs: set<char>): string {
    if s != [] && s[0] in cs then TrimStartMatches(s[1..], cs) else s
  }

  function StripSummaryPrefix(m: Marks, content: string): string {
    var s := Trim(content);
    if m.current <= s then Trim(s[|m.current|..])
    else if m.legacy <= s then
      var rest := Trim(s[|m.legacy|..]);
      if m.legacyTail <= rest then TrimStartMatches(Trim(rest[|m.legacyTail|..]), {' ', ';', ':'})
      else rest
    else s
  }

  /** Reading a summary row gives back the (trimmed) summary it was written with exactly when
      that summary is not blank, which the summariser guarantees. */
  lemma SummaryRoundTrip(m: Marks, body: string)
    requires RealMarks(m)
    ensures StripSummaryPrefix(m, m.current + body) == Trim(body) <==> !Blank(body)
  {
    var content := m.current + body;
    assert TrimStart(content) == content;
    TrimStartSplits(body);
    TrimEndBlank(body);
    BlankIff(body);
    if AllWhitespace(body) {
      TrimEndAppendSpace(m.current, body);
      TrimEndSplits(m.current);
      assert |TrimEnd(m.current)| < |m.current|;
      TrimEndBlank(m.current);
      assert !AllWhitespace(m.current);
    } else {
      TrimEndAppend(m.current, body);
      assert Trim(content)[|m.current|..] == TrimEnd(body);
      TrimBothWays(body);
    }
  }

  // ----- what the model still sees -----

  function LastCompactionIndex(rows: seq<StoredMessage>): (i: Option<nat>)
    ensures i.Some? ==> i.value < |rows| && IsSummary(rows[i.value])
  {
    if rows == [] then None
    else if IsSummary(rows[|rows| - 1]) then Some(|rows| - 1)
    else LastCompactionIndex(rows[..|rows| - 1])
  }

  function PreviousSummaryBody(m: Marks, rows: seq<StoredMessage>): Option<string> {
    match LastCompactionIndex(rows)
    case None => None
    case Some(i) =>
      var body := StripSummaryPrefix(m, rows[i].content);
      if body == "" then None else Some(body)
  }

  /** The rows that are not summaries. */
  function Conversation(rows: seq<StoredMessage>): seq<StoredMessage> {
    if rows == [] then []
    else
      var last := rows[|rows| - 1];
      Conversation(rows[..|rows| - 1]) + (if IsSummary(last) then [] else [last])
  }

  function Above(rows: seq<StoredMessage>, boundary: int): seq<StoredMessage> {
    if rows == [] then []
    else
      var last := rows[|rows| - 1];
      Above(rows[..|rows| - 1], boundary) + (if last.id > boundary then [last] else [])
  }

  function Below(rows: seq<StoredMessage>, boundary: int): seq<StoredMessage> {
    if rows == [] then []
    else
      var last := rows[|rows| - 1];
      Below(rows[..|rows| - 1], boundary) + (if last.id <= boundary then [last] else [])
  }

  function UncoveredRows(rows: seq<StoredMessage>): seq<StoredMessage> {
    match LastCompactionIndex(rows)
    case None => Conversation(rows)
    case Some(i) =>
      match rows[i].covers
      case Some(boundary) => Above(Conversation(rows), boundary)
      case None => Conversation(rows[i + 1..])
  }

  function ToPairs(rows: seq<StoredMessage>): (pairs: seq<(string, string)>)
    ensures |pairs| == |rows|
    ensures forall i :: 0 <= i < |rows| ==> pairs[i] == (rows[i].role, rows[i].content)
  {
    seq(|rows|, i requires 0 <= i < |rows| => (rows[i].role, rows[i].content))
  }

  function Ids(rows: seq<StoredMessage>): (ids: seq<int>)
    ensures |ids| == |rows|
    ensures forall i :: 0 <= i < |rows| ==> ids[i] == rows[i].id
  {
    seq(|rows|, i requires 0 <= i < |rows| => rows[i].id)
  }

  function EffectiveHistory(rows: seq<StoredMessage>): seq<(string, string)> {
    var head := match LastCompactionIndex(rows)
      case Some(i) => [(rows[i].role, rows[i].content)]
      case None => [];
    head + ToPairs(UncoveredRows(rows))
  }

  // ----- messages for the model -----

  datatype ToolCall = ToolCall(id: string, name: string, arguments: string)

  datatype Message = Message(
    role: string,
    text: string,
    toolCalls: Option<seq<ToolCall>>,
    toolCallId: Option<string>)

  function HistoryToConversation(rows: seq<(string, string)>): (ms: seq<Message>)
    ensures |ms| == |rows|
    ensures forall i :: 0 <= i < |rows| ==>
      && ms[i].role == (if rows[i].0 == COMPACTION then "user" else rows[i].0)
      && ms[i].text == rows[i].1 && ms[i].toolCalls == None
  {
    seq(|rows|, i requires 0 <= i < |rows| =>
      Message(if rows[i].0 == COMPACTION then "user" else rows[i].0, rows[i].1, None, None))
  }

  function CallSize(calls: seq<ToolCall>): nat {
    if calls == [] then 0
    else
      var last := calls[|calls| - 1];
      CallSize(calls[..|calls| - 1]) + ByteLen(last.name) + ByteLen(last.arguments)
  }

  function MessageSize(m: Message): nat {
    ByteLen(m.text) + (match m.toolCalls case Some(calls) => CallSize(calls) case None => 0) + ByteLen(m.role)
  }

  function TotalSize(ms: seq<Message>): nat {
    if ms == [] then 0 else TotalSize(ms[..|ms| - 1]) + MessageSize(ms[|ms| - 1])
  }

  /** Four bytes to a token, at least one token, cut to 32 bits. */
  function EstimateTokens(ms: seq<Message>): nat {
    Max(TotalSize(ms) / 4, 1) % 0x1_0000_0000
  }

  /** Everything a list of messages holds, in one text. */
  function Everything(ms: seq<Message>): string {
    if ms == [] then "" else Everything(ms[..|ms| - 1]) + Contents(ms[|ms| - 1])
  }

  function Contents(m: Message): string {
    m.role + m.text + (match m.toolCalls case Some(calls) => CallTexts(calls) case None => "")
  }

  function CallTexts(calls: seq<ToolCall>): string {
    if calls == [] then ""
    else CallTexts(calls[..|calls| - 1]) + calls[|calls| - 1].name + calls[|calls| - 1].arguments
  }

  lemma {:induction false} CallSizeIs(calls: seq<ToolCall>)
    ensures CallSize(calls) == ByteLen(CallTexts(calls))
  {
    if calls != [] {
      var front, last := calls[..|calls| - 1], calls[|calls| - 1];
      CallSizeIs(front);
      ByteAppend(CallTexts(front), last.name);
      ByteAppend(CallTexts(front) + last.name, last.arguments);
    }
  }

  lemma MessageSizeIs(m: Message)
    ensures MessageSize(m) == ByteLen(Contents(m))
  {
    ByteAppend(m.role, m.text);
    match m.toolCalls {
      case Some(calls) =>
        CallSizeIs(calls);
        ByteAppend(m.role + m.text, CallTexts(calls));
      case None => assert m.role + m.text + "" == m.role + m.text;
    }
  }

  lemma {:induction false} TotalSizeIs(ms: seq<Message>)
    ensures TotalSize(ms) == ByteLen(Everything(ms))
  {
    if ms != [] {
      var front, last := ms[..|ms| - 1], ms[|ms| - 1];
      TotalSizeIs(front);
      MessageSizeIs(last);
      ByteAppend(Everything(front), Contents(last));
    }
  }

  /** Up to sixteen gigabytes the estimate is a quarter of the bytes of everything the messages hold, rounded
      down, but at least one. */
  lemma EstimateIsAQuarter(ms: seq<Message>)
    requires ByteLen(Everything(ms)) < 4 * 0x1_0000_0000
    ensures var bytes, tokens := ByteLen(Everything(ms)), EstimateTokens(ms);
      tokens >= 1 && (tokens == 1 || 4 * tokens <= bytes) && bytes < 4 * tokens + 4
  {
    TotalSizeIs(ms);
    Quarter(TotalSize(ms));
  }

  lemma Quarter(bytes: nat)
    requires bytes < 4 * 0x1_0000_0000
    ensures var tokens := Max(bytes / 4, 1) % 0x1_0000_0000;
      tokens >= 1 && (tokens == 1 || 4 * tokens <= bytes) && bytes < 4 * tokens + 4
  {
    assert bytes / 4 < 0x1_0000_0000;
  }

  // ----- planning -----

  datatype Plan = Plan(toSummarize: seq<(string, string)>, covers: int, previousSummary: Option<string>)

  /** How many uncovered rows the next summary takes. */
  function PlanEnd(pending: nat, tailKeep: nat): nat {
    var keep := Max(tailKeep, 1);
    if pending < keep then 0 else pending - keep
  }

  function PlanCompaction(m: Marks, rows: seq<StoredMessage>, tailKeep: nat): Option<Plan> {
    var pending := UncoveredRows(rows);
    var end := PlanEnd(|pending|, tailKeep);
    if end < 2 then None
    else Some(Plan(ToPairs(pending[..end]), pending[end - 1].id, PreviousSummaryBody(m, rows)))
  }

  function SummaryRow(m: Marks, id: int, plan: Plan, body: string): StoredMessage {
    StoredMessage(id, COMPACTION, m.current + body, Some(plan.covers))
  }

  // ----- sorted logs -----

  /** Row ids grow: the table hands out ids in insertion order. */
  ghost predicate Sorted(rows: seq<StoredMessage>) {
    forall i, j :: 0 <= i < j < |rows| ==> rows[i].id < rows[j].id
  }

  lemma {:induction false} LastIndexBound(rows: seq<StoredMessage>)
    ensures LastCompactionIndex(rows).Some? ==>
              forall j :: LastCompactionIndex(rows).value < j < |rows| ==> !IsSummary(rows[j])
    ensures LastCompactionIndex(rows).None? ==> forall j :: 0 <= j < |rows| ==> !IsSummary(rows[j])
  {
    if rows != [] && !IsSummary(rows[|rows| - 1]) {
      LastIndexBound(rows[..|rows| - 1]);
    }
  }

  lemma {:induction false} ConversationMembers(rows: seq<StoredMessage>)
    ensures forall r :: r in Conversation(rows) ==> r in rows && !IsSummary(r)
    ensures |Conversation(rows)| <= |rows|
  {
    if rows != [] {
      ConversationMembers(rows[..|rows| - 1]);
    }
  }

  lemma {:induction false} ConversationSorted(rows: seq<StoredMessage>)
    requires Sorted(rows)
    ensures Sorted(Conversation(rows))
  {
    if rows != [] {
      ConversationSorted(rows[..|rows| - 1]);
      ConversationMembers(rows[..|rows| - 1]);
      var init := Conversation(rows[..|rows| - 1]);
      forall i | 0 <= i < |init| ensures init[i].id < rows[|rows| - 1].id {
        assert init[i] in rows[..|rows| - 1];
      }
    }
  }

  lemma {:induction false} ConversationAppend(a: seq<StoredMessage>, b: seq<StoredMessage>)
    ensures Conversation(a + b) == Conversation(a) + Conversation(b)
  {
    if b == [] {
      assert a + b == a;
    } else {
      assert (a + b)[..|a + b| - 1] == a + b[..|b| - 1];
      ConversationAppend(a, b[..|b| - 1]);
    }
  }

  lemma {:induction false} BelowCut(q: seq<StoredMessage>, k: nat, boundary: int)
    requires k <= |q|
    requires forall i :: 0 <= i < k ==> q[i].id <= boundary
    requires forall i :: k <= i < |q| ==> q[i].id > boundary
    ensures Below(q, boundary) == q[..k]
  {
    if k < |q| {
      BelowCut(q[..|q| - 1], k, boundary);
      assert q[..|q| - 1][..k] == q[..k];
    } else if k > 0 {
      BelowCut(q[..k - 1], k - 1, boundary);
      assert q[..k - 1][..k - 1] + [q[k - 1]] == q[..k];
    }
  }

  lemma {:induction false} AboveCut(q: seq<StoredMessage>, k: nat, boundary: int)
    requires k <= |q|
    requires forall i :: 0 <= i < k ==> q[i].id <= boundary
    requires forall i :: k <= i < |q| ==> q[i].id > boundary
    ensures Above(q, boundary) == q[k..]
  {
    if k < |q| {
      AboveCut(q[..|q| - 1], k, boundary);
      assert q[..|q| - 1][k..] + [q[|q| - 1]] == q[k..];
    } else if k > 0 {
      AboveCut(q[..k - 1], k - 1, boundary);
    }
  }

  /** A boundary cuts a log in two. */
  lemma CutAt(q: seq<StoredMessage>, k: nat, boundary: int)
    requires k <= |q|
    requires forall i :: 0 <= i < k ==> q[i].id <= boundary
    requires forall i :: k <= i < |q| ==> q[i].id > boundary
    ensures Below(q, boundary) == q[..k] && Above(q, boundary) == q[k..]
  {
    BelowCut(q, k, boundary);
    AboveCut(q, k, boundary);
  }

  lemma {:induction false} CutExists(q: seq<StoredMessage>, boundary: int) returns (k: nat)
    requires Sorted(q)
    ensures k <= |q|
    ensures forall i :: 0 <= i < k ==> q[i].id <= boundary
    ensures forall i :: k <= i < |q| ==> q[i].id > boundary
  {
    if q == [] {
      k := 0;
    } else if q[|q| - 1].id <= boundary {
      k := |q|;
    } else {
      k := CutExists(q[..|q| - 1], boundary);
    }
  }

  /** A row with a larger id changes nothing at or below a boundary. */
  lemma BelowGrows(rows: seq<StoredMessage>, r: StoredMessage, boundary: int)
    requires r.id > boundary
    ensures Below(Conversation(rows + [r]), boundary) == Below(Conversation(rows), boundary)
  {
    assert (rows + [r])[..|rows|] == rows;
    var c := Conversation(rows);
    if IsSummary(r) {
      assert Conversation(rows + [r]) == c;
    } else {
      assert (c + [r])[..|c|] == c;
      assert Below(c + [r], boundary) == Below(c, boundary) + [];
    }
  }

  /** The uncovered rows are always a tail of the conversation. */
  lemma UncoveredIsTail(rows: seq<StoredMessage>) returns (k: nat)
    requires Sorted(rows)
    ensures k <= |Conversation(rows)| && UncoveredRows(rows) == Conversation(rows)[k..]
    ensures LastCompactionIndex(rows).None? ==> k == 0
    ensures LastCompactionIndex(rows).Some? ==>
              var i := LastCompactionIndex(rows).value;
              rows[i].covers.Some? ==> Below(Conversation(rows), rows[i].covers.value) == Conversation(rows)[..k]
    ensures LastCompactionIndex(rows).Some? && rows[LastCompactionIndex(rows).value].covers.None? ==>
              k == |Conversation(rows[..LastCompactionIndex(rows).value])|
  {
    LastIndexBound(rows);
    ConversationSorted(rows);
    match LastCompactionIndex(rows) {
      case None => k := 0;
      case Some(i) =>
        match rows[i].covers {
          case Some(b) =>
            k := CutExists(Conversation(rows), b);
            CutAt(Conversation(rows), k, b);
          case None =>
            assert rows == rows[..i] + [rows[i]] + rows[i + 1..];
            ConversationAppend(rows[..i] + [rows[i]], rows[i + 1..]);
            ConversationAppend(rows[..i], [rows[i]]);
            assert Conversation([rows[i]]) == [];
            k := |Conversation(rows[..i])|;
        }
    }
  }

  // ----- what one plan does -----

  /** A plan is made exactly when at least two uncovered rows lie before the kept tail. It takes
      all of them up to that tail, the tail is the last max(tailKeep, 1) rows verbatim, and its
      boundary is the id of the last row it takes. */
  lemma PlanCoversAllButTail(m: Marks, rows: seq<StoredMessage>, tailKeep: nat)
    ensures PlanCompaction(m, rows, tailKeep).Some? <==> |UncoveredRows(rows)| >= Max(tailKeep, 1) + 2
    ensures PlanCompaction(m, rows, tailKeep).Some? ==>
              var p := PlanCompaction(m, rows, tailKeep).value;
              var pending := UncoveredRows(rows);
              var taken := |p.toSummarize|;
              && taken >= 2 && taken + Max(tailKeep, 1) == |pending|
              && p.toSummarize == ToPairs(pending)[..taken]
              && p.covers == pending[taken - 1].id
  {
  }

  lemma {:induction false} AboveMembers(q: seq<StoredMessage>, boundary: int)
    ensures forall r :: r in Above(q, boundary) ==> r.id > boundary
  {
    if q != [] {
      AboveMembers(q[..|q| - 1], boundary);
    }
  }

  lemma AboveBoundary(rows: seq<StoredMessage>, i: nat)
    requires LastCompactionIndex(rows) == Some(i) && rows[i].covers.Some?
    ensures forall r :: r in UncoveredRows(rows) ==> r.id > rows[i].covers.value
  {
    AboveMembers(Conversation(rows), rows[i].covers.value);
  }

  /** Where the uncovered rows begin: above the summary's boundary, or above a legacy summary row itself. */
  lemma UncoveredAbove(rows: seq<StoredMessage>, i: nat)
    requires Sorted(rows) && LastCompactionIndex(rows) == Some(i)
    ensures forall r :: r in UncoveredRows(rows) ==>
              r.id > (match rows[i].covers case Some(b) => b case None => rows[i].id)
  {
    if rows[i].covers.Some? {
      AboveBoundary(rows, i);
    } else {
      LaterIds(rows, i);
    }
  }

  lemma LaterIds(rows: seq<StoredMessage>, i: nat)
    requires Sorted(rows) && i < |rows|
    ensures forall r :: r in Conversation(rows[i + 1..]) ==> r.id > rows[i].id
  {
    ConversationMembers(rows[i + 1..]);
    assert forall r :: r in rows[i + 1..] ==> r.id > rows[i].id;
  }

  /** The new boundary is above the previous one, or above the legacy summary row itself. */
  lemma PlanAdvances(m: Marks, rows: seq<StoredMessage>, tailKeep: nat)
    requires Sorted(rows) && PlanCompaction(m, rows, tailKeep).Some?
    ensures LastCompactionIndex(rows).Some? ==>
              var last := rows[LastCompactionIndex(rows).value];
              var covers := PlanCompaction(m, rows, tailKeep).value.covers;
              covers > (match last.covers case Some(b) => b case None => last.id)
  {
    PlanCoversAllButTail(m, rows, tailKeep);
    var pending := UncoveredRows(rows);
    var r := pending[|PlanCompaction(m, rows, tailKeep).value.toSummarize| - 1];
    assert r in pending;
    if LastCompactionIndex(rows).Some? {
      UncoveredAbove(rows, LastCompactionIndex(rows).value);
    }
  }

  /** A plan takes some uncovered rows from the start, leaves some, and ends at the last it takes. */
  predicate TakesSome(rows: seq<StoredMessage>, p: Plan) {
    && 0 < |p.toSummarize| < |UncoveredRows(rows)|
    && p.covers == UncoveredRows(rows)[|p.toSummarize| - 1].id
  }

  lemma PlanShape(m: Marks, rows: seq<StoredMessage>, tailKeep: nat, p: Plan)
    requires PlanCompaction(m, rows, tailKeep) == Some(p)
    ensures TakesSome(rows, p)
  {
    PlanCoversAllButTail(m, rows, tailKeep);
  }

  lemma CutInside(rows: seq<StoredMessage>, n: nat, boundary: int)
    requires Sorted(rows) && 0 < n <= |Conversation(rows)| && Conversation(rows)[n - 1].id == boundary
    ensures Below(Conversation(rows), boundary) == Conversation(rows)[..n]
    ensures Above(Conversation(rows), boundary) == Conversation(rows)[n..]
  {
    ConversationSorted(rows);
    CutAt(Conversation(rows), n, boundary);
  }

  /** The boundary of a plan cuts the conversation right after the rows the plan takes. */
  lemma PlanCut(rows: seq<StoredMessage>, conv: seq<StoredMessage>, p: Plan, k: nat)
    requires Sorted(rows) && conv == Conversation(rows) && TakesSome(rows, p)
    requires k <= |conv| && UncoveredRows(rows) == conv[k..]
    ensures var n := k + |p.toSummarize|;
            && k < n < |conv| && conv[n - 1].id == p.covers
            && Below(conv, p.covers) == conv[..n] && Above(conv, p.covers) == conv[n..]
  {
    assert conv[k..][|p.toSummarize| - 1] == conv[k + |p.toSummarize| - 1];
    CutInside(rows, k + |p.toSummarize|, p.covers);
  }

  lemma TailOfTail(q: seq<StoredMessage>, k: nat, n: nat)
    requires k + n <= |q|
    ensures q[k..][n..] == q[k + n..]
  {
  }

  /** Once a summary row is appended, its boundary alone decides what is uncovered. */
  lemma SummaryDecides(m: Marks, rows: seq<StoredMessage>, id: int, p: Plan, body: string)
    ensures var rows' := rows + [SummaryRow(m, id, p, body)];
            && Conversation(rows') == Conversation(rows)
            && LastCompactionIndex(rows') == Some(|rows|)
            && UncoveredRows(rows') == Above(Conversation(rows), p.covers)
  {
    var rows' := rows + [SummaryRow(m, id, p, body)];
    assert rows'[..|rows|] == rows;
  }

  /** Committing a plan on the log it was made from leaves exactly its tail uncovered. */
  lemma CommitLeavesTail(m: Marks, rows: seq<StoredMessage>, tailKeep: nat, id: int, body: string)
    requires Sorted(rows) && PlanCompaction(m, rows, tailKeep).Some?
    ensures var p := PlanCompaction(m, rows, tailKeep).value;
            |p.toSummarize| <= |UncoveredRows(rows)|
            && UncoveredRows(rows + [SummaryRow(m, id, p, body)]) == UncoveredRows(rows)[|p.toSummarize|..]
  {
    var p := PlanCompaction(m, rows, tailKeep).value;
    SummaryDecides(m, rows, id, p, body);
    var k := UncoveredIsTail(rows);
    PlanShape(m, rows, tailKeep, p);
    PlanCut(rows, Conversation(rows), p, k);
    TailOfTail(Conversation(rows), k, |p.toSummarize|);
  }

  /** Planning again right after a commit with the same tail finds nothing to do. */
  lemma ReplanIsNone(m: Marks, rows: seq<StoredMessage>, tailKeep: nat, id: int, body: string)
    requires Sorted(rows) && PlanCompaction(m, rows, tailKeep).Some?
    ensures var p := PlanCompaction(m, rows, tailKeep).value;
            PlanCompaction(m, rows + [SummaryRow(m, id, p, body)], tailKeep) == None
  {
    CommitLeavesTail(m, rows, tailKeep, id, body);
    PlanCoversAllButTail(m, rows, tailKeep);
  }

  // ----- many writers -----

  /** A compaction between its plan and its commit; `sources` are the ids of the messages its
      summary is made from, directly or through the previous summary the plan quotes. */
  datatype InFlight = InFlight(plan: Plan, sources: seq<int>)

  datatype History = History(
    rows: seq<StoredMessage>,
    provenance: map<int, seq<int>>,  // by id of the summary row
    inFlight: seq<InFlight>)

  const EmptyHistory := History([], map[], [])

  datatype Write =
    | Append(row: StoredMessage)            // any writer of ordinary messages
    | PlanNext(tailKeep: nat)               // read the log and decide what to summarise
    | Commit(k: nat, id: int, body: string) // the summariser answered: append the summary row
    | GiveUp(k: nat)                        // the summariser failed

  predicate NextId(h: History, id: int) {
    forall i :: 0 <= i < |h.rows| ==> h.rows[i].id < id
  }

  predicate CanDo(m: Marks, h: History, w: Write) {
    match w
    case Append(row) => NextId(h, row.id) && !IsSummary(row)
    case PlanNext(tail) => PlanCompaction(m, h.rows, tail).Some?
    case Commit(k, id, body) => k < |h.inFlight| && NextId(h, id) && !Blank(body)
    case GiveUp(k) => k < |h.inFlight|
  }

  /** The messages behind the summary a plan quotes, if it quotes one. */
  function QuotedIds(h: History, p: Plan): seq<int> {
    match LastCompactionIndex(h.rows)
    case Some(i) => if p.previousSummary.Some? && h.rows[i].id in h.provenance then h.provenance[h.rows[i].id] else []
    case None => []
  }

  /** The messages a plan's summary will stand for: those it quotes and those it summarises itself. */
  function SourcesOf(h: History, p: Plan): seq<int> {
    QuotedIds(h, p) + Ids(UncoveredRows(h.rows)[..Min(|p.toSummarize|, |UncoveredRows(h.rows)|)])
  }

  function Do(m: Marks, h: History, w: Write): History
    requires CanDo(m, h, w)
  {
    match w
    case Append(row) => h.(rows := h.rows + [row])
    case PlanNext(tail) =>
      var p := PlanCompaction(m, h.rows, tail).value;
      h.(inFlight := h.inFlight + [InFlight(p, SourcesOf(h, p))])
    case Commit(k, id, body) =>
      History(h.rows + [SummaryRow(m, id, h.inFlight[k].plan, body)],
              h.provenance[id := h.inFlight[k].sources],
              h.inFlight[..k] + h.inFlight[k + 1..])
    case GiveUp(k) => h.(inFlight := h.inFlight[..k] + h.inFlight[k + 1..])
  }

  predicate ValidWrites(m: Marks, h: History, ws: seq<Write>)
    decreases ws
  {
    ws == [] || (CanDo(m, h, ws[0]) && ValidWrites(m, Do(m, h, ws[0]), ws[1..]))
  }

  function Written(m: Marks, h: History, ws: seq<Write>): History
    requires ValidWrites(m, h, ws)
    decreases ws
  {
    if ws == [] then h else Written(m, Do(m, h, ws[0]), ws[1..])
  }

  /** Everything at or below the boundary, once each and in order. */
  ghost predicate StandsFor(rows: seq<StoredMessage>, boundary: int, sources: seq<int>) {
    && (exists i :: 0 <= i < |rows| && rows[i].id == boundary)
    && sources == Ids(Below(Conversation(rows), boundary))
  }

  ghost predicate GoodSummary(m: Marks, h: History, r: StoredMessage) {
    && r.covers.Some? && r.id in h.provenance
    && (exists body :: !Blank(body) && r.content == m.current + body)
    && StandsFor(h.rows, r.covers.value, h.provenance[r.id])
  }

  ghost predicate HistoryInv(m: Marks, h: History) {
    && Sorted(h.rows)
    && (forall i :: 0 <= i < |h.rows| && IsSummary(h.rows[i]) ==> GoodSummary(m, h, h.rows[i]))
    && (forall i :: 0 <= i < |h.inFlight| ==> StandsFor(h.rows, h.inFlight[i].plan.covers, h.inFlight[i].sources))
  }

  /** What a summary stands for does not change when rows are added. */
  lemma StandsForGrows(rows: seq<StoredMessage>, r: StoredMessage, boundary: int, sources: seq<int>)
    requires StandsFor(rows, boundary, sources)
    requires forall i :: 0 <= i < |rows| ==> rows[i].id < r.id
    ensures StandsFor(rows + [r], boundary, sources)
  {
    var i :| 0 <= i < |rows| && rows[i].id == boundary;
    assert (rows + [r])[i].id == boundary;
    BelowGrows(rows, r, boundary);
  }

  lemma AppendKeeps(m: Marks, h: History, row: StoredMessage)
    requires HistoryInv(m, h) && CanDo(m, h, Append(row))
    ensures HistoryInv(m, Do(m, h, Append(row)))
  {
    var h' := Do(m, h, Append(row));
    forall i | 0 <= i < |h'.rows| && IsSummary(h'.rows[i]) ensures GoodSummary(m, h', h'.rows[i]) {
      assert GoodSummary(m, h, h.rows[i]);
      StandsForGrows(h.rows, row, h.rows[i].covers.value, h.provenance[h.rows[i].id]);
    }
    forall i | 0 <= i < |h.inFlight| ensures StandsFor(h'.rows, h.inFlight[i].plan.covers, h.inFlight[i].sources) {
      StandsForGrows(h.rows, row, h.inFlight[i].plan.covers, h.inFlight[i].sources);
    }
  }

  lemma GoodSummaryGrows(m: Marks, h: History, h': History, row: StoredMessage, r: StoredMessage)
    requires GoodSummary(m, h, r) && h'.rows == h.rows + [row] && NextId(h, row.id)
    requires r.id in h'.provenance && h'.provenance[r.id] == h.provenance[r.id]
    ensures GoodSummary(m, h', r)
  {
    StandsForGrows(h.rows, row, r.covers.value, h.provenance[r.id]);
  }

  lemma CommitKeeps(m: Marks, h: History, k: nat, id: int, body: string)
    requires HistoryInv(m, h) && CanDo(m, h, Commit(k, id, body))
    ensures HistoryInv(m, Do(m, h, Commit(k, id, body)))
  {
    var h' := Do(m, h, Commit(k, id, body));
    var row := h'.rows[|h.rows|];
    forall i | 0 <= i < |h'.rows| && IsSummary(h'.rows[i]) ensures GoodSummary(m, h', h'.rows[i]) {
      if i < |h.rows| {
        GoodSummaryGrows(m, h, h', row, h.rows[i]);
      } else {
        StandsForGrows(h.rows, row, h.inFlight[k].plan.covers, h.inFlight[k].sources);
      }
    }
    forall i | 0 <= i < |h.inFlight| ensures StandsFor(h'.rows, h.inFlight[i].plan.covers, h.inFlight[i].sources) {
      StandsForGrows(h.rows, row, h.inFlight[i].plan.covers, h.inFlight[i].sources);
    }
  }

  /** A summary row that follows the protocol reads back as a summary the next plan quotes. */
  lemma SummaryIsQuoted(m: Marks, h: History)
    requires RealMarks(m) && LastCompactionIndex(h.rows).Some?
    requires GoodSummary(m, h, h.rows[LastCompactionIndex(h.rows).value])
    ensures exists body :: !Blank(body)
              && h.rows[LastCompactionIndex(h.rows).value].content == m.current + body
              && PreviousSummaryBody(m, h.rows) == Some(Trim(body))
  {
    var last := h.rows[LastCompactionIndex(h.rows).value];
    var body :| !Blank(body) && last.content == m.current + body;
    SummaryRoundTrip(m, body);
  }

  lemma IdsSplit(q: seq<StoredMessage>, k: nat, n: nat)
    requires k + n <= |q|
    ensures Ids(q[..k]) + Ids(q[k..][..n]) == Ids(q[..k + n])
  {
  }

  lemma InConversation(rows: seq<StoredMessage>, k: nat)
    requires k < |Conversation(rows)|
    ensures exists i :: 0 <= i < |rows| && rows[i].id == Conversation(rows)[k].id
  {
    ConversationMembers(rows);
    var r := Conversation(rows)[k];
    assert r in Conversation(rows);
    var i :| 0 <= i < |rows| && rows[i] == r;
    assert rows[i].id == r.id;
  }

  /** What a plan quotes stands for everything below the rows it takes. */
  lemma QuotedSources(m: Marks, h: History, p: Plan, k: nat)
    requires RealMarks(m) && p.previousSummary == PreviousSummaryBody(m, h.rows)
    requires k + |p.toSummarize| <= |Conversation(h.rows)| && UncoveredRows(h.rows) == Conversation(h.rows)[k..]
    requires LastCompactionIndex(h.rows).None? ==> k == 0
    requires LastCompactionIndex(h.rows).Some? ==>
               var r := h.rows[LastCompactionIndex(h.rows).value];
               GoodSummary(m, h, r) && Below(Conversation(h.rows), r.covers.value) == Conversation(h.rows)[..k]
    ensures SourcesOf(h, p) == Ids(Conversation(h.rows)[..k + |p.toSummarize|])
  {
    IdsSplit(Conversation(h.rows), k, |p.toSummarize|);
    QuotedPart(m, h, p, k);
  }

  lemma QuotedPart(m: Marks, h: History, p: Plan, k: nat)
    requires RealMarks(m) && p.previousSummary == PreviousSummaryBody(m, h.rows) && k <= |Conversation(h.rows)|
    requires LastCompactionIndex(h.rows).None? ==> k == 0
    requires LastCompactionIndex(h.rows).Some? ==>
               var r := h.rows[LastCompactionIndex(h.rows).value];
               GoodSummary(m, h, r) && Below(Conversation(h.rows), r.covers.value) == Conversation(h.rows)[..k]
    ensures QuotedIds(h, p) == Ids(Conversation(h.rows)[..k])
  {
    if LastCompactionIndex(h.rows).Some? {
      SummaryIsQuoted(m, h);
    } else {
      assert Ids(Conversation(h.rows)[..0]) == [];
    }
  }

  /** A plan quotes the latest summary, so its sources are everything up to its own boundary. */
  lemma PlanSources(m: Marks, h: History, tailKeep: nat)
    requires RealMarks(m) && Sorted(h.rows) && PlanCompaction(m, h.rows, tailKeep).Some?
    requires LastCompactionIndex(h.rows).Some? ==> GoodSummary(m, h, h.rows[LastCompactionIndex(h.rows).value])
    ensures var p := PlanCompaction(m, h.rows, tailKeep).value; StandsFor(h.rows, p.covers, SourcesOf(h, p))
  {
    var p := PlanCompaction(m, h.rows, tailKeep).value;
    var k := UncoveredIsTail(h.rows);
    PlanShape(m, h.rows, tailKeep, p);
    PlanCut(h.rows, Conversation(h.rows), p, k);
    InConversation(h.rows, k + |p.toSummarize| - 1);
    PlanQuotes(m, h.rows, tailKeep);
    QuotedSources(m, h, p, k);
  }

  lemma PlanQuotes(m: Marks, rows: seq<StoredMessage>, tailKeep: nat)
    requires PlanCompaction(m, rows, tailKeep).Some?
    ensures PlanCompaction(m, rows, tailKeep).value.previousSummary == PreviousSummaryBody(m, rows)
  {
  }

  lemma PlanKeeps(m: Marks, h: History, tailKeep: nat)
    requires RealMarks(m) && HistoryInv(m, h) && CanDo(m, h, PlanNext(tailKeep))
    ensures HistoryInv(m, Do(m, h, PlanNext(tailKeep)))
  {
    PlanSources(m, h, tailKeep);
    var h' := Do(m, h, PlanNext(tailKeep));
    forall i | 0 <= i < |h'.rows| && IsSummary(h'.rows[i]) ensures GoodSummary(m, h', h'.rows[i]) {
      assert GoodSummary(m, h, h.rows[i]);
    }
  }

  lemma WriteKeeps(m: Marks, h: History, w: Write)
    requires RealMarks(m) && HistoryInv(m, h) && CanDo(m, h, w)
    ensures HistoryInv(m, Do(m, h, w))
  {
    match w {
      case Append(row) => AppendKeeps(m, h, row);
      case PlanNext(tail) => PlanKeeps(m, h, tail);
      case Commit(k, id, body) => CommitKeeps(m, h, k, id, body);
      case GiveUp(k) =>
    }
  }

  lemma {:induction false} WritesKeep(m: Marks, h: History, ws: seq<Write>)
    requires RealMarks(m) && HistoryInv(m, h) && ValidWrites(m, h, ws)
    ensures HistoryInv(m, Written(m, h, ws))
    decreases ws
  {
    if ws != [] {
      WriteKeeps(m, h, ws[0]);
      WritesKeep(m, Do(m, h, ws[0]), ws[1..]);
    }
  }

  /** The summary the model sees stands for exactly the messages it does not see. */
  ghost predicate Complete(h: History) {
    match LastCompactionIndex(h.rows)
    case None => EffectiveHistory(h.rows) == ToPairs(Conversation(h.rows))
    case Some(i) =>
      var shown := UncoveredRows(h.rows);
      && EffectiveHistory(h.rows) == [(COMPACTION, h.rows[i].content)] + ToPairs(shown)
      && h.rows[i].covers.Some? && h.rows[i].id in h.provenance
      && h.provenance[h.rows[i].id] == Ids(Below(Conversation(h.rows), h.rows[i].covers.value))
      && h.provenance[h.rows[i].id] + Ids(shown) == Ids(Conversation(h.rows))
  }

  lemma IdsWhole(q: seq<StoredMessage>, k: nat)
    requires k <= |q|
    ensures Ids(q[..k]) + Ids(q[k..]) == Ids(q)
  {
  }

  lemma GoodSummaryComplete(m: Marks, h: History)
    requires Sorted(h.rows)
    requires LastCompactionIndex(h.rows).Some? ==> GoodSummary(m, h, h.rows[LastCompactionIndex(h.rows).value])
    ensures Complete(h)
  {
    var conv := Conversation(h.rows);
    var k := UncoveredIsTail(h.rows);
    if LastCompactionIndex(h.rows).None? {
      assert [] + ToPairs(conv) == ToPairs(conv);
    } else {
      IdsWhole(conv, k);
    }
  }

  /** Over every run, however many compactions were in flight: the latest summary was built,
      through its chain of previous summaries, from exactly the messages at or below its
      boundary, and the model sees it followed by exactly the others, all in id order. */
  lemma NothingLost(m: Marks, ws: seq<Write>)
    requires RealMarks(m) && ValidWrites(m, EmptyHistory, ws)
    ensures Complete(Written(m, EmptyHistory, ws))
  {
    WritesKeep(m, EmptyHistory, ws);
    GoodSummaryComplete(m, Written(m, EmptyHistory, ws));
  }

  // ----- when the boundary goes back -----

  /** Everything up to here is behind the latest summary. */
  function Boundary(rows: seq<StoredMessage>): Option<int> {
    match LastCompactionIndex(rows)
    case None => None
    case Some(i) => rows[i].covers
  }

  lemma CommitSetsBoundary(m: Marks, h: History, k: nat, id: int, body: string)
    requires CanDo(m, h, Commit(k, id, body))
    ensures Boundary(Do(m, h, Commit(k, id, body)).rows) == Some(h.inFlight[k].plan.covers)
  {
    SummaryDecides(m, h.rows, id, h.inFlight[k].plan, body);
  }

  /** A commit moves the boundary back exactly when its plan reaches less far than the latest summary;
      the messages in between are then shown again rather than lost. */
  lemma BoundaryGoesBackIff(m: Marks, h: History, k: nat, id: int, body: string)
    requires HistoryInv(m, h) && CanDo(m, h, Commit(k, id, body)) && LastCompactionIndex(h.rows).Some?
    ensures var h', i := Do(m, h, Commit(k, id, body)), LastCompactionIndex(h.rows).value;
            && h.rows[i].covers.Some? && Boundary(h'.rows).Some?
            && (Boundary(h'.rows).value < Boundary(h.rows).value
                <==> h.inFlight[k].plan.covers < h.rows[i].covers.value)
            && Complete(h')
  {
    var i := LastCompactionIndex(h.rows).value;
    assert GoodSummary(m, h, h.rows[i]);
    CommitSetsBoundary(m, h, k, id, body);
    CommitKeeps(m, h, k, id, body);
    GoodSummaryComplete(m, Do(m, h, Commit(k, id, body)));
  }

  predicate NoCommits(ws: seq<Write>) {
    forall i :: 0 <= i < |ws| ==> !ws[i].Commit?
  }

  lemma {:induction false} BoundaryStays(m: Marks, h: History, ws: seq<Write>)
    requires ValidWrites(m, h, ws) && NoCommits(ws)
    ensures Boundary(Written(m, h, ws).rows) == Boundary(h.rows)
    decreases ws
  {
    if ws != [] {
      var h' := Do(m, h, ws[0]);
      if ws[0].Append? {
        assert h'.rows[..|h.rows|] == h.rows;
      }
      BoundaryStays(m, h', ws[1..]);
    }
  }

  /** If nobody commits between a plan and its own commit, the boundary moves forward. */
  lemma BoundaryAdvances(m: Marks, h: History, tailKeep: nat, ws: seq<Write>, k: nat, id: int, body: string)
    requires Sorted(h.rows) && CanDo(m, h, PlanNext(tailKeep)) && NoCommits(ws)
    requires ValidWrites(m, Do(m, h, PlanNext(tailKeep)), ws)
    requires CanDo(m, Written(m, Do(m, h, PlanNext(tailKeep)), ws), Commit(k, id, body))
    requires Written(m, Do(m, h, PlanNext(tailKeep)), ws).inFlight[k].plan
          == PlanCompaction(m, h.rows, tailKeep).value
    ensures var before := Written(m, Do(m, h, PlanNext(tailKeep)), ws);
            var after := Do(m, before, Commit(k, id, body));
            && Boundary(after.rows).Some?
            && (Boundary(before.rows).Some? ==> Boundary(before.rows).value < Boundary(after.rows).value)
  {
    var before := Written(m, Do(m, h, PlanNext(tailKeep)), ws);
    BoundaryStays(m, Do(m, h, PlanNext(tailKeep)), ws);
    PlanAdvances(m, h.rows, tailKeep);
    CommitSetsBoundary(m, before, k, id, body);
  }

  lemma {:induction false} WrittenAppend(m: Marks, h: History, ws: seq<Write>, more: seq<Write>)
    requires ValidWrites(m, h, ws) && ValidWrites(m, Written(m, h, ws), more)
    ensures ValidWrites(m, h, ws + more)
    ensures Written(m, h, ws + more) == Written(m, Written(m, h, ws), more)
    decreases ws
  {
    if ws == [] {
      assert ws + more == more;
    } else {
      assert (ws + more)[0] == ws[0] && (ws + more)[1..] == ws[1..] + more;
      WrittenAppend(m, Do(m, h, ws[0]), ws[1..], more);
    }
  }

  lemma WrittenOne(m: Marks, h: History, ws: seq<Write>, w: Write)
    requires ValidWrites(m, h, ws) && CanDo(m, Written(m, h, ws), w)
    ensures ValidWrites(m, h, ws + [w]) && Written(m, h, ws + [w]) == Do(m, Written(m, h, ws), w)
  {
    var g := Written(m, h, ws);
    assert [w][1..] == [] && ValidWrites(m, Do(m, g, w), []);
    WrittenAppend(m, h, ws, [w]);
  }

  /** One history grows into another by the writes of compactors and other writers. */
  ghost predicate Extends(m: Marks, h: History, later: History) {
    exists ws :: ValidWrites(m, h, ws) && later == Written(m, h, ws)
  }

  lemma ExtendsSame(m: Marks, h: History)
    ensures Extends(m, h, h)
  {
    assert ValidWrites(m, h, []) && Written(m, h, []) == h;
  }

  lemma ExtendsOn(m: Marks, h: History, mid: History, ws: seq<Write>)
    requires Extends(m, h, mid) && ValidWrites(m, mid, ws)
    ensures Extends(m, h, Written(m, mid, ws))
  {
    var first :| ValidWrites(m, h, first) && mid == Written(m, h, first);
    WrittenAppend(m, h, first, ws);
  }

  lemma ExtendsTrans(m: Marks, h: History, mid: History, later: History)
    requires Extends(m, h, mid) && Extends(m, mid, later)
    ensures Extends(m, h, later)
  {
    var ws :| ValidWrites(m, mid, ws) && later == Written(m, mid, ws);
    ExtendsOn(m, h, mid, ws);
  }

  lemma ExtendsOne(m: Marks, h: History, mid: History, w: Write)
    requires Extends(m, h, mid) && CanDo(m, mid, w)
    ensures Extends(m, h, Do(m, mid, w))
  {
    var ws :| ValidWrites(m, h, ws) && mid == Written(m, h, ws);
    WrittenOne(m, h, ws, w);
  }

  lemma {:induction false} OnlyMessages(rows: seq<StoredMessage>)
    requires forall i :: 0 <= i < |rows| ==> !IsSummary(rows[i])
    ensures Conversation(rows) == rows && UncoveredRows(rows) == rows
  {
    if rows != [] {
      OnlyMessages(rows[..|rows| - 1]);
      assert rows == rows[..|rows| - 1] + [rows[|rows| - 1]];
    }
  }

  predicate Numbered(rows: seq<StoredMessage>) {
    forall i :: 0 <= i < |rows| ==> rows[i].id == i + 1 && !IsSummary(rows[i])
  }

  lemma {:induction false} WriteMessages(m: Marks, n: nat) returns (ws: seq<Write>)
    ensures ValidWrites(m, EmptyHistory, ws)
    ensures var h := Written(m, EmptyHistory, ws); |h.rows| == n && Numbered(h.rows) && h.inFlight == []
  {
    ws := [];
    if n > 0 {
      ws := WriteMessages(m, n - 1);
      var row := StoredMessage(n, "user", "hello", None);
      WrittenOne(m, EmptyHistory, ws, Append(row));
      ws := ws + [Append(row)];
    }
  }

  lemma PlanOfMessages(m: Marks, rows: seq<StoredMessage>, tailKeep: nat)
    requires Numbered(rows) && tailKeep >= 1 && tailKeep + 2 <= |rows|
    ensures PlanCompaction(m, rows, tailKeep).Some?
    ensures PlanCompaction(m, rows, tailKeep).value.covers == |rows| - tailKeep
  {
    OnlyMessages(rows);
  }

  /** The empty log grows into one with two plans in flight, the first reaching less far. */
  lemma TwoPlansInFlight(m: Marks) returns (ws: seq<Write>)
    ensures ValidWrites(m, EmptyHistory, ws)
    ensures var h := Written(m, EmptyHistory, ws);
            |h.rows| == 5 && Numbered(h.rows) && |h.inFlight| == 2
            && h.inFlight[0].plan.covers == 2 && h.inFlight[1].plan.covers == 4
  {
    ws := WriteMessages(m, 5);
    var h := Written(m, EmptyHistory, ws);
    PlanOfMessages(m, h.rows, 3);
    WrittenOne(m, EmptyHistory, ws, PlanNext(3));
    ws := ws + [PlanNext(3)];
    PlanOfMessages(m, h.rows, 1);
    WrittenOne(m, EmptyHistory, ws, PlanNext(1));
    ws := ws + [PlanNext(1)];
  }

  /** Committed in the other order, they take the boundary from 4 back to 2. */
  lemma BoundaryCanGoBack(m: Marks) returns (ws: seq<Write>, last: Write)
    ensures ValidWrites(m, EmptyHistory, ws) && CanDo(m, Written(m, EmptyHistory, ws), last)
    ensures var h := Written(m, EmptyHistory, ws);
            Boundary(h.rows) == Some(4) && Boundary(Do(m, h, last).rows) == Some(2)
  {
    ws := TwoPlansInFlight(m);
    var h := Written(m, EmptyHistory, ws);
    var second := Commit(1, 6, "x");
    BlankIff("x");
    WrittenOne(m, EmptyHistory, ws, second);
    CommitSetsBoundary(m, h, 1, 6, "x");
    ws := ws + [second];
    last := Commit(0, 7, "x");
    CommitSetsBoundary(m, Do(m, h, second), 0, 7, "x");
  }

  // ----- the compactor as a writer -----

  /** A compaction on its own account; without a summary it is an error. */
  datatype Attempt = NotNeeded | Summarized | NoSummary

  /** What the compactor asks of a history before it calls the summariser. */
  predicate CompactionDue(rows: seq<StoredMessage>, enabled: bool, threshold: nat, keepRecent: nat) {
    && enabled && |rows| >= 6
    && EstimateTokens(HistoryToConversation(EffectiveHistory(rows))) > threshold
    && |UncoveredRows(rows)| >= Max(Min(keepRecent, |rows|), 1) + 2
  }

  /** One session's messages, with the ids the table hands out. */
  class MessageTable {
    var rows: seq<StoredMessage>
    var lastId: int
    const marks: Marks

    ghost predicate Valid()
      reads this
    {
      Sorted(rows) && forall i :: 0 <= i < |rows| ==> rows[i].id <= lastId
    }

    constructor (m: Marks)
      ensures Valid() && rows == [] && marks == m
    {
      rows, lastId, marks := [], 0, m;
    }

    /** `gap` ids go to other sessions first: the counter is shared by the whole table. */
    method InsertMessage(role: string, content: string, covers: Option<int>, gap: nat)
      requires Valid()
      modifies this
      ensures Valid() && lastId == old(lastId) + gap + 1
      ensures rows == old(rows) + [StoredMessage(lastId, role, content, covers)]
    {
      lastId := lastId + gap + 1;
      rows := rows + [StoredMessage(lastId, role, content, covers)];
    }

    /** `summary` is what the summariser answers; it never answers with a blank text. */
    method RunCompaction(plan: Plan, summary: Option<string>, gap: nat) returns (ok: bool)
      requires Valid()
      modifies this
      ensures Valid() && (ok <==> summary.Some?)
      ensures ok ==> rows == old(rows) + [SummaryRow(marks, lastId, plan, summary.value)]
      ensures !ok ==> rows == old(rows)
    {
      if summary == None {
        return false;
      }
      InsertMessage(COMPACTION, marks.current + summary.value, Some(plan.covers), gap);
      return true;
    }

    /** Compacts a long history. When it does, the last max(keepRecent, 1) messages stay verbatim
        and doing it again at once would find nothing to do. */
    method MaybeCompact(enabled: bool, threshold: nat, keepRecent: nat, summary: Option<string>, gap: nat)
      returns (r: Attempt)
      requires Valid()
      modifies this
      ensures Valid()
      ensures r == if !CompactionDue(old(rows), enabled, threshold, keepRecent) then NotNeeded
                   else if summary.None? then NoSummary else Summarized
      ensures !r.Summarized? ==> rows == old(rows)
      ensures r.Summarized? ==>
        var keep := Max(Min(keepRecent, |old(rows)|), 1);
        var pending := UncoveredRows(old(rows));
        && |rows| == |old(rows)| + 1 && rows[..|old(rows)|] == old(rows)
        && UncoveredRows(rows) == pending[|pending| - keep..]
        && PlanCompaction(marks, rows, Min(keepRecent, |old(rows)|)) == None
    {
      if !enabled || |rows| < 6 {
        return NotNeeded;
      }
      var tokens := EstimateTokens(HistoryToConversation(EffectiveHistory(rows)));
      if tokens <= threshold {
        return NotNeeded;
      }
      var tailKeep := Min(keepRecent, |rows|);
      PlanCoversAllButTail(marks, rows, tailKeep);
      match PlanCompaction(marks, rows, tailKeep) {
        case None => return NotNeeded;
        case Some(plan) =>
          if summary.Some? {
            ReplanIsNone(marks, rows, tailKeep, lastId + gap + 1, summary.value);
            CommitLeavesTail(marks, rows, tailKeep, lastId + gap + 1, summary.value);
          }
          var ok := RunCompaction(plan, summary, gap);
          return if ok then Summarized else NoSummary;
      }
    }

    /** The `/compact` command: no threshold, but at least two messages are kept. */
    method ForceCompact(keepRecent: nat, summary: Option<string>, gap: nat) returns (compacted: bool)
      requires Valid()
      modifies this
      ensures Valid()
      ensures compacted <==>
        summary.Some? && |UncoveredRows(old(rows))| >= Max(Min(keepRecent, |old(rows)|), 2) + 2
      ensures !compacted ==> rows == old(rows)
      ensures compacted ==>
        var keep := Max(Min(keepRecent, |old(rows)|), 2);
        var pending := UncoveredRows(old(rows));
        UncoveredRows(rows) == pending[|pending| - keep..]
    {
      compacted := false;
      if |rows| < 2 {
        UncoveredBound(rows);
        return;
      }
      var tailKeep := Max(Min(keepRecent, |rows|), 2);
      PlanCoversAllButTail(marks, rows, tailKeep);
      match PlanCompaction(marks, rows, tailKeep) {
        case None => return;
        case Some(plan) =>
          if summary.Some? {
            CommitLeavesTail(marks, rows, tailKeep, lastId + gap + 1, summary.value);
          }
          compacted := RunCompaction(plan, summary, gap);
      }
    }
  }

  lemma UncoveredBound(rows: seq<StoredMessage>)
    requires Sorted(rows)
    ensures |UncoveredRows(rows)| <= |rows|
  {
    var k := UncoveredIsTail(rows);
    ConversationMembers(rows);
  }
}
