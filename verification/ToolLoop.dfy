/**
  The bounded model/tool loop of one turn.

  The model, the tools, cancellation and the compactor answer arbitrarily: each is a method about whose
  result nothing is known but that a token stays cancelled and that a session's log changes only by the
  writes of `Compaction`, so what is proved holds for every behaviour they can have.
*/
module ToolLoop {
  import opened Options
  import opened Text
  import opened Compaction
  import opened Numbers
  import Sanitize

  datatype TurnMode = Parent | Child

  /** How a turn ends. */
  datatype Outcome =
    | Failed
    | Interrupted
    | Complete(hitIterationLimit: bool)

  // ----- what the outside answers -----

  datatype ChatResult = Reply(message: Message) | ChatInterrupted | ChatError

  /** What a tool came to, and the turn's flag after the call. */
  datatype Answer = Answer(body: string, exitCode: int, executed: bool)

  datatype ToolResult = ToolDone(answer: Answer) | ToolInterrupted | ToolError

  /** The turn's token: once cancelled it stays so. */
  method CancelledNow(before: bool) returns (cancelled: bool, ghost trouble: Option<Outcome>)
    ensures (before ==> cancelled) && trouble == if cancelled then Some(Interrupted) else None
  {
    cancelled := *;
    cancelled := before || cancelled;
    trouble := if cancelled then Some(Interrupted) else None;
  }

  datatype Budget = WithinBudget | Summarized | BudgetError

  /** Whether the session was compacted, and its log as it stands afterwards: other writers may have
      appended, and compactions of their own been committed. */
  method MaybeCompactSession(m: Marks, log: History)
    returns (r: Budget, later: History, ghost trouble: Option<Outcome>)
    ensures Extends(m, log, later) && trouble == if r.BudgetError? then Some(Failed) else None
  {
    r, later := *, log;
    ExtendsSame(m, log);
    var ws: seq<Write> := *;
    if ValidWrites(m, log, ws) {
      ExtendsOn(m, log, log, ws);
      later := Written(m, log, ws);
    }
    trouble := if r.BudgetError? then Some(Failed) else None;
  }

  // ----- messages -----

  function UserMessage(text: string): Message {
    Message("user", text, None, None)
  }

  function SystemMessage(text: string): Message {
    Message("system", text, None, None)
  }

  function ToolResultMessage(id: string, body: string): Message {
    Message("tool", body, None, Some(id))
  }

  /** A system message followed by what the model still sees of a log. */
  function SystemAndHistory(system: Message, rows: seq<StoredMessage>): seq<Message> {
    [system] + HistoryToConversation(EffectiveHistory(rows))
  }

  lemma NoCallsShown(system: Message, rows: seq<StoredMessage>)
    requires system.toolCalls == None
    ensures var ms := SystemAndHistory(system, rows); forall i :: 0 <= i < |ms| ==> ms[i].toolCalls == None
  {
  }

  function CallsOf(m: Message): seq<ToolCall> {
    match m.toolCalls
    case Some(calls) => calls
    case None => []
  }

  /** The `n` results after position `i` answer the first `n` calls made there, in order. */
  predicate Answers(q: seq<Message>, i: nat, n: nat) {
    && i + n < |q| && n <= |CallsOf(q[i])|
    && forall j :: i < j <= i + n ==> q[j].role == "tool" && q[j].toolCallId == Some(CallsOf(q[i])[j - i - 1].id)
  }

  /** Every tool call is answered at once, one result per call, in call order, with matching ids. */
  predicate Answered(q: seq<Message>) {
    forall i :: 0 <= i < |q| ==> Answers(q, i, |CallsOf(q[i])|)
  }

  /** A prefix without tool calls can be put in front of an answered list. */
  lemma AnsweredPrefix(base: seq<Message>, q: seq<Message>)
    requires Answered(q) && forall i :: 0 <= i < |base| ==> base[i].toolCalls == None
    ensures Answered(base + q)
  {
    var r := base + q;
    forall i | 0 <= i < |r| ensures Answers(r, i, |CallsOf(r[i])|) {
      if i >= |base| {
        var j := i - |base|;
        assert Answers(q, j, |CallsOf(q[j])|);
        assert forall x :: |base| <= x < |r| ==> r[x] == q[x - |base|];
      }
    }
  }

  // ----- final texts -----

  const FINISHED_WITHOUT_TEXT := "(model finished without a text response)"
  const ACTION_REQUIRED_NUDGE :=
    "The user's request requires real tool output. "
    + "You replied without calling exec, schedule, or a configured MCP tool. "
    + "Call the appropriate tool now, then answer using only that output."
  const SUMMARY_RESPONSE_NUDGE :=
    "Reply to the user in plain language. "
    + "Summarize what you accomplished using tool output already in this conversation. "
    + "Include concrete results, errors, and next steps. Call a tool only if something is still missing."

  /** What the loop says to the model on its own account. */
  datatype Wording = Wording(
    actionRequired: string,
    summaryResponse: string,
    finished: string,
    limitWords: string,
    limitText: nat -> string,
    limitSuffix: nat -> string)

  const WORDING := Wording(ACTION_REQUIRED_NUDGE, SUMMARY_RESPONSE_NUDGE, FINISHED_WITHOUT_TEXT, "tool step limit",
                           StepLimitText, StepLimitSuffix)

  function RetryNudge(w: Wording, required: bool): string {
    if required then w.actionRequired else w.summaryResponse
  }

  /** Asked again, the model is told to use a tool exactly if one is still required, else to sum up. */
  lemma NudgeAsks(w: Wording, required: bool)
    requires w.actionRequired != w.summaryResponse
    ensures RetryNudge(w, required) == w.actionRequired <==> required
    ensures RetryNudge(w, required) == w.summaryResponse <==> !required
  {
  }

  function StepLimitAdvice(): string {
    " before producing a final reply. Ask to continue or narrow the task."
  }

  function StepLimitText(max: nat): string {
    "Reached the tool step " + ("limit (" + Decimal(max) + ")") + StepLimitAdvice()
  }

  function StepLimitHint(): string {
    " tool limit; partial progress may be in tool output above.)"
  }

  function StepLimitSuffix(max: nat): string {
    "\n\n(Reached " + ("the " + Decimal(max) + "-step") + StepLimitHint()
  }

  function WithSources(text: string, lines: Option<string>): string {
    match lines
    case None => text
    case Some(l) => TrimEnd(text) + "\n\n## Sources\n\n" + l
  }

  /** What a turn reports for the text the model left it with. */
  function Reported(w: Wording, mode: TurnMode, hitIterationLimit: bool, max: nat, text: string): string {
    if Blank(text) then
      if hitIterationLimit then w.limitText(max) else w.finished
    else if hitIterationLimit && mode == Parent && !Contains(text, w.limitWords) then
      text + w.limitSuffix(max)
    else text
  }

  /** With the sources footer a parent turn adds, if it has lines to add to that text. */
  function Settled(s: Settings, mode: TurnMode, hitIterationLimit: bool, max: nat, text: string): string {
    var reported := Reported(s.wording, mode, hitIterationLimit, max, text);
    if mode == Parent then WithSources(reported, s.footer(reported)) else reported
  }

  /** The texts that stand in for a missing one say something. */
  ghost predicate SaysSomething(w: Wording) {
    !Blank(w.finished) && forall max :: !Blank(w.limitText(max))
  }

  lemma NotBlank(s: string, i: nat)
    requires i < |s| && !IsWhitespace(s[i])
    ensures !Blank(s)
  {
    BlankIff(s);
  }

  lemma WordingSaysSomething()
    ensures SaysSomething(WORDING)
  {
    NotBlank(FINISHED_WITHOUT_TEXT, 0);
    forall max ensures !Blank(WORDING.limitText(max)) {
      NotBlank(StepLimitText(max), 0);
    }
  }

  lemma SuffixNotBlank(text: string, suffix: string)
    requires !Blank(text)
    ensures !Blank(text + suffix)
  {
    BlankIff(text);
    var i :| 0 <= i < |text| && !IsWhitespace(text[i]);
    assert (text + suffix)[i] == text[i];
    NotBlank(text + suffix, i);
  }

  lemma ReportedNotBlank(w: Wording, mode: TurnMode, hitIterationLimit: bool, max: nat, text: string)
    requires SaysSomething(w)
    ensures !Blank(Reported(w, mode, hitIterationLimit, max, text))
  {
    if !Blank(text) {
      SuffixNotBlank(text, w.limitSuffix(max));
    }
  }

  // ----- what the report says -----

  lemma ContainsPart(a: string, part: string, b: string)
    ensures Contains(a + part + b, part)
  {
    var s := a + part + b;
    assert s[|a|..|a| + |part|] == part;
    assert OccursAt(s, part, |a|);
  }

  lemma ContainsStill(a: string, s: string, part: string)
    requires Contains(s, part)
    ensures Contains(a + s, part)
  {
    var i: nat :| i <= |s| && OccursAt(s, part, i);
    assert (a + s)[|a| + i..|a| + i + |part|] == s[i..i + |part|];
    assert OccursAt(a + s, part, |a| + i);
  }

  /** A text names the limit, in one of the two ways the loop does. */
  predicate NamesLimit(s: string, max: nat) {
    Contains(s, "limit (" + Decimal(max) + ")") || Contains(s, "the " + Decimal(max) + "-step")
  }

  lemma LimitTextNames(max: nat)
    ensures NamesLimit(StepLimitText(max), max)
  {
    ContainsPart("Reached the tool step ", "limit (" + Decimal(max) + ")", StepLimitAdvice());
  }

  lemma SuffixNames(text: string, max: nat)
    ensures NamesLimit(text + StepLimitSuffix(max), max)
  {
    ContainsPart("\n\n(Reached ", "the " + Decimal(max) + "-step", StepLimitHint());
    ContainsStill(text, StepLimitSuffix(max), "the " + Decimal(max) + "-step");
  }

  /**
   * The model's text always comes first and is all there is, unless the turn ran into its limit of iterations; the
   * report then names that limit, except in a child turn that has a text and where the text speaks of it already.
   */
  lemma ReportSays(mode: TurnMode, hitIterationLimit: bool, max: nat, text: string)
    ensures var r := Reported(WORDING, mode, hitIterationLimit, max, text);
      && (!Blank(text) ==> text <= r && (r == text <==>
            !hitIterationLimit || mode == Child || Contains(text, "tool step limit")))
      && (r != text && hitIterationLimit ==> NamesLimit(r, max))
      && (Blank(text) && !hitIterationLimit ==> r == "(model finished without a text response)")
  {
    LimitTextNames(max);
    SuffixNames(text, max);
  }

  lemma SettledNotBlank(s: Settings, mode: TurnMode, hitIterationLimit: bool, max: nat, text: string)
    requires SaysSomething(s.wording)
    ensures !Blank(Settled(s, mode, hitIterationLimit, max, text))
  {
    ReportedNotBlank(s.wording, mode, hitIterationLimit, max, text);
    var reported := Reported(s.wording, mode, hitIterationLimit, max, text);
    SourcesNotBlank(reported, s.footer(reported));
  }

  lemma TrimEndGrows(a: string, b: string)
    ensures TrimEnd(a) <= TrimEnd(a + b)
  {
    TrimEndSplits(a);
    TrimEndBlank(b);
    if TrimEnd(b) == "" {
      TrimEndAppendSpace(a, b);
    } else {
      TrimEndAppend(a, b);
    }
  }

  lemma ReportKeeps(w: Wording, mode: TurnMode, hitIterationLimit: bool, max: nat, text: string)
    requires !Blank(text)
    ensures TrimEnd(text) <= TrimEnd(Reported(w, mode, hitIterationLimit, max, text))
  {
    TrimEndGrows(text, w.limitSuffix(max));
  }

  /** What is said begins with the model's text, if there is one. A parent turn ends with its sources, and a turn
      without sources, or a child's, is just what was reported. */
  lemma SettledSays(s: Settings, mode: TurnMode, hitIterationLimit: bool, max: nat, text: string)
    ensures var r, said := Reported(s.wording, mode, hitIterationLimit, max, text),
                           Settled(s, mode, hitIterationLimit, max, text);
      && (!Blank(text) ==> TrimEnd(text) <= said)
      && (if mode == Parent && s.footer(r).Some? then
            TrimEnd(r) <= said && |s.footer(r).value| <= |said|
            && said[|said| - |s.footer(r).value|..] == s.footer(r).value
          else said == r)
  {
    TrimEndSplits(Reported(s.wording, mode, hitIterationLimit, max, text));
    if !Blank(text) {
      ReportKeeps(s.wording, mode, hitIterationLimit, max, text);
    }
  }

  lemma SourcesNotBlank(text: string, lines: Option<string>)
    requires !Blank(text)
    ensures !Blank(WithSources(text, lines))
  {
    if lines.Some? {
      var s := WithSources(text, lines);
      assert s[|TrimEnd(text)| + 2] == '#';
      NotBlank(s, |TrimEnd(text)| + 2);
    }
  }

  // ----- what a rebuilt context shows -----

  /** The system prompt, then everything said in the session: the latest summary stands for exactly
      the messages that do not follow it. */
  ghost predicate ShowsSession(m: Marks, log: History, system: Message, b: seq<Message>) {
    exists h :: Extends(m, log, h) && b == SystemAndHistory(system, h.rows) && Compaction.Complete(h)
  }

  lemma ShowsWhole(m: Marks, log: History, system: Message, h: History)
    requires RealMarks(m) && Extends(m, EmptyHistory, log) && Extends(m, log, h)
    ensures ShowsSession(m, log, system, SystemAndHistory(system, h.rows))
  {
    ExtendsTrans(m, EmptyHistory, log, h);
    var ws :| ValidWrites(m, EmptyHistory, ws) && h == Written(m, EmptyHistory, ws);
    NothingLost(m, ws);
  }

  // ----- the loop -----

  /** What a model call was sent: the messages before this turn's, then this turn's own. */
  datatype ModelCall = ModelCall(
    sent: seq<Message>,
    base: seq<Message>,
    own: seq<Message>,
    tools: seq<string>,
    main: bool)

  /** A retry is offered tools if one is still required, or some were used. */
  function RetryTools(required: bool, messages: seq<Message>, tools: seq<string>): seq<string> {
    if required || exists i :: 0 <= i < |messages| && messages[i].role == "tool" then tools else []
  }

  // ----- what is stored of a tool's output -----

  const TOOL_BODY_PERSIST_MAX_CHARS := 4000
  const TRUNCATED := "\n\U{2026} (truncated for session storage)"

  function TruncateForPersist(s: string, max: nat): string {
    if |s| <= max then s else s[..Max(max - 40, 0)] + TRUNCATED
  }

  /** Output within the limit is stored as it is; longer output is cut, with a note, to something shorter. */
  lemma StoredWithin(s: string)
    ensures var stored := TruncateForPersist(s, TOOL_BODY_PERSIST_MAX_CHARS);
      && |stored| <= TOOL_BODY_PERSIST_MAX_CHARS
      && (stored == s <==> |s| <= TOOL_BODY_PERSIST_MAX_CHARS)
      && (stored != s ==> s[..3960] <= stored && stored[3960..] == TRUNCATED)
  {
    assert |TRUNCATED| == 34;
  }

  // ----- a turn as its model and tools saw it -----

  /** One reply of the main loop, what its tool calls came to, and whether it was followed by a nudge. */
  datatype Exchange = Exchange(reply: Message, answers: seq<Answer>, nudged: bool)

  function Calls(x: Exchange): seq<ToolCall> {
    CallsOf(x.reply)
  }

  /** The calls of a reply that were answered, as far as it got. */
  function AnsweredCalls(x: Exchange): seq<ToolCall> {
    Calls(x)[..Min(|x.answers|, |Calls(x)|)]
  }

  /** The reply, one result for each answer, told what the tool said, and the nudge. */
  function Spelled(nudge: string, x: Exchange): seq<Message> {
    [x.reply] + Results(x) + if x.nudged then [Message("user", nudge, None, None)] else []
  }

  function StoredAnswer(call: ToolCall, a: Answer): Sanitize.ToolPersistEntry {
    Sanitize.ToolPersistEntry(call.name, a.exitCode, TruncateForPersist(a.body, TOOL_BODY_PERSIST_MAX_CHARS))
  }

  function Results(x: Exchange): seq<Message> {
    seq(|AnsweredCalls(x)|, i requires 0 <= i < |AnsweredCalls(x)| =>
      Message("tool", x.answers[i].body, None, Some(Calls(x)[i].id)))
  }

  /** What is stored of an exchange: the stored form of each answer under its call's name. */
  function Stored(x: Exchange): seq<Sanitize.ToolPersistEntry> {
    seq(|AnsweredCalls(x)|, i requires 0 <= i < |AnsweredCalls(x)| =>
      StoredAnswer(Calls(x)[i], x.answers[i]))
  }

  function Transcript(nudge: string, xs: seq<Exchange>): seq<Message> {
    if xs == [] then [] else Transcript(nudge, xs[..|xs| - 1]) + Spelled(nudge, xs[|xs| - 1])
  }

  function Entries(xs: seq<Exchange>): seq<Sanitize.ToolPersistEntry> {
    if xs == [] then [] else Entries(xs[..|xs| - 1]) + Stored(xs[|xs| - 1])
  }

  function CallsMade(xs: seq<Exchange>): seq<ToolCall> {
    if xs == [] then [] else CallsMade(xs[..|xs| - 1]) + AnsweredCalls(xs[|xs| - 1])
  }

  /** Whether something was executed: what the last answer said. */
  function Executed(xs: seq<Exchange>): bool {
    if xs == [] then false
    else
      var last := xs[|xs| - 1];
      if last.answers != [] then last.answers[|last.answers| - 1].executed else Executed(xs[..|xs| - 1])
  }

  function Nudges(xs: seq<Exchange>): nat {
    if xs == [] then 0 else Nudges(xs[..|xs| - 1]) + if xs[|xs| - 1].nudged then 1 else 0
  }

  /** The text the exchanges leave: that of the last reply that was not nudged and said something, or that
      made no tool call. */
  function TextOf(xs: seq<Exchange>): string {
    if xs == [] then ""
    else
      var x := xs[|xs| - 1];
      if !x.nudged && (Calls(x) == [] || !Blank(x.reply.text)) then x.reply.text else TextOf(xs[..|xs| - 1])
  }

  /** The loop goes on after this exchange: every call is answered, or the model was nudged. */
  predicate GoesOn(x: Exchange) {
    |x.answers| == |Calls(x)| && (Calls(x) == [] ==> x.nudged)
  }

  /** A reply is nudged just when it made no call, an action is required and none was executed, and nudges
      are left; the loop went on after every reply but the last. */
  predicate Proper(xs: seq<Exchange>, requiresAction: bool, maxNudges: nat) {
    xs == [] ||
    var front, x := xs[..|xs| - 1], xs[|xs| - 1];
    && Proper(front, requiresAction, maxNudges)
    && (front != [] ==> GoesOn(front[|front| - 1]))
    && |x.answers| <= |Calls(x)|
    && (x.nudged <==> Calls(x) == [] && requiresAction && !Executed(front) && Nudges(front) < maxNudges)
  }

  /** What is left of a turn's text is empty or the text of one of its replies. */
  lemma {:induction false} TextOfReply(xs: seq<Exchange>)
    ensures TextOf(xs) == "" || exists i :: 0 <= i < |xs| && TextOf(xs) == xs[i].reply.text
  {
    if xs != [] {
      var front, x := xs[..|xs| - 1], xs[|xs| - 1];
      TextOfReply(front);
      if TextOf(xs) != x.reply.text && TextOf(front) != "" {
        var i :| 0 <= i < |front| && TextOf(front) == front[i].reply.text;
        assert xs[i] == front[i];
      }
    }
  }

  lemma ProperMore(xs: seq<Exchange>, x: Exchange, requiresAction: bool, maxNudges: nat)
    requires Proper(xs, requiresAction, maxNudges) && (xs != [] ==> GoesOn(xs[|xs| - 1]))
    requires |x.answers| <= |Calls(x)|
    requires x.nudged <==> Calls(x) == [] && requiresAction && !Executed(xs) && Nudges(xs) < maxNudges
    ensures Proper(xs + [x], requiresAction, maxNudges)
  {
    assert (xs + [x])[..|xs|] == xs;
  }

  lemma {:induction false} NudgesBounded(xs: seq<Exchange>, requiresAction: bool, maxNudges: nat)
    requires Proper(xs, requiresAction, maxNudges)
    ensures Nudges(xs) <= maxNudges && (!requiresAction ==> Nudges(xs) == 0)
  {
    if xs != [] {
      NudgesBounded(xs[..|xs| - 1], requiresAction, maxNudges);
    }
  }

  lemma TextOfMore(xs: seq<Exchange>, x: Exchange)
    ensures TextOf(xs + [x])
         == if !x.nudged && (Calls(x) == [] || !Blank(x.reply.text)) then x.reply.text else TextOf(xs)
  {
    assert (xs + [x])[..|xs|] == xs;
  }

  /** One more exchange. */
  lemma Begun(nudge: string, xs: seq<Exchange>, x: Exchange)
    ensures var more := xs + [x];
      && Transcript(nudge, more) == Transcript(nudge, xs) + Spelled(nudge, x)
      && Entries(more) == Entries(xs) + Stored(x)
      && CallsMade(more) == CallsMade(xs) + AnsweredCalls(x)
      && Executed(more) == (if x.answers != [] then x.answers[|x.answers| - 1].executed else Executed(xs))
      && Nudges(more) == Nudges(xs) + (if x.nudged then 1 else 0)
  {
    assert (xs + [x])[..|xs|] == xs;
  }

  /** A reply no call of which is answered adds itself, and a nudge if there is one, and nothing to the books. */
  lemma Bare(nudge: string, xs: seq<Exchange>, reply: Message, nudged: bool)
    ensures var more := xs + [Exchange(reply, [], nudged)];
      && Transcript(nudge, more) == Transcript(nudge, xs) + ([reply] + if nudged then [UserMessage(nudge)] else [])
      && Entries(more) == Entries(xs) && CallsMade(more) == CallsMade(xs) && Executed(more) == Executed(xs)
      && Nudges(more) == Nudges(xs) + (if nudged then 1 else 0)
  {
    var x := Exchange(reply, [], nudged);
    Begun(nudge, xs, x);
    assert Results(x) == [] && Stored(x) == [] && AnsweredCalls(x) == [];
    assert [reply] + [] == [reply];
  }

  lemma OneAnswer(nudge: string, x: Exchange, a: Answer)
    requires |x.answers| < |Calls(x)| && !x.nudged
    ensures var i, y := |x.answers|, x.(answers := x.answers + [a]);
      && Spelled(nudge, y) == Spelled(nudge, x) + [ToolResultMessage(Calls(x)[i].id, a.body)]
      && Stored(y) == Stored(x) + [StoredAnswer(Calls(x)[i], a)]
      && AnsweredCalls(y) == AnsweredCalls(x) + [Calls(x)[i]]
  {
    var y := x.(answers := x.answers + [a]);
    assert Results(y) == Results(x) + [ToolResultMessage(Calls(x)[|x.answers|].id, a.body)];
  }

  /** One more answer to the last exchange. */
  lemma AnswerAdded(nudge: string, xs: seq<Exchange>, x: Exchange, a: Answer)
    requires |x.answers| < |Calls(x)| && !x.nudged
    ensures var call, was, now := Calls(x)[|x.answers|], xs + [x], xs + [x.(answers := x.answers + [a])];
      && Transcript(nudge, now) == Transcript(nudge, was) + [ToolResultMessage(call.id, a.body)]
      && Entries(now) == Entries(was) + [StoredAnswer(call, a)]
      && CallsMade(now) == CallsMade(was) + [call]
      && Executed(now) == a.executed && Nudges(now) == Nudges(was)
  {
    OneAnswer(nudge, x, a);
    Begun(nudge, xs, x);
    Begun(nudge, xs, x.(answers := x.answers + [a]));
  }

  lemma {:induction false} TranscriptAnswered(nudge: string, xs: seq<Exchange>, requiresAction: bool, maxNudges: nat)
    requires Proper(xs, requiresAction, maxNudges) && (xs != [] ==> GoesOn(xs[|xs| - 1]))
    ensures Answered(Transcript(nudge, xs))
  {
    if xs != [] {
      var front, x := xs[..|xs| - 1], xs[|xs| - 1];
      TranscriptAnswered(nudge, front, requiresAction, maxNudges);
      SpelledAnswered(nudge, x);
      AnsweredBoth(Transcript(nudge, front), Spelled(nudge, x));
    }
  }

  lemma SpelledAnswered(nudge: string, x: Exchange)
    requires |x.answers| == |Calls(x)|
    ensures Answered(Spelled(nudge, x))
  {
    var q := Spelled(nudge, x);
    forall i | 0 <= i < |q| ensures Answers(q, i, |CallsOf(q[i])|) {
      if i > 0 { assert CallsOf(q[i]) == []; }
    }
  }

  lemma AnsweredBoth(p: seq<Message>, q: seq<Message>)
    requires Answered(p) && Answered(q)
    ensures Answered(p + q)
  {
    var r := p + q;
    forall i | 0 <= i < |r| ensures Answers(r, i, |CallsOf(r[i])|) {
      if i < |p| {
        assert Answers(p, i, |CallsOf(p[i])|);
        assert forall x :: 0 <= x < |p| ==> r[x] == p[x];
      } else {
        assert Answers(q, i - |p|, |CallsOf(q[i - |p|])|);
        assert forall x :: |p| <= x < |r| ==> r[x] == q[x - |p|];
      }
    }
  }

  /** The retries after an empty reply: the nudge, then what the model said. */
  function Retried(nudge: string, replies: seq<Message>): seq<Message> {
    if replies == [] then []
    else Retried(nudge, replies[..|replies| - 1]) + [UserMessage(nudge), replies[|replies| - 1]]
  }

  lemma RetriedMore(nudge: string, replies: seq<Message>, reply: Message)
    ensures Retried(nudge, replies + [reply]) == Retried(nudge, replies) + [UserMessage(nudge), reply]
  {
    assert (replies + [reply])[..|replies|] == replies;
  }

  /** Retries stop at the first text, or when none is left; there are none if there was a text before. */
  predicate RetriesOf(text: string, replies: seq<Message>, max: nat) {
    && |replies| <= max && (replies != [] ==> Blank(text))
    && forall i :: 0 <= i < |replies| - 1 ==> Blank(replies[i].text)
  }

  function TextAfter(text: string, replies: seq<Message>): string {
    if replies != [] && !Blank(replies[|replies| - 1].text) then replies[|replies| - 1].text else text
  }

  /** No message is the result of a tool call. */
  predicate NoResults(messages: seq<Message>) {
    forall i :: 0 <= i < |messages| ==> messages[i].role != "tool"
  }

  predicate FromModel(xs: seq<Exchange>) {
    forall i :: 0 <= i < |xs| ==> xs[i].reply.role != "tool"
  }

  lemma SpelledResults(nudge: string, x: Exchange)
    requires x.reply.role != "tool"
    ensures NoResults(Spelled(nudge, x)) <==> AnsweredCalls(x) == []
  {
    if AnsweredCalls(x) != [] {
      assert Spelled(nudge, x)[1] == Results(x)[0];
    }
  }

  lemma NoResultsBoth(a: seq<Message>, b: seq<Message>)
    ensures NoResults(a + b) <==> NoResults(a) && NoResults(b)
  {
    forall i | 0 <= i < |a| ensures (a + b)[i] == a[i] {
    }
    forall i | 0 <= i < |b| ensures (a + b)[|a| + i] == b[i] {
    }
    if NoResults(a + b) {
      forall i | 0 <= i < |b| ensures b[i].role != "tool" {
        assert (a + b)[|a| + i].role != "tool";
      }
    }
  }

  lemma {:induction false} TranscriptResults(nudge: string, xs: seq<Exchange>)
    requires FromModel(xs)
    ensures NoResults(Transcript(nudge, xs)) <==> CallsMade(xs) == []
  {
    if xs != [] {
      TranscriptResults(nudge, xs[..|xs| - 1]);
      SpelledResults(nudge, xs[|xs| - 1]);
      NoResultsBoth(Transcript(nudge, xs[..|xs| - 1]), Spelled(nudge, xs[|xs| - 1]));
    }
  }

  /** A retry is offered the tools exactly if one is still required, or one answered a call of this turn. */
  lemma OfferedIff(nudge: string, xs: seq<Exchange>, before: seq<Message>, behind: seq<Message>,
                   required: bool, tools: seq<string>)
    requires FromModel(xs) && NoResults(before) && NoResults(behind)
    ensures RetryTools(required, before + Transcript(nudge, xs) + behind, tools)
         == if required || CallsMade(xs) != [] then tools else []
  {
    TranscriptResults(nudge, xs);
    NoResultsBoth(before, Transcript(nudge, xs));
    NoResultsBoth(before + Transcript(nudge, xs), behind);
  }

  /** What does not change during a turn: `overGuard` says when the context is to be compacted before a call,
      `footer` what the sources it collects add to a text. */
  datatype Settings = Settings(
    marks: Marks,
    tools: seq<string>,
    overGuard: seq<Message> -> bool,
    wording: Wording,
    footer: string -> Option<string>)

  /** Compression is on, and the estimate has reached the guard. */
  function Guard(enabled: bool, threshold: nat): seq<Message> -> bool {
    (messages: seq<Message>) => enabled && EstimateTokens(messages) >= threshold
  }

  function TroubleOf(r: ChatResult, before: Option<Outcome>): Option<Outcome> {
    match r
    case Reply(_) => before
    case ChatInterrupted => Some(Interrupted)
    case ChatError => Some(Failed)
  }

  function TroubleOfTool(r: ToolResult, before: Option<Outcome>): Option<Outcome> {
    match r
    case ToolDone(_) => before
    case ToolInterrupted => Some(Interrupted)
    case ToolError => Some(Failed)
  }

  predicate TurnEnds(trouble: Option<Outcome>) {
    trouble.Some? ==> !trouble.value.Complete?
  }

  lemma OneMoreRetry(text: string, replies: seq<Message>, reply: Message, max: nat)
    requires RetriesOf(text, replies, max) && Blank(TextAfter(text, replies)) && |replies| < max
    ensures RetriesOf(text, replies + [reply], max)
    ensures TextAfter(text, replies + [reply]) == if Blank(reply.text) then TextAfter(text, replies) else reply.text
  {
    forall i | 0 <= i < |replies| ensures Blank((replies + [reply])[i].text) {
      if i == |replies| - 1 { assert Blank(replies[i].text); }
    }
  }

  /** What the retries leave behind; one that was cut short may leave its nudge. */
  predicate AfterRetries(nudge: string, before: seq<Message>, replies: seq<Message>, end: Option<Outcome>,
                         after: seq<Message>)
  {
    || after == before + Retried(nudge, replies)
    || (end.Some? && after == before + Retried(nudge, replies) + [UserMessage(nudge)])
  }

  /** What one retry pushes: the nudge, and the reply if there was one. */
  function RetrySpelled(nudge: string, r: ChatResult): seq<Message> {
    if r.Reply? then [UserMessage(nudge), r.message] else [UserMessage(nudge)]
  }

  datatype Next = GoOn | Stop | Ended(outcome: Outcome)

  predicate ShownTo(asked: seq<ModelCall>, nudge: string, xs: seq<Exchange>) {
    |xs| <= |asked|
    && forall i :: 0 <= i < |xs| ==> asked[i].main && asked[i].own == Transcript(nudge, xs[..i])
  }

  lemma ShownMore(asked: seq<ModelCall>, nudge: string, xs: seq<Exchange>, c: ModelCall, x: Exchange)
    requires ShownTo(asked, nudge, xs) && |asked| == |xs| && c.main && c.own == Transcript(nudge, xs)
    ensures ShownTo(asked + [c], nudge, xs + [x])
  {
    forall i | 0 <= i < |xs + [x]| ensures (asked + [c])[i].own == Transcript(nudge, (xs + [x])[..i]) {
      assert (xs + [x])[..i] == xs[..i];
    }
    assert xs[..|xs|] == xs;
  }

  /** After one more round of the loop. */
  lemma ShownOn(before: seq<ModelCall>, asked: seq<ModelCall>, nudge: string, xs: seq<Exchange>, x: Option<Exchange>)
    requires ShownTo(before, nudge, xs) && |before| == |xs|
    requires asked == before || (|asked| == |before| + 1 && asked[..|before|] == before && asked[|before|].main
                                 && asked[|before|].own == Transcript(nudge, xs))
    requires x.Some? ==> |asked| == |before| + 1
    ensures ShownTo(asked, nudge, xs + if x.Some? then [x.value] else [])
  {
    if asked != before {
      assert asked == before + [asked[|before|]];
    }
    if x.Some? {
      ShownMore(before, nudge, xs, asked[|before|], x.value);
    } else {
      ShownStill(before, asked, nudge, xs);
      assert xs + [] == xs;
    }
  }

  lemma ShownStill(asked: seq<ModelCall>, more: seq<ModelCall>, nudge: string, xs: seq<Exchange>)
    requires ShownTo(asked, nudge, xs) && asked <= more
    ensures ShownTo(more, nudge, xs)
  {
  }

  const SKILL_MANAGE := "skill_manage"
  const MEMORY_MANAGE := "memory_manage"

  predicate Used(calls: seq<ToolCall>, name: string) {
    exists i :: 0 <= i < |calls| && calls[i].name == name
  }

  lemma UsedAppend(calls: seq<ToolCall>, call: ToolCall, name: string)
    ensures Used(calls + [call], name) <==> Used(calls, name) || call.name == name
  {
    if i :| 0 <= i < |calls| && calls[i].name == name {
      assert (calls + [call])[i] == calls[i];
    }
    assert (calls + [call])[|calls|] == call;
  }

  /** The state of one turn. The ghost fields record what the outside was asked and answered. */
  class ToolLoop {
    var messages: seq<Message>
    var historyBoundary: nat
    var finalText: string
    var executed: bool
    var toolCallCount: nat
    var skillManageUsed: bool
    var memoryManageUsed: bool
    var toolPersist: seq<Sanitize.ToolPersistEntry>
    var actionRetries: nat
    var log: History                               // the session's log, as last listed
    var cancelled: bool
    const settings: Settings

    ghost const start: History                     // the session's log when the turn started
    ghost const initial: seq<Message>              // the messages the turn started from
    ghost var base: seq<Message>                   // the messages before this turn's own
    ghost var pushed: seq<Message>                 // everything this turn pushed, in order
    ghost var turns: seq<Exchange>                 // the exchanges of the main loop
    ghost var ran: seq<ToolCall>                   // the calls tools were given, in order
    ghost var asked: seq<ModelCall>                // the model calls, in order
    ghost var trouble: Option<Outcome>             // what the outside ended the turn with

    constructor (s: Settings, session: History, stop: bool, first: seq<Message>)
      ensures initial == first && settings == s && start == session && cancelled == stop
      ensures Fresh()
    {
      messages, historyBoundary, initial := first, |first|, first;
      finalText, executed, toolCallCount := "", false, 0;
      skillManageUsed, memoryManageUsed, toolPersist, actionRetries := false, false, [], 0;
      log, start, settings, cancelled := session, session, s, stop;
      base, pushed, turns, ran, asked, trouble := first, [], [], [], [], None;
    }

    ghost predicate Fresh()
      reads this
    {
      && messages == initial && historyBoundary == |initial| && base == initial && pushed == []
      && finalText == "" && toolCallCount == 0 && toolPersist == [] && !executed
      && actionRetries == 0 && asked == [] && log == start && turns == [] && ran == [] && trouble == None
      && !skillManageUsed && !memoryManageUsed
    }

    /** Base, then exactly what this turn pushed, with the boundary at the join. */
    ghost predicate Layout()
      reads this`messages, this`historyBoundary, this`base, this`pushed
    {
      messages == base + pushed && historyBoundary == |base|
    }

    /** What precedes this turn's messages: the initial ones until the context is rebuilt, then
        the system message and what the rebuild read of the session's log. */
    ghost predicate IsBase(b: seq<Message>) {
      b == initial || exists system, h :: IsRebuilt(b, system, h)
    }

    ghost predicate IsRebuilt(b: seq<Message>, system: Message, h: History) {
      && Extends(settings.marks, start, h) && b == SystemAndHistory(system, h.rows)
      && (initial != [] ==> system == initial[0])
    }

    ghost predicate BaseOk()
      reads this`base, this`log
    {
      && IsBase(base) && (initial != [] ==> base != [] && base[0] == initial[0])
      && Extends(settings.marks, start, log)
    }

    /** The counter and the two flags follow the calls that were given to tools. */
    ghost predicate Books()
      reads this`toolCallCount, this`ran, this`skillManageUsed, this`memoryManageUsed
    {
      && toolCallCount == |ran|
      && skillManageUsed == Used(ran, SKILL_MANAGE) && memoryManageUsed == Used(ran, MEMORY_MANAGE)
    }

    /** Each call was given to its tool as the model made it; the last may have come to nothing. */
    ghost predicate Ran()
      reads this`ran, this`turns
    {
      || ran == CallsMade(turns)
      || (turns != [] && var x := turns[|turns| - 1];
          |x.answers| < |Calls(x)| && ran == CallsMade(turns) + [Calls(x)[|x.answers|]])
    }

    /** What is stored and remembered is what the exchanges say. */
    ghost predicate Follows()
      reads this`toolPersist, this`executed, this`actionRetries, this`turns
    {
      && toolPersist == Entries(turns)
      && executed == Executed(turns) && actionRetries == Nudges(turns)
    }

    /** Messages, stored entries and counters are those of the exchanges so far. */
    ghost predicate InStep()
      reads this`messages, this`historyBoundary, this`base, this`pushed, this`turns
      reads this`toolPersist, this`executed, this`actionRetries
      reads this`toolCallCount, this`ran, this`skillManageUsed, this`memoryManageUsed
    {
      Layout() && Books() && Follows() && pushed == Transcript(settings.wording.actionRequired, turns)
    }

    /** What every model call was sent; in the main loop with all tool calls answered. */
    ghost predicate CallsOk()
      reads this`asked
    {
      forall c :: c in asked ==>
        && c.sent == c.base + c.own && IsBase(c.base)
        && (if c.main then Answered(c.own) && c.tools == settings.tools else c.tools in {[], settings.tools})
    }

    lemma ReadFrom(system: Message, b: seq<Message>) returns (h: History)
      requires IsBase(b) && initial == SystemAndHistory(system, start.rows)
      ensures Extends(settings.marks, start, h) && b == SystemAndHistory(system, h.rows)
    {
      if b == initial {
        ExtendsSame(settings.marks, start);
        h := start;
      } else {
        var other, g :| IsRebuilt(b, other, g);
        h := g;
      }
    }

    /** So a parent turn always shows the model the session as it stands. */
    lemma CallShows(session: History, system: Message, c: ModelCall)
      requires initial == SystemAndHistory(system, start.rows) && system.toolCalls == None
      requires RealMarks(settings.marks)
      requires Extends(settings.marks, EmptyHistory, session) && Extends(settings.marks, session, start)
      requires c.sent == c.base + c.own && IsBase(c.base) && (c.main ==> Answered(c.own))
      ensures ShowsSession(settings.marks, session, system, c.base) && (c.main ==> Answered(c.sent))
    {
      var h := ReadFrom(system, c.base);
      ExtendsTrans(settings.marks, session, start, h);
      ShowsWhole(settings.marks, session, system, h);
      if c.main {
        NoCallsShown(system, h.rows);
        AnsweredPrefix(c.base, c.own);
      }
    }

    // ----- asking the outside -----

    method CheckCancel() returns (stop: bool)
      modifies this`cancelled, this`trouble
      ensures stop == cancelled && (old(cancelled) ==> cancelled)
      ensures trouble == if stop then Some(Interrupted) else old(trouble)
    {
      ghost var answer;
      cancelled, answer := CancelledNow(cancelled);
      trouble := if answer.Some? then answer else trouble;
      return cancelled;
    }

    /** The model, asked once. */
    method Ask(sent: seq<Message>, offered: seq<string>, ghost main: bool) returns (r: ChatResult)
      requires Layout() && BaseOk() && CallsOk() && sent == messages
      requires if main then Answered(pushed) && offered == settings.tools else offered in {[], settings.tools}
      modifies this`asked, this`trouble
      ensures CallsOk() && asked == old(asked) + [ModelCall(sent, base, pushed, offered, main)]
      ensures trouble == TroubleOf(r, old(trouble))
    {
      r := *;
      asked := asked + [ModelCall(sent, base, pushed, offered, main)];
      trouble := TroubleOf(r, trouble);
    }

    /** The tool, given one call. */
    method DispatchToolCall(call: ToolCall) returns (r: ToolResult)
      modifies this`ran, this`trouble
      ensures ran == old(ran) + [call]
      ensures trouble == TroubleOfTool(r, old(trouble))
    {
      r := *;
      ran := ran + [call];
      trouble := TroubleOfTool(r, trouble);
    }

    /** The compactor, asked only if compression is on and the context is over its guard. */
    method Compact() returns (r: Budget)
      requires Extends(settings.marks, start, log)
      modifies this`log, this`trouble
      ensures Extends(settings.marks, old(log), log) && Extends(settings.marks, start, log)
      ensures trouble == if r.BudgetError? then Some(Failed) else old(trouble)
    {
      var later;
      ghost var answer;
      r, later, answer := MaybeCompactSession(settings.marks, log);
      ExtendsTrans(settings.marks, start, log, later);
      log := later;
      trouble := if answer.Some? then answer else trouble;
    }

    // ----- the steps of the loop -----

    /** `maybe_ensure_context_budget`. */
    method EnsureContextBudget() returns (r: Budget)
      requires Layout() && BaseOk()
      modifies this`messages, this`historyBoundary, this`base, this`log, this`trouble
      ensures Layout() && BaseOk() && Extends(settings.marks, old(log), log)
      ensures trouble == if r.BudgetError? then Some(Failed) else old(trouble)
      ensures !settings.overGuard(old(messages)) ==> r.WithinBudget? && log == old(log)
      ensures base == if r.Summarized?
        then SystemAndHistory(if old(messages) != [] then old(messages)[0] else SystemMessage(""), log.rows)
        else old(base)
    {
      ExtendsSame(settings.marks, log);
      if !settings.overGuard(messages) {
        return WithinBudget;
      }
      r := Compact();
      if !r.Summarized? {
        return;
      }
      var freshHistory := HistoryToConversation(EffectiveHistory(log.rows));
      var system := if messages != [] then messages[0] else SystemMessage("");
      var inTurn := messages[historyBoundary..];
      assert inTurn == pushed;
      messages := [system];
      messages := messages + freshHistory;
      historyBoundary := |messages|;
      base := messages;
      messages := messages + inTurn;
      assert IsRebuilt(base, system, log);
    }

    method Push(m: Message)
      requires Layout()
      modifies this`messages, this`pushed
      ensures Layout() && pushed == old(pushed) + [m] && messages == old(messages) + [m]
    {
      messages := messages + [m];
      pushed := pushed + [m];
      assert messages == base + pushed;
    }

    /** Counts a call and gives it to its tool. */
    method CountAndRun(call: ToolCall) returns (r: ToolResult)
      requires Books()
      modifies this`toolCallCount, this`ran, this`skillManageUsed, this`memoryManageUsed, this`trouble
      ensures Books() && ran == old(ran) + [call]
      ensures trouble == TroubleOfTool(r, old(trouble))
    {
      UsedAppend(ran, call, SKILL_MANAGE);
      UsedAppend(ran, call, MEMORY_MANAGE);
      toolCallCount := toolCallCount + 1;
      if call.name == SKILL_MANAGE {
        skillManageUsed := true;
      }
      if call.name == MEMORY_MANAGE {
        memoryManageUsed := true;
      }
      r := DispatchToolCall(call);
    }

    /** Counts, runs and records one tool call: the model is told what the tool said, a cut of it is stored. */
    method RunOneCall(call: ToolCall) returns (r: ToolResult)
      requires Layout() && Books() && trouble == None
      modifies this`messages, this`pushed, this`executed, this`toolCallCount, this`toolPersist, this`ran
      modifies this`skillManageUsed, this`memoryManageUsed, this`cancelled, this`trouble
      ensures Layout() && Books() && trouble == TroubleOfTool(r, None)
      ensures old(cancelled) ==> ran == old(ran) && r.ToolInterrupted?
      ensures ran == old(ran) || ran == old(ran) + [call]
      ensures !r.ToolDone? ==>
        pushed == old(pushed) && toolPersist == old(toolPersist) && executed == old(executed)
      ensures r.ToolDone? ==>
        && ran == old(ran) + [call] && executed == r.answer.executed
        && pushed == old(pushed) + [ToolResultMessage(call.id, r.answer.body)]
        && toolPersist == old(toolPersist) + [StoredAnswer(call, r.answer)]
    {
      var stop := CheckCancel();
      if stop {
        return ToolInterrupted;
      }
      r := CountAndRun(call);
      match r {
        case ToolInterrupted =>
        case ToolError =>
        case ToolDone(a) =>
          executed := a.executed;
          var stored := TruncateForPersist(a.body, TOOL_BODY_PERSIST_MAX_CHARS);
          toolPersist := toolPersist + [Sanitize.ToolPersistEntry(call.name, a.exitCode, stored)];
          Push(ToolResultMessage(call.id, a.body));
      }
    }

    /** The next call of the last exchange. */
    method RunNextCall(call: ToolCall, ghost before: seq<Exchange>, ghost x: Exchange) returns (r: ToolResult)
      requires InStep() && trouble == None && ran == CallsMade(turns) && turns == before + [x] && !x.nudged
      requires |x.answers| < |Calls(x)| && call == Calls(x)[|x.answers|]
      modifies this`messages, this`pushed, this`executed, this`toolCallCount, this`toolPersist, this`ran
      modifies this`skillManageUsed, this`memoryManageUsed, this`cancelled, this`trouble, this`turns
      ensures InStep() && trouble == TroubleOfTool(r, None)
      ensures old(cancelled) ==> ran == old(ran) && r.ToolInterrupted?
      ensures !r.ToolDone? ==> turns == old(turns) && Ran()
      ensures r.ToolDone? ==> turns == before + [x.(answers := x.answers + [r.answer])] && ran == CallsMade(turns)
    {
      r := RunOneCall(call);
      if r.ToolDone? {
        AnswerAdded(settings.wording.actionRequired, before, x, r.answer);
        turns := before + [x.(answers := x.answers + [r.answer])];
      }
    }

    /** Runs the tool calls of the assistant message just pushed. */
    method RunCalls(calls: seq<ToolCall>, ghost before: seq<Exchange>, ghost assistant: Message)
      returns (end: Option<Outcome>, ghost answers: seq<Answer>)
      requires InStep() && trouble == None && ran == CallsMade(turns) && assistant.toolCalls == Some(calls)
      requires turns == before + [Exchange(assistant, [], false)]
      modifies this`messages, this`pushed, this`executed, this`toolCallCount, this`toolPersist, this`ran
      modifies this`skillManageUsed, this`memoryManageUsed, this`cancelled, this`trouble, this`turns
      ensures InStep() && Ran() && end == trouble && TurnEnds(trouble)
      ensures turns == before + [Exchange(assistant, answers, false)]
      ensures |answers| <= |calls| && (end == None ==> |answers| == |calls| && ran == CallsMade(turns))
      ensures old(cancelled) && calls != [] ==> ran == old(ran) && end == Some(Interrupted)
    {
      answers := [];
      for i := 0 to |calls|
        invariant InStep() && trouble == None && ran == CallsMade(turns)
        invariant |answers| == i && turns == before + [Exchange(assistant, answers, false)]
        invariant old(cancelled) ==> i == 0 && cancelled && ran == old(ran)
      {
        var r := RunNextCall(calls[i], before, Exchange(assistant, answers, false));
        match r {
          case ToolInterrupted => return Some(Interrupted), answers;
          case ToolError => return Some(Failed), answers;
          case ToolDone(a) => answers := answers + [a];
        }
      }
      return None, answers;
    }

    /** The start of an iteration: cancellation, context budget, and the call to the model. */
    method AskModel() returns (r: ChatResult)
      requires Layout() && BaseOk() && Answered(pushed) && CallsOk() && trouble == None
      modifies this`messages, this`historyBoundary, this`base, this`log, this`asked, this`cancelled, this`trouble
      ensures Layout() && BaseOk() && CallsOk() && |old(asked)| <= |asked| <= |old(asked)| + 1
      ensures trouble == TroubleOf(r, None)
      ensures r.Reply? ==> |asked| == |old(asked)| + 1
      ensures AskedOnce(old(asked), pushed)
      ensures old(cancelled) ==> cancelled && trouble == Some(Interrupted) && asked == old(asked) && log == old(log)
    {
      var stop := CheckCancel();
      if stop {
        return ChatInterrupted;
      }
      var budget := EnsureContextBudget();
      if budget.BudgetError? {
        return ChatError;
      }
      r := Ask(messages, settings.tools, true);
    }

    /** A reply without tool calls: pushed, then a nudge, or the last message's text is final. */
    method NudgeOrStop(assistant: Message, willActionRetry: bool) returns (next: Next)
      requires Layout()
      modifies this`messages, this`pushed, this`actionRetries, this`finalText
      ensures Layout() && actionRetries == old(actionRetries) + if willActionRetry then 1 else 0
      ensures next == if willActionRetry then GoOn else Stop
      ensures pushed == old(pushed)
        + ([assistant] + if willActionRetry then [UserMessage(settings.wording.actionRequired)] else [])
      ensures finalText == if willActionRetry then old(finalText) else assistant.text
    {
      Push(assistant);
      if willActionRetry {
        actionRetries := actionRetries + 1;
        Push(UserMessage(settings.wording.actionRequired));
        return GoOn;
      }
      finalText := messages[|messages| - 1].text;
      return Stop;
    }

    /** A reply with tool calls: pushed, then each call run and answered. */
    method AnswerCalls(assistant: Message) returns (next: Next, ghost answers: seq<Answer>)
      requires InStep() && trouble == None && ran == CallsMade(turns) && CallsOf(assistant) != []
      modifies this`messages, this`pushed, this`executed, this`toolCallCount, this`toolPersist, this`ran
      modifies this`skillManageUsed, this`memoryManageUsed, this`cancelled, this`trouble, this`turns
      ensures InStep() && Ran() && TurnEnds(trouble)
      ensures turns == old(turns) + [Exchange(assistant, answers, false)] && |answers| <= |CallsOf(assistant)|
      ensures next == if trouble == None then GoOn else Ended(trouble.value)
      ensures trouble == None ==> ran == CallsMade(turns) && |answers| == |CallsOf(assistant)|
    {
      ghost var before := turns;
      Bare(settings.wording.actionRequired, before, assistant, false);
      Push(assistant);
      turns := before + [Exchange(assistant, [], false)];
      var calls := CallsOf(assistant);
      var end;
      end, answers := RunCalls(calls, before, assistant);
      next := if end == None then GoOn else Ended(end.value);
    }

    /** A reply without tool calls, as an exchange of its own. */
    method AnswerNone(assistant: Message, willActionRetry: bool) returns (next: Next)
      requires InStep() && ran == CallsMade(turns) && CallsOf(assistant) == []
      modifies this`messages, this`pushed, this`actionRetries, this`finalText, this`turns
      ensures InStep() && ran == CallsMade(turns)
      ensures turns == old(turns) + [Exchange(assistant, [], willActionRetry)]
      ensures next == if willActionRetry then GoOn else Stop
      ensures finalText == if willActionRetry then old(finalText) else assistant.text
    {
      Bare(settings.wording.actionRequired, turns, assistant, willActionRetry);
      next := NudgeOrStop(assistant, willActionRetry);
      turns := turns + [Exchange(assistant, [], willActionRetry)];
    }

    /** The rest of an iteration, once the model has replied. */
    method HandleReply(assistant: Message, requiresAction: bool, maxActionRetries: nat)
      returns (next: Next, ghost x: Exchange)
      requires InStep() && trouble == None && ran == CallsMade(turns)
      modifies this`messages, this`pushed, this`executed, this`toolCallCount, this`toolPersist, this`ran
      modifies this`skillManageUsed, this`memoryManageUsed, this`cancelled, this`trouble, this`turns
      modifies this`actionRetries, this`finalText
      ensures InStep() && Ran() && TurnEnds(trouble)
      ensures turns == old(turns) + [x] && x.reply == assistant && |x.answers| <= |Calls(x)|
      ensures x.nudged <==>
        Calls(x) == [] && requiresAction && !old(executed) && old(actionRetries) < maxActionRetries
      ensures finalText ==
        if !x.nudged && (Calls(x) == [] || !Blank(x.reply.text)) then x.reply.text else old(finalText)
      ensures next == if trouble.Some? then Ended(trouble.value) else if GoesOn(x) then GoOn else Stop
      ensures trouble == None ==> ran == CallsMade(turns) && |x.answers| == |Calls(x)|
    {
      var willActionRetry :=
        requiresAction && CallsOf(assistant) == [] && !executed && actionRetries < maxActionRetries;
      if !Blank(assistant.text) && !willActionRetry {
        finalText := assistant.text;
      }
      ghost var answers := [];
      if CallsOf(assistant) != [] {
        next, answers := AnswerCalls(assistant);
      } else {
        next := AnswerNone(assistant, willActionRetry);
      }
      x := Exchange(assistant, answers, willActionRetry);
    }

    /** Counters, calls given to tools and stored entries are those of the exchanges, which are proper. */
    ghost predicate Account(requiresAction: bool, maxNudges: nat)
      reads this`turns, this`ran, this`toolPersist, this`executed, this`actionRetries
      reads this`toolCallCount, this`skillManageUsed, this`memoryManageUsed
    {
      Books() && Ran() && Follows() && Proper(turns, requiresAction, maxNudges)
    }

    /** The main loop so far: what it did is what its exchanges say. */
    ghost predicate InLoop(requiresAction: bool, maxNudges: nat)
      reads this`messages, this`historyBoundary, this`base, this`pushed, this`turns
      reads this`toolPersist, this`executed, this`actionRetries, this`finalText
      reads this`toolCallCount, this`ran, this`skillManageUsed, this`memoryManageUsed
    {
      && Layout() && Account(requiresAction, maxNudges)
      && pushed == Transcript(settings.wording.actionRequired, turns) && finalText == TextOf(turns)
    }

    /** The main loop asked once more, if at all, and showed this of the turn. */
    ghost predicate AskedOnce(before: seq<ModelCall>, own: seq<Message>)
      reads this`asked
    {
      || asked == before
      || (|asked| == |before| + 1 && asked[..|before|] == before && asked[|before|].main && asked[|before|].own == own)
    }

    /** Each exchange answers a call of the main loop, which was shown all the exchanges before it. */
    ghost predicate Shown()
      reads this`asked, this`turns
    {
      ShownTo(asked, settings.wording.actionRequired, turns)
    }

    /** Every exchange so far was gone on from. */
    ghost predicate Going()
      reads this`turns, this`ran, this`trouble
    {
      trouble == None && ran == CallsMade(turns) && (turns != [] ==> GoesOn(turns[|turns| - 1]))
    }

    /** The exchanges, and the text they leave, after a reply. */
    method ExtendTurns(assistant: Message, requiresAction: bool, maxActionRetries: nat)
      returns (next: Next, ghost x: Exchange)
      requires InLoop(requiresAction, maxActionRetries) && Going()
      modifies this`messages, this`pushed, this`executed, this`toolCallCount, this`toolPersist, this`ran
      modifies this`skillManageUsed, this`memoryManageUsed, this`cancelled, this`trouble, this`turns
      modifies this`actionRetries, this`finalText
      ensures InLoop(requiresAction, maxActionRetries) && TurnEnds(trouble)
      ensures turns == old(turns) + [x] && x.reply == assistant
      ensures next == if trouble.Some? then Ended(trouble.value) else if GoesOn(x) then GoOn else Stop
      ensures trouble == None ==> ran == CallsMade(turns)
    {
      ghost var before := turns;
      next, x := HandleReply(assistant, requiresAction, maxActionRetries);
      ProperMore(before, x, requiresAction, maxActionRetries);
      TextOfMore(before, x);
    }

    /** The same, on a context that it leaves as it is. */
    method TakeReply(assistant: Message, requiresAction: bool, maxActionRetries: nat)
      returns (next: Next, ghost x: Exchange)
      requires InLoop(requiresAction, maxActionRetries) && Going() && BaseOk() && CallsOk()
      modifies this`messages, this`pushed, this`executed, this`toolCallCount, this`toolPersist, this`ran
      modifies this`skillManageUsed, this`memoryManageUsed, this`cancelled, this`trouble, this`turns
      modifies this`actionRetries, this`finalText
      ensures InLoop(requiresAction, maxActionRetries) && TurnEnds(trouble) && BaseOk() && CallsOk()
      ensures turns == old(turns) + [x] && x.reply == assistant
      ensures next == if trouble.Some? then Ended(trouble.value) else if GoesOn(x) then GoOn else Stop
      ensures trouble == None ==> ran == CallsMade(turns)
    {
      next, x := ExtendTurns(assistant, requiresAction, maxActionRetries);
    }

    lemma Starts(requiresAction: bool, maxNudges: nat)
      requires Fresh()
      ensures InLoop(requiresAction, maxNudges) && Going() && BaseOk() && CallsOk()
    {
      ExtendsSame(settings.marks, start);
    }

    lemma ReadyToAsk(requiresAction: bool, maxNudges: nat)
      requires InLoop(requiresAction, maxNudges) && Going()
      ensures Answered(pushed)
    {
      TranscriptAnswered(settings.wording.actionRequired, turns, requiresAction, maxNudges);
    }

    /** Asks the model for the next reply; every call made so far has been answered. */
    method AskNext(ghost requiresAction: bool, ghost maxNudges: nat) returns (r: ChatResult)
      requires InLoop(requiresAction, maxNudges) && Going() && BaseOk() && CallsOk()
      modifies this`messages, this`historyBoundary, this`base, this`log, this`asked, this`cancelled, this`trouble
      ensures InLoop(requiresAction, maxNudges) && BaseOk() && CallsOk()
      ensures trouble == TroubleOf(r, None) && (r.Reply? ==> Going())
      ensures AskedOnce(old(asked), old(pushed)) && (r.Reply? ==> |asked| == |old(asked)| + 1)
      ensures old(cancelled) ==> cancelled && r.ChatInterrupted? && asked == old(asked) && log == old(log)
    {
      ReadyToAsk(requiresAction, maxNudges);
      r := AskModel();
    }

    method Iterate(requiresAction: bool, maxActionRetries: nat) returns (next: Next, ghost x: Option<Exchange>)
      requires InLoop(requiresAction, maxActionRetries) && Going() && BaseOk() && CallsOk()
      modifies this
      ensures InLoop(requiresAction, maxActionRetries) && TurnEnds(trouble) && BaseOk() && CallsOk()
      ensures next.Ended? <==> trouble.Some?
      ensures next.Ended? ==> next.outcome == trouble.value
      ensures turns == old(turns) + if x.Some? then [x.value] else []
      ensures AskedOnce(old(asked), old(pushed)) && (x.Some? ==> |asked| == |old(asked)| + 1)
      ensures !next.Ended? ==> x.Some? && ran == CallsMade(turns) && (next.GoOn? <==> GoesOn(x.value))
      ensures old(cancelled) ==> cancelled && next == Ended(Interrupted)
      ensures old(cancelled) ==> asked == old(asked) && log == old(log) && turns == old(turns)
    {
      x := None;
      var turn := AskNext(requiresAction, maxActionRetries);
      match turn {
        case ChatInterrupted => return Ended(Interrupted), None;
        case ChatError => return Ended(Failed), None;
        case Reply(assistant) =>
          ghost var one;
          next, one := TakeReply(assistant, requiresAction, maxActionRetries);
          x := Some(one);
      }
    }

    /** The main loop; `None` when it ran to an end of its own. */
    method MainLoop(requiresAction: bool, maxIterations: nat, maxActionRetries: nat) returns (end: Option<Outcome>)
      requires Fresh()
      modifies this
      ensures InLoop(requiresAction, maxActionRetries) && BaseOk() && CallsOk()
      ensures end == trouble && TurnEnds(trouble)
      ensures Shown() && |asked| <= maxIterations && (end == None ==> |asked| == |turns|)
      ensures end == None ==>
        ran == CallsMade(turns) && (|turns| < maxIterations ==> turns != [] && !GoesOn(turns[|turns| - 1]))
      ensures old(cancelled) ==>
        && cancelled && asked == [] && log == start && turns == []
        && (maxIterations > 0 ==> end == Some(Interrupted))
    {
      Starts(requiresAction, maxActionRetries);
      for iteration := 1 to maxIterations + 1
        invariant InLoop(requiresAction, maxActionRetries) && Going() && BaseOk() && CallsOk()
        invariant Shown() && |turns| == |asked| == iteration - 1
        invariant old(cancelled) ==> cancelled && asked == [] && log == start && iteration == 1
      {
        ghost var before, sofar := asked, turns;
        ghost var x;
        var next;
        next, x := Iterate(requiresAction, maxActionRetries);
        ShownOn(before, asked, settings.wording.actionRequired, sofar, x);
        match next {
          case GoOn =>
          case Stop => return None;
          case Ended(outcome) => return Some(outcome);
        }
      }
      return None;
    }

    /** A nudge, the context budget, and a call to the model. */
    method AskAgain(required: bool) returns (r: ChatResult)
      requires Layout() && BaseOk() && CallsOk() && trouble == None
      modifies this`messages, this`pushed, this`historyBoundary, this`base, this`log, this`asked, this`trouble
      ensures Layout() && BaseOk() && CallsOk() && trouble == TroubleOf(r, None)
      ensures pushed == old(pushed) + [UserMessage(RetryNudge(settings.wording, required))]
      ensures old(asked) <= asked && |asked| <= |old(asked)| + 1 && (r.Reply? ==> |asked| == |old(asked)| + 1)
      ensures |asked| > |old(asked)| ==>
        asked[|old(asked)|].tools == RetryTools(required, old(messages), settings.tools)
    {
      var offered := RetryTools(required, messages, settings.tools);
      Push(UserMessage(RetryNudge(settings.wording, required)));
      var budget := EnsureContextBudget();
      if budget.BudgetError? {
        return ChatError;
      }
      r := Ask(messages, offered, false);
    }

    /** One retry after an empty reply. */
    method RetryOnce(required: bool) returns (r: ChatResult)
      requires Layout() && BaseOk() && CallsOk() && trouble == None
      modifies this`messages, this`pushed, this`historyBoundary, this`base, this`log, this`finalText
      modifies this`asked, this`trouble
      ensures Layout() && BaseOk() && CallsOk() && trouble == TroubleOf(r, None)
      ensures pushed == old(pushed) + RetrySpelled(RetryNudge(settings.wording, required), r)
      ensures old(asked) <= asked && |asked| <= |old(asked)| + 1 && (r.Reply? ==> |asked| == |old(asked)| + 1)
      ensures |asked| > |old(asked)| ==>
        asked[|old(asked)|].tools == RetryTools(required, old(messages), settings.tools)
      ensures finalText == if r.Reply? && !Blank(r.message.text) then r.message.text else old(finalText)
    {
      r := AskAgain(required);
      if r.Reply? {
        if !Blank(r.message.text) {
          finalText := r.message.text;
        }
        Push(r.message);
      }
    }

    /** One round of the retries: cancellation, then a retry. */
    method RetryNext(required: bool) returns (r: ChatResult)
      requires Layout() && BaseOk() && CallsOk() && trouble == None
      modifies this`messages, this`pushed, this`historyBoundary, this`base, this`log, this`finalText
      modifies this`asked, this`cancelled, this`trouble
      ensures Layout() && BaseOk() && CallsOk() && trouble == TroubleOf(r, None)
      ensures r.Reply? ==>
        pushed == old(pushed) + RetrySpelled(RetryNudge(settings.wording, required), r) && |asked| == |old(asked)| + 1
      ensures !r.Reply? ==>
        pushed == old(pushed) || pushed == old(pushed) + RetrySpelled(RetryNudge(settings.wording, required), r)
      ensures old(asked) <= asked && |asked| <= |old(asked)| + 1
      ensures finalText == if r.Reply? && !Blank(r.message.text) then r.message.text else old(finalText)
      ensures old(cancelled) ==> r.ChatInterrupted? && asked == old(asked) && log == old(log)
    {
      var stop := CheckCancel();
      if stop {
        return ChatInterrupted;
      }
      r := RetryOnce(required);
    }

    /** The retries so far: what they pushed, and the text they left. */
    ghost predicate Retrying(required: bool, maxRetries: nat, text: string, before: seq<Message>, replies: seq<Message>)
      reads this`pushed, this`finalText
    {
      && pushed == before + Retried(RetryNudge(settings.wording, required), replies)
      && RetriesOf(text, replies, maxRetries) && finalText == TextAfter(text, replies)
    }

    /** One more retry, and what it adds to them. */
    method RetryRound(required: bool, ghost maxRetries: nat, ghost text: string, ghost before: seq<Message>,
                      ghost replies: seq<Message>)
      returns (r: ChatResult, ghost more: seq<Message>)
      requires Layout() && BaseOk() && CallsOk() && trouble == None
      requires Retrying(required, maxRetries, text, before, replies) && Blank(finalText) && |replies| < maxRetries
      modifies this`messages, this`pushed, this`historyBoundary, this`base, this`log, this`finalText
      modifies this`asked, this`cancelled, this`trouble
      ensures Layout() && BaseOk() && CallsOk() && trouble == TroubleOf(r, None)
      ensures if r.Reply? then
                |more| == |replies| + 1 && Retrying(required, maxRetries, text, before, more)
              else
                more == replies && finalText == TextAfter(text, replies)
                && AfterRetries(RetryNudge(settings.wording, required), before, replies, trouble, pushed)
      ensures old(asked) <= asked && |asked| <= |old(asked)| + 1 && (r.Reply? ==> |asked| == |old(asked)| + 1)
      ensures old(cancelled) ==> r.ChatInterrupted? && asked == old(asked) && log == old(log)
    {
      r := RetryNext(required);
      more := replies;
      if r.Reply? {
        OneMoreRetry(text, replies, r.message, maxRetries);
        RetriedMore(RetryNudge(settings.wording, required), replies, r.message);
        more := replies + [r.message];
      }
    }

    /** The retries after an empty reply, in a parent turn only. */
    method RetryLoop(required: bool, maxRetries: nat) returns (end: Option<Outcome>, ghost replies: seq<Message>)
      requires Layout() && BaseOk() && CallsOk() && trouble == None
      modifies this`messages, this`pushed, this`historyBoundary, this`base, this`log, this`finalText
      modifies this`asked, this`cancelled, this`trouble
      ensures Layout() && BaseOk() && CallsOk() && end == trouble && TurnEnds(trouble)
      ensures old(asked) <= asked && |old(asked)| + |replies| <= |asked| <= |old(asked)| + maxRetries
      ensures RetriesOf(old(finalText), replies, maxRetries) && finalText == TextAfter(old(finalText), replies)
      ensures AfterRetries(RetryNudge(settings.wording, required), old(pushed), replies, end, pushed)
      ensures end == None ==>
        |asked| == |old(asked)| + |replies| && (Blank(finalText) ==> |replies| == maxRetries)
      ensures old(cancelled) ==> asked == old(asked) && log == old(log) && replies == []
    {
      var attempt := 0;
      replies := [];
      while Blank(finalText) && attempt < maxRetries
        invariant attempt <= maxRetries && |replies| == attempt && trouble == None
        invariant Layout() && BaseOk() && CallsOk() && old(asked) <= asked && |asked| == |old(asked)| + attempt
        invariant Retrying(required, maxRetries, old(finalText), old(pushed), replies)
        invariant old(cancelled) ==> cancelled && attempt == 0 && asked == old(asked) && log == old(log)
      {
        var r;
        r, replies := RetryRound(required, maxRetries, old(finalText), old(pushed), replies);
        if !r.Reply? {
          return if r.ChatError? then Some(Failed) else Some(Interrupted), replies;
        }
        attempt := attempt + 1;
      }
      return None, replies;
    }

    method FillFinalText(mode: TurnMode, hitIterationLimit: bool, maxIterations: nat)
      modifies this`finalText
      ensures finalText == Reported(settings.wording, mode, hitIterationLimit, maxIterations, old(finalText))
    {
      if Blank(finalText) {
        finalText := if hitIterationLimit then settings.wording.limitText(maxIterations) else settings.wording.finished;
      } else if hitIterationLimit && mode == Parent && !Contains(finalText, settings.wording.limitWords) {
        finalText := finalText + settings.wording.limitSuffix(maxIterations);
      }
    }

    /** Makes sure there is something to say, and where it comes from. */
    method SettleFinalText(mode: TurnMode, hitIterationLimit: bool, maxIterations: nat)
      modifies this`finalText
      ensures finalText == Settled(settings, mode, hitIterationLimit, maxIterations, old(finalText))
      ensures SaysSomething(settings.wording) ==> !Blank(finalText)
    {
      if SaysSomething(settings.wording) {
        SettledNotBlank(settings, mode, hitIterationLimit, maxIterations, finalText);
      }
      FillFinalText(mode, hitIterationLimit, maxIterations);
      if mode == Parent {
        finalText := WithSources(finalText, settings.footer(finalText));
      }
    }

    /** The retries, if the turn has any. */
    method RetryPhase(mode: TurnMode, required: bool, maxRetries: nat)
      returns (end: Option<Outcome>, ghost replies: seq<Message>)
      requires Layout() && BaseOk() && CallsOk() && trouble == None
      modifies this`messages, this`pushed, this`historyBoundary, this`base, this`log, this`finalText
      modifies this`asked, this`cancelled, this`trouble
      ensures Layout() && BaseOk() && CallsOk() && end == trouble && TurnEnds(trouble)
      ensures old(asked) <= asked && |asked| <= |old(asked)| + (if mode == Parent then maxRetries else 0)
      ensures RetriesOf(old(finalText), replies, maxRetries) && (mode == Child ==> replies == [])
      ensures finalText == TextAfter(old(finalText), replies)
      ensures AfterRetries(RetryNudge(settings.wording, required), old(pushed), replies, end, pushed)
      ensures end == None ==>
        && |asked| == |old(asked)| + |replies|
        && (mode == Parent && Blank(finalText) ==> |replies| == maxRetries)
      ensures old(cancelled) ==> asked == old(asked) && log == old(log)
    {
      end, replies := None, [];
      if mode == Parent {
        end, replies := RetryLoop(required, maxRetries);
      }
    }

    /** The turn after its main loop. */
    method Conclude(mode: TurnMode, requiresAction: bool, maxIterations: nat, maxEmptyRetries: nat)
      returns (outcome: Outcome, ghost replies: seq<Message>)
      requires Layout() && BaseOk() && CallsOk() && trouble == None
      modifies this`messages, this`pushed, this`historyBoundary, this`base, this`log, this`finalText
      modifies this`asked, this`cancelled, this`trouble
      ensures Layout() && BaseOk() && CallsOk() && TurnEnds(trouble)
      ensures old(asked) <= asked && |asked| <= |old(asked)| + (if mode == Parent then maxEmptyRetries else 0)
      ensures RetriesOf(old(finalText), replies, maxEmptyRetries) && (mode == Child ==> replies == [])
      ensures AfterRetries(RetryNudge(settings.wording, requiresAction && !executed), old(pushed), replies,
                           trouble, pushed)
      ensures outcome == if trouble.Some? then trouble.value else Complete(old(finalText) == "")
      ensures trouble.Some? ==> finalText == TextAfter(old(finalText), replies)
      ensures outcome.Complete? ==>
        && |asked| == |old(asked)| + |replies| && (SaysSomething(settings.wording) ==> !Blank(finalText))
        && (mode == Parent && Blank(TextAfter(old(finalText), replies)) ==> |replies| == maxEmptyRetries)
        && finalText == Settled(settings, mode, old(finalText) == "", maxIterations, TextAfter(old(finalText), replies))
      ensures old(cancelled) ==> asked == old(asked) && log == old(log)
    {
      var hitIterationLimit := finalText == "";
      var end;
      end, replies := RetryPhase(mode, requiresAction && !executed, maxEmptyRetries);
      if end.Some? {
        return end.value, replies;
      }
      SettleFinalText(mode, hitIterationLimit, maxIterations);
      outcome := Complete(hitIterationLimit);
    }

    /** A turn that ran to its end: the main loop stopped by itself or ran out of iterations, and there is a text. */
    ghost predicate Finished(mode: TurnMode, maxIterations: nat, maxEmptyRetries: nat, replies: seq<Message>,
                             hitIterationLimit: bool)
      reads this`turns, this`ran, this`asked, this`finalText
    {
      && hitIterationLimit == (TextOf(turns) == "")
      && ran == CallsMade(turns) && |asked| == |turns| + |replies|
      && (|turns| < maxIterations ==> turns != [] && !GoesOn(turns[|turns| - 1]))
      && (mode == Parent && Blank(TextAfter(TextOf(turns), replies)) ==> |replies| == maxEmptyRetries)
      && finalText == Settled(settings, mode, hitIterationLimit, maxIterations, TextAfter(TextOf(turns), replies))
      && (SaysSomething(settings.wording) ==> !Blank(finalText))
    }

    /** The rest of a turn whose main loop ran to an end of its own. */
    method ConcludeTurn(
      mode: TurnMode,
      requiresAction: bool,
      maxIterations: nat,
      ghost maxActionRetries: nat,
      maxEmptyRetries: nat) returns (outcome: Outcome, ghost replies: seq<Message>)
      requires Layout() && BaseOk() && CallsOk() && Account(requiresAction, maxActionRetries)
      requires pushed == Transcript(settings.wording.actionRequired, turns) && finalText == TextOf(turns)
      requires trouble == None && ran == CallsMade(turns) && |asked| == |turns|
      requires |turns| < maxIterations ==> turns != [] && !GoesOn(turns[|turns| - 1])
      modifies this`messages, this`pushed, this`historyBoundary, this`base, this`log, this`finalText
      modifies this`asked, this`cancelled, this`trouble
      ensures TurnEnds(trouble)
      ensures outcome == if trouble.Some? then trouble.value else Complete(TextOf(turns) == "")
      // the exchanges of the main loop, the retries, and the messages and entries they are
      ensures Layout() && BaseOk() && CallsOk() && Account(requiresAction, maxActionRetries)
      ensures RetriesOf(TextOf(turns), replies, maxEmptyRetries) && (mode == Child ==> replies == [])
      ensures AfterRetries(RetryNudge(settings.wording, requiresAction && !executed),
                           Transcript(settings.wording.actionRequired, turns), replies, trouble, pushed)
      ensures old(asked) <= asked && |asked| <= |old(asked)| + (if mode == Parent then maxEmptyRetries else 0)
      ensures old(cancelled) ==> asked == old(asked) && log == old(log)
      ensures outcome.Complete? ==> Finished(mode, maxIterations, maxEmptyRetries, replies, outcome.hitIterationLimit)
      ensures !outcome.Complete? ==> finalText == TextAfter(TextOf(turns), replies)
    {
      outcome, replies := Conclude(mode, requiresAction, maxIterations, maxEmptyRetries);
    }

    /** `run_tool_loop`, on the messages the turn was given. `replies` is what the model said when asked again. */
    method RunToolLoop(
      mode: TurnMode,
      requiresAction: bool,
      maxIterations: nat,
      maxActionRetries: nat,
      maxEmptyRetries: nat) returns (outcome: Outcome, ghost replies: seq<Message>)
      requires Fresh()
      modifies this
      // what the outside ended the turn with, if it did
      ensures TurnEnds(trouble)
      ensures outcome == if trouble.Some? then trouble.value else Complete(TextOf(turns) == "")
      // the exchanges of the main loop, the retries, and the messages and entries they are
      ensures Layout() && BaseOk() && CallsOk() && Account(requiresAction, maxActionRetries)
      ensures RetriesOf(TextOf(turns), replies, maxEmptyRetries) && (mode == Child ==> replies == [])
      ensures AfterRetries(RetryNudge(settings.wording, requiresAction && !executed),
                           Transcript(settings.wording.actionRequired, turns), replies, trouble, pushed)
      // what the model was shown in the main loop, and the budget of calls
      ensures Shown()
      ensures |asked| <= maxIterations + (if mode == Parent then maxEmptyRetries else 0)
      ensures old(cancelled) ==>
        asked == [] && ran == [] && log == start && (maxIterations > 0 ==> outcome == Interrupted)
      // the result
      ensures outcome.Complete? ==> Finished(mode, maxIterations, maxEmptyRetries, replies, outcome.hitIterationLimit)
      ensures !outcome.Complete? ==> finalText == TextAfter(TextOf(turns), replies)
    {
      replies := [];
      var end := MainLoop(requiresAction, maxIterations, maxActionRetries);
      if end.Some? {
        return end.value, replies;
      }
      ghost var before := asked;
      outcome, replies := ConcludeTurn(mode, requiresAction, maxIterations, maxActionRetries, maxEmptyRetries);
      ShownStill(before, asked, settings.wording.actionRequired, turns);
    }
  }

  // ----- a parent turn -----

  /** What a parent turn is given by the program's configuration. */
  function ParentSettings(m: Marks, tools: seq<string>, compression: bool, guard: nat,
                          footer: string -> Option<string>): Settings
  {
    Settings(m, tools, Guard(compression, guard), WORDING, footer)
  }

  datatype Limits = Limits(iterations: nat, actionRetries: nat, emptyRetries: nat)

  /** A turn as the loop left it, said in terms of what the model and the tools answered. */
  ghost predicate Accounted(turn: ToolLoop, limits: Limits, replies: seq<Message>, outcome: Outcome)
    reads turn
  {
    var actions := turn.settings.tools != [];
    && turn.Layout() && turn.Account(actions, limits.actionRetries) && turn.Shown()
    && RetriesOf(TextOf(turn.turns), replies, limits.emptyRetries)
    && AfterRetries(RetryNudge(turn.settings.wording, actions && !turn.executed),
                    Transcript(turn.settings.wording.actionRequired, turn.turns), replies, turn.trouble, turn.pushed)
    && (if outcome.Complete? then
          turn.Finished(Parent, limits.iterations, limits.emptyRetries, replies, outcome.hitIterationLimit)
        else turn.finalText == TextAfter(TextOf(turn.turns), replies))
  }

  /** A turn that ended before its loop. */
  method NeverStarted(s: Settings, log: History, stop: bool, ghost limits: Limits, ghost outcome: Outcome)
    returns (turn: ToolLoop)
    requires !outcome.Complete?
    ensures fresh(turn) && turn.settings == s && turn.log == log && turn.trouble == None
    ensures turn.asked == [] && turn.ran == [] && Accounted(turn, limits, [], outcome)
  {
    turn := new ToolLoop(s, log, stop, []);
  }

  /** The loop of a turn, on what the model is shown to begin with. */
  method Start(s: Settings, log: History, system: Message, stop: bool, limits: Limits)
    returns (outcome: Outcome, turn: ToolLoop, ghost replies: seq<Message>)
    ensures fresh(turn) && turn.settings == s && TurnEnds(turn.trouble)
    ensures turn.start == log && turn.initial == SystemAndHistory(system, log.rows)
    ensures outcome == if turn.trouble.Some? then turn.trouble.value else Complete(TextOf(turn.turns) == "")
    ensures turn.CallsOk() && |turn.asked| <= limits.iterations + limits.emptyRetries
    ensures Accounted(turn, limits, replies, outcome)
  {
    turn := new ToolLoop(s, log, stop, SystemAndHistory(system, log.rows));
    outcome, replies :=
      turn.RunToolLoop(Parent, s.tools != [], limits.iterations, limits.actionRetries, limits.emptyRetries);
  }

  /** What was met on the way to the loop ends with what came of it: only the last can have ended the turn, and without
      an end all three were met. */
  predicate Met(met: seq<Option<Outcome>>, end: Option<Outcome>) {
    && 0 < |met| <= 3 && met[|met| - 1] == end && (end == None ==> |met| == 3)
    && forall i :: 0 <= i < |met| - 1 ==> met[i] == None
  }

  /** Before the loop: cancellation, the compactor, cancellation again. */
  method Prepare(s: Settings, log: History, cancelled: bool)
    returns (end: Option<Outcome>, stop: bool, later: History, ghost met: seq<Option<Outcome>>)
    ensures Met(met, end) && TurnEnds(end) && Extends(s.marks, log, later)
    ensures cancelled ==> end == Some(Interrupted) && later == log
  {
    ExtendsSame(s.marks, log);
    ghost var one, two, three;
    later := log;
    stop, one := CancelledNow(cancelled);
    if stop {
      return Some(Interrupted), stop, later, [one];
    }
    var r;
    r, later, two := MaybeCompactSession(s.marks, log);
    if r.BudgetError? {
      return Some(Failed), stop, later, [one, two];
    }
    stop, three := CancelledNow(stop);
    return if stop then Some(Interrupted) else None, stop, later, [one, two, three];
  }

  /**
   * `run_agent_turn`: a parent turn on a session's log. `before` is what came of the compactor and of
   * cancellation before the loop, which runs only if neither ended the turn.
   */
  method RunAgentTurn(s: Settings, log: History, system: Message, cancelled: bool, limits: Limits)
    returns (outcome: Outcome, turn: ToolLoop, ghost replies: seq<Message>, ghost before: Option<Outcome>,
             ghost met: seq<Option<Outcome>>)
    requires RealMarks(s.marks) && Extends(s.marks, EmptyHistory, log) && system.toolCalls == None
    ensures fresh(turn) && turn.settings == s && TurnEnds(before) && TurnEnds(turn.trouble)
    // what ended the turn
    ensures Met(met, before)
    ensures outcome == if before.Some? then before.value
                       else if turn.trouble.Some? then turn.trouble.value
                       else Complete(TextOf(turn.turns) == "")
    // what the model is sent
    ensures forall c :: c in turn.asked ==> c.sent == c.base + c.own && ShowsSession(s.marks, log, system, c.base)
    ensures forall c :: c in turn.asked && c.main ==> Answered(c.sent) && c.tools == s.tools
    // how often, and never once the turn was cancelled before it began
    ensures |turn.asked| <= limits.iterations + limits.emptyRetries
    ensures before.Some? ==> turn.asked == [] && turn.ran == []
    ensures cancelled ==> before == Some(Interrupted) && turn.log == log
    // what the turn pushed, stored and says
    ensures Accounted(turn, limits, replies, outcome)
  {
    replies := [];
    var end, stop, later;
    end, stop, later, met := Prepare(s, log, cancelled);
    before := end;
    if end.Some? {
      turn := NeverStarted(s, later, stop, limits, end.value);
      return end.value, turn, replies, before, met;
    }
    outcome, turn, replies := Start(s, later, system, stop, limits);
    forall c | c in turn.asked
      ensures ShowsSession(s.marks, log, system, c.base) && (c.main ==> Answered(c.sent))
    {
      turn.CallShows(log, system, c);
    }
  }
}
