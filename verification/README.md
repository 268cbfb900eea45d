# Verified model of BobaClaw's concurrent core

BobaClaw is an agent daemon. Messages from chat channels, the command line and timers become *turns* of a
session; a turn lets a language model call tools until it has a reply. This project models, in Dafny, the parts
of the daemon whose correctness is hardest to see from one function, and proves what they promise.

Run `dafny verify dfyconfig.toml` to check everything.

## What is modelled

**The scope gate** (`GateModel`, `GateInvariant`, `GatePreservation`, `GateTheorems`, `GateProgress`, `GateFifo`,
`ScopeGate`). `GateModel` is a step system over any number of entries and scopes: arrival, registration, joining the
lock's queue, lock grant, permit grant, publication, the three drops of a guard in field order, giving up at either
wait, and interrupts. Lock objects carry a generation number, because a scope's map entry is removed and recreated.
Nothing is assumed of the runtime but an exclusive, first-in first-out mutex and a counting semaphore. `ScopeGate`
is the same gate as a class whose methods update its fields in place.

**The dispatcher** (`Dispatcher`) puts sessions and their message rows on top of the gate and proves that concurrent
turns leave the rows of a sequential execution, while other writers append in between. `Requests` follows what a
caller asked for, session and preemption, through every run; `DispatcherRuns` ties these runs to the gate's and
shows that every call can come to its end. `AgentTurn` is one turn on top of that: its two rows, the tool loop
between them with the gate's token, the answer, and everything else that goes on meanwhile.

**Compaction** (`Compaction`). The message log, the rows the model still sees, planning, the summary row and its
text form, and a step system in which several compactions are planned and committed while others append. Every
summary carries the ids it stands for, through its chain of previous summaries. `Lineage` follows the texts instead:
with a summariser that leaves nothing out, neither does what the model sees. `LegacySummaries` reads the rows of
earlier versions.

**The tool loop** (`ToolLoop`). The loop of one turn, with the model, the tools, cancellation and the compactor as
methods about whose results nothing is known, except that a token stays cancelled and that a session's log only
changes by the writes of `Compaction`. Ghost fields record what they answered, and what the turn pushes, stores and
says is a function of that record.

**Text transformers.** Telegram splitting and delivery (`TelegramSplit`, `TelegramApi`), with the lengths it counts
checked against encoders and decoders (`Encodings`); the reply sanitiser and the persisted form (`Sanitize`,
`SanitizeTheorems`), with a reader of the stored tool results (`Appendix`); the renderer from Markdown events to
Telegram HTML (`HtmlMarkup`, `HtmlRenderer`, `HtmlTheorems`, `HtmlReading`, `HtmlStyles`, `HtmlRaw`), checked
against an independent HTML reader, a reference text that knows no tags and reference styles spelled from the
Markdown alone; shell quoting (`ShellQuote`), checked against a lexer for sections 2.2.1, 2.2.2 and 2.3 of the Shell
Command Language in IEEE Std 1003.1-2017.

**Timers.** One-shot tasks over a shared table with any number of schedulers and operators (`Scheduler`), and
recurring jobs (`Cron`, `CronTicks`), in integer milliseconds. `Scheduler.Runner` is one scheduler as a class, with
the steps of all the others anywhere in between.

`Text`, `Options` and `Numbers` hold what these share. Strings are sequences of Unicode scalar values.

## Where code and documentation differ

The model follows the code.

- The gate's documentation says turns of a scope run in arrival order. The lock is first-in first-out, but nothing
  is atomic between registration and joining the queue: `GateFifo.QueueServedInOrder` holds of the queue order,
  `GateFifo.ArrivalOrderCanInvert` shows a run in which arrival order and service order differ. They agree exactly when
  entries join the queue in the order they registered (`GateFifo.ArrivalOrderIff`), in particular when each joins as
  soon as it has registered (`GateFifo.PromptServedAsArrived`).
- The Telegram guard is described as splitting instead of dropping the tail. It keeps only the first piece
  (`TelegramApi.EnsureTelegramLimit`; `TelegramApi.TailIsDropped` for an HTML text that loses its end); plain delivery
  never needs it (`TelegramApi.PlainDeliveryConserves`).
- The sanitiser's second application is harmless on text without carriage returns. With them the exact condition
  is `SanitizeTheorems.SanitizeIdempotentIff`, and `SanitizeTheorems.ResultIsPrefixIff` for the prefix property;
  `SanitizeTheorems.SanitizeTwiceDiffers` and `SanitizeTheorems.CarriageReturnRewritten` are texts that fail them.
- A recurring job's window is two seconds longer than the configured tick, but the clock that places it is read only
  after the tick's one-shot tasks have run, and an idle scheduler sleeps at least five seconds whatever the tick. No
  fire is lost between two windows exactly when the one-shot work, the work on recurring jobs and the longest sleep fit
  in the window together (`Cron.LosesNoneIff`). With the default tick a fire can be lost as soon as these two kinds of
  work can take more than two seconds, and below a tick of three seconds even without any work (`Cron.TimeForWork`).
- A tick starts the oldest fire of its window only, so a schedule with several fires in one window loses some of them
  (`Cron.OlderFireHides`). `Cron.StartedIff` says for every schedule which fires start.
- Two schedulers can start the same fire. It takes a state in which both have decided to, and from every such state
  both can (`Cron.OneHandOneStart`, `Cron.TwoHandsStartTwice`).
- With two compactions in flight the boundary can go back, exactly when the plan that commits reaches less far than
  the latest summary (`Compaction.BoundaryGoesBackIff`, `Compaction.BoundaryCanGoBack`); the messages are shown again,
  none is lost. It cannot when nobody else committed since the plan was made (`Compaction.BoundaryAdvances`).
- A row whose outcome could not be recorded, or whose scheduler died, stays running for ever
  (`Scheduler.NoneLeftRunningIff`, `Scheduler.OrphanStays`, `Scheduler.DiesOverARow`).

## Model

| member | source | states |
|---|---|---|
| GateTheorems.MutualExclusion | crates/bobaclaw-agent/src/scope_gate.rs:120-161 | In every state any interleaving reaches, at most one entry of a scope is between lock grant and lock release, across all lock objects the scope had |
| GateTheorems.ScopesTracked | crates/bobaclaw-agent/src/scope_gate.rs:89-104 | A scope is in the map iff an entry is registered there; `users` counts those entries; they, and no others, hold handles of its lock object |
| GateTheorems.PermitsConserved | crates/bobaclaw-agent/src/scope_gate.rs:107-113 | Free permits plus permit holders is always max(1, max_parallel) |
| GateTheorems.PermitHoldersDistinct | crates/bobaclaw-agent/src/scope_gate.rs:139-145 | A permit holder holds its scope lock and is in no queue; permit holders have pairwise distinct scopes |
| GateTheorems.PreemptingCancelledIff | crates/bobaclaw-agent/src/scope_gate.rs:121-131 | A preempting entry that has not released its lock is cancelled iff, after it registered, another preempting entry registered in its scope or the scope was interrupted |
| GateTheorems.NewestWins | crates/bobaclaw-agent/src/scope_gate.rs:42-53 | Of two preempting entries of a scope the one registered first is cancelled unless it already released the lock |
| GateTheorems.NewestOnlyInterrupted | crates/bobaclaw-agent/src/scope_gate.rs:121-131 | The preempting entry registered last in a scope is cancelled only by an interrupt |
| GateTheorems.BackgroundCancelledIff | crates/bobaclaw-agent/src/scope_gate.rs:147-153 | A background entry is never cancelled before it is published; published and holding its lock, it is cancelled iff a later preempting entry or interrupt came for its scope |
| GateTheorems.CancelledNeverReverts | crates/bobaclaw-agent/src/scope_gate.rs:42-53 | Over every run a cancelled token stays cancelled |
| GateTheorems.InterruptReachesTurn | crates/bobaclaw-agent/src/scope_gate.rs:165-169 | The running slot names the published turn that holds the lock, so `interrupt` always cancels it |
| GateTheorems.LateUnregisterKeepsSuccessor | crates/bobaclaw-agent/src/scope_gate.rs:89-104 | An entry that unregisters late never erases its successor from the running slot or from the map |
| GateTheorems.InterruptReports | crates/bobaclaw-agent/src/scope_gate.rs:165-169 | `interrupt` returns true only if an exposed entry of the scope was there, and always if one had not yet released its lock |
| GateTheorems.ReachableInv | crates/bobaclaw-agent/src/scope_gate.rs:106-174 | Every reachable state meets the gate invariant |
| GatePreservation.StepKeepsInv | crates/bobaclaw-agent/src/scope_gate.rs:89-161 | Each of the twelve steps keeps the gate invariant |
| GatePreservation.OneHolderPerScope | crates/bobaclaw-agent/src/scope_gate.rs:139-160 | Two lock-holding entries of one scope are the same entry |
| GatePreservation.CancellableExact | crates/bobaclaw-agent/src/scope_gate.rs:42-53 | What `cancel_preemptible` reaches: exactly the exposed entries of the scope, except published ones that already released the lock |
| GateProgress.NeverStuck | crates/bobaclaw-agent/src/scope_gate.rs:120-161 | While any entry is in the gate, some step other than an arrival, interrupt or give-up is enabled |
| GateProgress.StepDecreases | crates/bobaclaw-agent/src/scope_gate.rs:66-71 | Every step of an entry strictly lowers the measure over entry phases; interrupts leave it |
| GateProgress.CanDrain | crates/bobaclaw-agent/src/scope_gate.rs:66-104 | From every state meeting the invariant a run with no arrivals and nobody giving up, bounded by the measure, ends with an empty map, free locks and all permits |
| GateProgress.RunsEndDrained | crates/bobaclaw-agent/src/scope_gate.rs:66-104 | Without arrivals every run is bounded by the measure, and a run that cannot be continued has drained, whichever waiters gave up |
| GateFifo.QueueServedInOrder | crates/bobaclaw-agent/src/scope_gate.rs:139 | Over every run the entries that joined a scope's queue and did not give up are granted the lock in the order they joined |
| GateFifo.ArrivalOrderCanInvert | crates/bobaclaw-agent/src/scope_gate.rs:8-9 | A run in which the entry that registered second is served first: arrival order and queue order differ |
| GateFifo.GrantedAsEnqueued | crates/bobaclaw-agent/src/scope_gate.rs:139 | Of two entries of a scope that were both granted the lock, one was granted first iff it joined the queue first |
| GateFifo.ArrivalOrderIff | crates/bobaclaw-agent/src/scope_gate.rs:8-9 | A scope grants its lock in the order of registration iff those it granted it to also joined the queue in that order |
| GateFifo.PromptServedAsArrived | crates/bobaclaw-agent/src/scope_gate.rs:120-139 | In a run where every registration is followed at once by its entry joining the queue, those that did not give up are served in the order they registered |
| GateFifo.UnregisterQueue | crates/bobaclaw-agent/src/scope_gate.rs:100-102 | When the last user removes a scope from the map its lock's queue is empty |
| ScopeGateImpl.ScopeGate.constructor | crates/bobaclaw-agent/src/scope_gate.rs:107-113 | A new gate is the empty state with max(1, max_parallel) permits and meets the invariant |
| ScopeGateImpl.ScopeGate.CancelPreemptible | crates/bobaclaw-agent/src/scope_gate.rs:42-53 | Cancels the running token and every queued preempting one, nothing else, and reports whether there was any |
| ScopeGateImpl.ScopeGate.EntryOrInsert | crates/bobaclaw-agent/src/scope_gate.rs:125 | An existing map entry is returned unchanged; a new one gets a lock object of its own |
| ScopeGateImpl.ScopeGate.Register | crates/bobaclaw-agent/src/scope_gate.rs:123-132 | First critical section of `enter`: the step `DoRegister` in place |
| ScopeGateImpl.ScopeGate.Retain | crates/bobaclaw-agent/src/scope_gate.rs:99 | `retain` removes every occurrence of an id and keeps the order of the rest |
| ScopeGateImpl.ScopeGate.Publish | crates/bobaclaw-agent/src/scope_gate.rs:147-153 | Second critical section of `enter`: the step `DoPublish` in place |
| ScopeGateImpl.ScopeGate.DropPermit | crates/bobaclaw-agent/src/scope_gate.rs:66-71 | First field dropped: the permit, with the lock still held |
| ScopeGateImpl.ScopeGate.DropLock | crates/bobaclaw-agent/src/scope_gate.rs:66-71 | Second field dropped: the scope lock, with the entry still registered |
| ScopeGateImpl.ScopeGate.Unregister | crates/bobaclaw-agent/src/scope_gate.rs:89-104 | `Drop` of a registration: the step `DoUnregister` in place |
| ScopeGateImpl.ScopeGate.AbandonQueued | crates/bobaclaw-agent/src/scope_gate.rs:139 | The `enter` future dropped while it waits for the lock leaves the queue |
| ScopeGateImpl.ScopeGate.AbandonLocked | crates/bobaclaw-agent/src/scope_gate.rs:140-145 | The `enter` future dropped while it waits for a permit releases the lock |
| ScopeGateImpl.ScopeGate.Interrupt | crates/bobaclaw-agent/src/scope_gate.rs:165-169 | Cancels what the scope exposes and returns true iff there was something to cancel |
| ScopeGateImpl.ScopeGate.Take | crates/bobaclaw-agent/src/scope_gate.rs:120-174 | Every step, updating the fields in place, is the step of the model and keeps the invariant |
| ScopeGateImpl.ScopeGate.IsBusy | crates/bobaclaw-agent/src/scope_gate.rs:172-174 | True iff an entry, queued, running or leaving, is registered in the scope |
| Dispatcher.ConcurrentRefinesSequential | crates/bobaclaw-agent/src/dispatcher.rs:54-73 | However turns interleave, the rows dispatcher turns wrote to a session are those of the same turns run one at a time in gate order, user row then reply row |
| Dispatcher.EarlierTurnsAreFinal | crates/bobaclaw-agent/src/loop_.rs:86-136 | Once a later turn of the session came through the gate no earlier one writes again |
| Dispatcher.SessionScopeInjective | crates/bobaclaw-core/src/request.rs:178-180 | Different sessions have different scope keys |
| Dispatcher.StepKeepsWorld | crates/bobaclaw-agent/src/dispatcher.rs:54-73 | Every step of dispatchers and other writers keeps gate invariant, turn order and the refinement |
| Dispatcher.WriteRefines | crates/bobaclaw-agent/src/loop_.rs:91-136 | A row written by a turn that holds its guard extends the last block of its session and no other |
| Requests.KeptAsAsked | crates/bobaclaw-agent/src/dispatcher.rs:54-73 | In every run, whatever steps follow, a call still in the gate has the scope of the session it came for and the preempt flag it came with, and every event logged of it carries them |
| Requests.ArrivesAsAsked | crates/bobaclaw-agent/src/scope_gate.rs:121-131 | A call is in the gate as soon as it has come in, for its session and with its flag, and cancels nothing by that |
| Requests.StaysUntilItLeaves | crates/bobaclaw-agent/src/scope_gate.rs:66-71 | A call leaves the gate by its own last step, never by a step of another |
| Requests.NewerMessageWins | crates/bobaclaw-agent/src/scope_gate.rs:121-131 | Of two user messages for a session that both registered, the one that registered first is cancelled in every later state until it has released the lock |
| Requests.BackgroundCancelsNothing | crates/bobaclaw-agent/src/dispatcher.rs:19-25 | A call that came in without the flag cancels nothing at any of its steps |
| DispatcherRuns.EveryCallCanFinish | crates/bobaclaw-agent/src/dispatcher.rs:54-73 | Whatever has happened, without new calls or interrupts and with nobody giving up there is a way on that empties the gate and in which every call that has not begun to leave records its message and its reply |
| DispatcherRuns.GateFollows | crates/bobaclaw-agent/src/dispatcher.rs:54-73 | A run of the dispatcher is a run of its gate, in which a call arrives in the scope of its session with its flag, and writing rows does nothing |
| AgentTurn.AgentLoop.HandleTurn | crates/bobaclaw-agent/src/loop_.rs:80-136 | For every outcome of its three store statements: two rows iff all work and the loop does not fail, else those before the failure; the model is asked iff the first two work, on the session with the message in it; with a reply row goes an answer, interrupted iff the loop was, stored with its tool results; superseded before it got its guard it asks no model and is interrupted; meanwhile only steps of the dispatcher happen |
| AgentTurn.AgentLoop.AppendMessage | crates/bobaclaw-agent/src/loop_.rs:91-93 | A row is appended by one step of the turn, exactly when the store lets it |
| AgentTurn.AgentLoop.Answer | crates/bobaclaw-agent/src/loop_.rs:99-111 | The tool loop runs on the token of the gate: cancelled before, it asks no model and is interrupted |
| AgentTurn.AgentLoop.RunAndReply | crates/bobaclaw-agent/src/loop_.rs:99-136 | The reply row is written iff the loop did not fail and the store works, whether or not the turn was interrupted |
| AgentTurn.AgentLoop.Respond | crates/bobaclaw-agent/src/turn.rs:165-214 | The stored form is the text, or the interrupted reply, with its tool results behind it; what is shown is that form sanitised |
| AgentTurn.InterruptedSays | crates/bobaclaw-agent/src/cancel.rs:21-28 | An interrupted reply is never blank, keeps what the model had said, marked, and is the plain notice iff that was blank |
| AgentTurn.SupersededIsCancelled | crates/bobaclaw-agent/src/dispatcher.rs:19-25 | A running turn after whose registration a newer user message registered in its scope has a cancelled token |
| Compaction.NothingLost | crates/bobaclaw-agent/src/compaction.rs:51-128 | Over every run of appends, plans and late commits, the latest summary stands through its chain for exactly the messages at or below its boundary, and the model sees it followed by exactly the rest in id order |
| Compaction.PlanCoversAllButTail | crates/bobaclaw-agent/src/compaction.rs:101-113 | A plan exists iff at least two uncovered rows precede the kept tail; it takes all of them, leaves the last max(tail_keep, 1), and its boundary is the last id it takes |
| Compaction.PlanAdvances | crates/bobaclaw-agent/src/compaction.rs:70-113 | A plan's boundary is strictly above the previous boundary, or above the id of a legacy summary row |
| Compaction.CommitLeavesTail | crates/bobaclaw-agent/src/compaction.rs:115-128 | Committing a plan on its own snapshot leaves exactly the kept tail uncovered |
| Compaction.ReplanIsNone | crates/bobaclaw-agent/src/compaction.rs:101-128 | Planning again right after a commit with the same tail returns None |
| Compaction.UncoveredIsTail | crates/bobaclaw-agent/src/compaction.rs:70-83 | The uncovered rows are always a tail of the conversation, starting after the boundary or the legacy row |
| Compaction.SummaryRoundTrip | crates/bobaclaw-agent/src/prompt.rs:190-204 | Reading a summary row gives back the trimmed summary iff that summary is not blank |
| LegacySummaries.LegacyTailReads | crates/bobaclaw-agent/src/prompt.rs:190-204 | A row of an earlier version with the longer marker reads back as its summary, without the separators in front |
| LegacySummaries.LegacyRowReads | crates/bobaclaw-agent/src/prompt.rs:190-204 | One with the shorter marker reads back as its summary |
| Compaction.SummaryIsQuoted | crates/bobaclaw-agent/src/compaction.rs:55-63 | A summary row written by the protocol is found by the next plan, which quotes exactly its trimmed text |
| Lineage.CommittedIsQuoted | crates/bobaclaw-agent/src/compaction.rs:55-63 | Whatever is appended, planned or given up after a commit, every plan until the next commit hands the summariser exactly the trimmed text that was committed |
| Lineage.NothingUntold | crates/bobaclaw-agent/src/compaction.rs:51-128 | Over every run with a faithful summariser, one whose text tells all it was given, the text the model sees tells every message of the session |
| Lineage.GivenCovered | crates/bobaclaw-agent/src/compaction.rs:101-113 | What a plan gives the summariser, quoted text included, tells every message up to its boundary |
| Lineage.EachPlanOnce | crates/bobaclaw-agent/src/compaction.rs:115-128 | Over every run, plans made are plans committed, given up, or still in flight: none is used twice |
| Compaction.EstimateIsAQuarter | crates/bobaclaw-agent/src/context.rs:6-20 | Up to 2^34 bytes the estimate is a quarter of the bytes of all texts, roles, call names and arguments, rounded down, and at least 1 |
| Compaction.PlanSources | crates/bobaclaw-agent/src/compaction.rs:101-113 | A plan's sources, through the summary it quotes, are every message up to its boundary, once and in order |
| Compaction.WriteKeeps | crates/bobaclaw-state/src/session.rs:222-266 | Append, plan, late commit and failed summary each keep the history invariant |
| Compaction.BoundaryGoesBackIff | crates/bobaclaw-agent/src/compaction.rs:115-128 | In every state meeting the invariant that has a summary, committing a plan moves the boundary back iff the plan reaches less far than the latest summary; the history stays complete either way |
| Compaction.BoundaryAdvances | crates/bobaclaw-agent/src/compaction.rs:101-128 | If nobody else commits between a plan and its own commit, the boundary moves strictly forward |
| Compaction.BoundaryCanGoBack | crates/bobaclaw-agent/src/compaction.rs:115-128 | A run from the empty log whose last commit takes the boundary from 4 back to 2 |
| Compaction.TwoPlansInFlight | crates/bobaclaw-agent/src/compaction.rs:101-128 | A run from the empty log to one with two plans in flight, the first reaching less far |
| Compaction.MarkersAreReal | crates/bobaclaw-agent/src/prompt.rs:126-138 | The markers the program writes and reads have the shape the results above ask for, whatever guidance the current one gives |
| Compaction.LastCompactionIndex | crates/bobaclaw-agent/src/compaction.rs:51-53 | The index found is that of a summary row |
| Compaction.LastIndexBound | crates/bobaclaw-agent/src/compaction.rs:51-53 | It is the last one: no summary row comes after it, and None means there is none |
| Compaction.MessageTable.InsertMessage | crates/bobaclaw-state/src/session.rs:242-266 | Appends one row with an id above all earlier ones |
| Compaction.MessageTable.RunCompaction | crates/bobaclaw-agent/src/compaction.rs:115-128 | Appends the summary row iff the summariser answered, else changes nothing |
| Compaction.MessageTable.MaybeCompact | crates/bobaclaw-agent/src/compaction.rs:130-159 | Not needed unless enabled, at least six rows, estimate over the threshold and enough uncovered rows; then an error without a summary, else exactly the tail stays and replanning finds nothing |
| Compaction.MessageTable.ForceCompact | crates/bobaclaw-agent/src/compaction.rs:161-177 | `/compact` keeps at least two messages, and fails iff too few rows are uncovered or no summary came |
| Compaction.HistoryToConversation | crates/bobaclaw-agent/src/compaction.rs:194-211 | One message per row, summaries as user messages, never with tool calls |
| ToolLoop.ToolLoop.RunToolLoop | crates/bobaclaw-agent/src/tool_loop.rs:113-335 | For every behaviour of model, tools, cancellation and other writers: bounded calls, none once cancelled; what was pushed is the transcript of the exchanges and retries, what is stored the entries of their answers, calls are run as made, and a completed turn says its last text, settled, and reports the limit iff the main loop left none |
| ToolLoop.RunAgentTurn | crates/bobaclaw-agent/src/turn.rs:53-148 | Every model call of a parent turn is sent the system prompt, the effective history of the session's log as some writers extended it, in which the summary stands for exactly what does not follow it, and this turn's messages, in the main loop with every tool call answered at once, in order, by id; messages, stored entries and final text are those of what model and tools answered; cancelled before it starts it asks nothing and writes nothing |
| ToolLoop.Prepare | crates/bobaclaw-agent/src/turn.rs:65-93 | Before the loop the turn ends at the first of cancellation, a failed compaction and cancellation again, and goes on only past all three |
| ToolLoop.ToolLoop.CallShows | crates/bobaclaw-agent/src/compaction.rs:34-47 | What precedes this turn's messages is always the system prompt and a complete view of the session |
| ToolLoop.ToolLoop.EnsureContextBudget | crates/bobaclaw-agent/src/compaction.rs:16-49 | Below the guard nothing happens; above it the log only grows by writes of compactors and others, and a rebuild replaces what precedes this turn's messages by the system message and that log's effective history, and moves the boundary to the join |
| ToolLoop.ToolLoop.MainLoop | crates/bobaclaw-agent/src/tool_loop.rs:138-241 | At most max_iterations model calls, one exchange for each reply, and each was shown the transcript of exactly the exchanges before it; it stops by itself only at a reply without calls that is not nudged; a reply is nudged iff it made no call, an action is required, none was executed and nudges are left; cancelled at the start it asks nothing |
| ToolLoop.ToolLoop.CheckCancel | crates/bobaclaw-agent/src/tool_loop.rs:139-141 | A cancelled token stays cancelled |
| ToolLoop.ToolLoop.AskModel | crates/bobaclaw-agent/src/tool_loop.rs:139-164 | One model call at most, on the messages as they stand after the budget check, with all tools; none if cancelled |
| ToolLoop.ToolLoop.HandleReply | crates/bobaclaw-agent/src/tool_loop.rs:166-240 | The reply becomes an exchange with the answers to its calls, in order; its text becomes final if it is not blank or makes no call, and is not nudged; the loop goes on iff every call was answered or it was nudged |
| ToolLoop.TextOfReply | crates/bobaclaw-agent/src/tool_loop.rs:174-240 | The text the exchanges leave is empty or that of one of their replies |
| ToolLoop.NudgesBounded | crates/bobaclaw-agent/src/tool_loop.rs:169-233 | Never more nudges than allowed, and none unless an action is required |
| ToolLoop.OfferedIff | crates/bobaclaw-agent/src/tool_loop.rs:266-272 | A retry is offered the tools iff one is still required or one answered a call of this turn |
| ToolLoop.ToolLoop.NudgeOrStop | crates/bobaclaw-agent/src/tool_loop.rs:228-239 | A reply without tool calls is pushed; then one more nudge within its bound, or its text becomes final |
| ToolLoop.ToolLoop.AnswerCalls | crates/bobaclaw-agent/src/tool_loop.rs:184-227 | A reply with tool calls is pushed and every call answered, or the turn ends |
| ToolLoop.ToolLoop.RunCalls | crates/bobaclaw-agent/src/tool_loop.rs:188-227 | Each call is answered at once by one result with its id, in call order |
| ToolLoop.ToolLoop.RunOneCall | crates/bobaclaw-agent/src/tool_loop.rs:190-225 | A tool's answer goes to the model whole, under the call's id, and to the store cut to its limit, under the call's name; interrupted or failed, a call leaves neither |
| ToolLoop.ToolLoop.CountAndRun | crates/bobaclaw-agent/src/tool_loop.rs:193-214 | The counter and the two tool flags reflect exactly the calls given to tools |
| ToolLoop.ToolLoop.RunNextCall | crates/bobaclaw-agent/src/tool_loop.rs:188-227 | A call that is answered extends the last exchange by its answer, one that is not leaves it |
| ToolLoop.StoredWithin | crates/bobaclaw-agent/src/tool_loop.rs:383-390 | At most 4000 characters are stored of an output, all of it iff it is no longer than that, else its first 3960 and the note |
| ToolLoop.ToolLoop.RetryLoop | crates/bobaclaw-agent/src/tool_loop.rs:247-310 | At most max_empty_response_retries further calls, until one has a text; that text, or else the old one, is final, and each pushes its nudge and its reply |
| ToolLoop.ToolLoop.RetryOnce | crates/bobaclaw-agent/src/tool_loop.rs:259-308 | Pushes the nudge its case calls for, then asks the model once, with tools iff still required or some were used; the reply is pushed and, unless blank, becomes the final text |
| ToolLoop.ToolLoop.FillFinalText | crates/bobaclaw-agent/src/tool_loop.rs:312-328 | The fallback or the step-limit suffix, by the branches of the source |
| ToolLoop.ToolLoop.SettleFinalText | crates/bobaclaw-agent/src/tool_loop.rs:312-332 | The final text is not blank: the text the model left, or its stand-in, with the sources footer in a parent turn |
| ToolLoop.ReportSays | crates/bobaclaw-agent/src/tool_loop.rs:312-328 | The model's text comes first and is all of the report unless the turn ran into its iteration limit, which the report then names by its number |
| ToolLoop.SettledSays | crates/bobaclaw-agent/src/tool_loop.rs:312-332 | What is said begins with the model's text, if there is one; a parent turn with sources ends with them, any other turn says just the report |
| ToolLoop.ToolLoop.Conclude | crates/bobaclaw-agent/src/tool_loop.rs:243-334 | The iteration-limit flag is set iff the main loop left no text; the result reports the text of the retries, or else of the main loop |
| TelegramSplit.SplitWithinIff | crates/bobaclaw-channel-telegram/src/split.rs:11-80 | Splitting succeeds with every chunk within the limit iff no character is wider than the limit; always for a limit of 2 or more |
| TelegramSplit.SplitConserves | crates/bobaclaw-channel-telegram/src/split.rs:11-35 | Whenever splitting succeeds the chunks concatenate to the text and none is empty unless the text is |
| TelegramSplit.FirstChunk | crates/bobaclaw-channel-telegram/src/split.rs:37-80 | A text over the limit is cut at its cut point, and its other chunks are those of the rest |
| TelegramSplit.CutPreference | crates/bobaclaw-channel-telegram/src/split.rs:63-79 | The cut is at the last paragraph break of the longest prefix that fits, else its last newline, else its last other whitespace, else its end |
| TelegramSplit.LastBreak | crates/bobaclaw-channel-telegram/src/split.rs:52-59 | The break found is the last one of its kind in the prefix |
| TelegramSplit.FitFrom | crates/bobaclaw-channel-telegram/src/split.rs:44-49 | The prefix found is the longest within the limit |
| TelegramSplit.ChunksAreStable | crates/bobaclaw-channel-telegram/src/split.rs:15-17 | Splitting a chunk again returns just that chunk |
| TelegramSplit.LimitOneCanPanic | crates/bobaclaw-channel-telegram/src/split.rs:75 | With a limit of 1 a character outside the basic plane is cut in the middle |
| Encodings.Utf16LenIs | crates/bobaclaw-channel-telegram/src/split.rs:1-9 | The length compared with the limit is that of the text in UTF-16, which reads back as the text |
| Encodings.ByteLenIs | crates/bobaclaw-channel-telegram/src/split.rs:29 | The offsets are lengths in UTF-8, which reads back as the text |
| TelegramSplit.FindBreak | crates/bobaclaw-channel-telegram/src/split.rs:38-69 | The one-pass search returns the byte offset of the last paragraph break, else newline, else space, of the longest fitting prefix |
| TelegramSplit.FindOverflow | crates/bobaclaw-channel-telegram/src/split.rs:71-79 | The second pass returns the byte offset of the first character that does not fit, at least 1 |
| TelegramSplit.FindSplitByteIndex | crates/bobaclaw-channel-telegram/src/split.rs:37-80 | Both passes together return the cut point as a byte offset |
| TelegramSplit.SplitAt | crates/bobaclaw-channel-telegram/src/split.rs:29 | Cutting succeeds iff the offset is a character boundary |
| TelegramSplit.SplitForTelegram | crates/bobaclaw-channel-telegram/src/split.rs:11-35 | The loop computes the chunk sequence of the specification, panics included |
| TelegramApi.TelegramBot.SendMessage | crates/bobaclaw-channel-telegram/src/api.rs:138-157 | The pieces of the text are tried in order, each as it is to be, until one does not get through; success iff all did, for every sequence of the server's answers |
| TelegramApi.TelegramBot.SendPart | crates/bobaclaw-channel-telegram/src/api.rs:159-191 | A part is tried in the pieces its formatted size calls for |
| TelegramApi.TelegramBot.SendSingle | crates/bobaclaw-channel-telegram/src/api.rs:193-215 | One call with the formatted text, and one more with the plain text iff the first was HTML and was refused as such; it succeeds iff the last call does |
| TelegramApi.TelegramBot.CallServer | crates/bobaclaw-channel-telegram/src/api.rs:291-341 | Sends the text if it fits, else its first piece |
| TelegramApi.PiecesAreCut | crates/bobaclaw-channel-telegram/src/api.rs:138-191 | The pieces concatenate to the text, each fits, none is empty unless the text is, only the first is a reply or an edit; a piece is plain in an HTML delivery only if its HTML is too long, and then it is at most 1900 units |
| TelegramApi.DeliveryReceived | crates/bobaclaw-channel-telegram/src/api.rs:138-215 | What the server accepted is one body for each piece, in order, or for those before the one that failed: the HTML of the piece, or the plain piece if it was to be plain or its HTML was refused as such |
| TelegramApi.EnsureTelegramLimit | crates/bobaclaw-channel-telegram/src/api.rs:558-570 | A text that fits comes back unchanged, a longer one as what precedes its cut point |
| TelegramApi.GuardedKeeps | crates/bobaclaw-channel-telegram/src/api.rs:558-570 | What is kept is a prefix within the limit, the whole text iff it fits, and empty only for an empty text: a longer tail is dropped |
| TelegramApi.TailIsDropped | crates/bobaclaw-channel-telegram/src/api.rs:558-570 | A paragraph of 820 to 1900 ampersands is within the limit of a subpart, its HTML is five times as long, and only a beginning of that is kept |
| TelegramApi.PlainDeliveryConserves | crates/bobaclaw-channel-telegram/src/api.rs:138-157 | The bodies of a plain delivery concatenate to the text, or to a beginning of it when a call failed, each non-empty and within 4096 units |
| TelegramApi.HtmlBodyReads | crates/bobaclaw-channel-telegram/src/api.rs:159-215 | A body is HTML iff its piece was to be and the first call was accepted; where the HTML of its piece fits, it reads back as nested tags around the text the Markdown reference gives for that piece, with its links and styles |
| Sanitize.PersistedSanitizesAlike | crates/bobaclaw-agent/src/turn.rs:216-267 | For every text and tool list, sanitising the persisted form equals sanitising the text |
| Sanitize.BuildPersistedAssistant | crates/bobaclaw-agent/src/turn.rs:253-267 | The loop writes the text, the marker and one terminated entry per tool |
| Appendix.EntryReads | crates/bobaclaw-agent/src/turn.rs:253-267 | What is stored of a tool call reads back: name, exit code, and the output on lines of its own, for every name without a newline |
| Appendix.StoredReads | crates/bobaclaw-agent/src/turn.rs:253-267 | Behind the text every tool call stands in order, and each reads back from its place |
| Appendix.HeaderIsToolLine | crates/bobaclaw-agent/src/turn.rs:236-249 | The header of a stored call is a line the sanitiser drops from the end of a reply |
| Appendix.ToolLineIff | crates/bobaclaw-agent/src/turn.rs:236-249 | A tool line is, but for blanks around it, a bracket with ` exit=` in it |
| Sanitize.LowerCut | crates/bobaclaw-agent/src/turn.rs:225-231 | The loop finds the earliest occurrence of any marker |
| Sanitize.FirstMarker | crates/bobaclaw-agent/src/turn.rs:225-231 | The position found is a marker's, and no marker occurs before it |
| Sanitize.TrimTail | crates/bobaclaw-agent/src/turn.rs:236-251 | The loop drops exactly the trailing blank and tool lines |
| Sanitize.KeepLines | crates/bobaclaw-agent/src/turn.rs:236-249 | What is kept is a prefix of the lines that does not end in a dropped line, and everything after it is dropped |
| Sanitize.StripLeaked | crates/bobaclaw-agent/src/turn.rs:225-233 | The text before the first leaked marker, without trailing whitespace |
| Sanitize.Sanitized | crates/bobaclaw-agent/src/turn.rs:216-223 | The three stages in place |
| SanitizeTheorems.ResultMarkerFree | crates/bobaclaw-agent/src/turn.rs:216-251 | No sanitised text contains the appendix comment or a leaked marker |
| SanitizeTheorems.ResultIsPrefixIff | crates/bobaclaw-agent/src/turn.rs:236-251 | The result is a prefix of the input iff no kept line but the last lost a carriage return |
| SanitizeTheorems.SanitizeIdempotentIff | crates/bobaclaw-agent/src/turn.rs:216-251 | Sanitising twice changes nothing iff no kept line but the last still ends in a carriage return after one is stripped |
| SanitizeTheorems.WithoutCarriageReturns | crates/bobaclaw-agent/src/turn.rs:216-251 | Without carriage returns the result is a prefix of the input and sanitising is idempotent |
| SanitizeTheorems.CarriageReturnRewritten | crates/bobaclaw-agent/src/turn.rs:237-250 | A concrete text whose line ending is rewritten |
| SanitizeTheorems.SanitizeTwiceDiffers | crates/bobaclaw-agent/src/turn.rs:216-251 | A concrete text on which the second application changes the result again |
| SanitizeTheorems.ResultShape | crates/bobaclaw-agent/src/turn.rs:236-251 | The result is the kept lines joined by newlines, the last one trimmed at its end |
| HtmlReading.RenderedReads | crates/bobaclaw-channel-telegram/src/format.rs:35-42 | The HTML of a well-nested stream reads back as properly nested tags with none left open, around exactly the reference text up to outer whitespace, with the link targets in order |
| HtmlReading.RenderEvents | crates/bobaclaw-channel-telegram/src/format.rs:35-42 | The renderer, event by event and updated in place, writes that HTML |
| HtmlStyles.RenderedStyles | crates/bobaclaw-channel-telegram/src/format.rs:93-208 | Every character a reader of the HTML sees has exactly the styles the Markdown reference gives it, innermost last: headings and strong bold, emphasis italic, strikethrough, inline code, quotes, links with their targets, code blocks with their language |
| HtmlTheorems.PiecesKeepText | crates/bobaclaw-channel-telegram/src/format.rs:93-208 | Without the added marks the reference text is the stream's own text in order, and every mark is a newline, a rule, a bullet or a number |
| HtmlMarkup.ScanFlatten | crates/bobaclaw-channel-telegram/src/format.rs:254-276 | An HTML reader recovers exactly the markup written: no text can pose as a tag, no attribute value can break out |
| HtmlMarkup.AttrRoundTrip | crates/bobaclaw-channel-telegram/src/format.rs:267-276 | An attribute value comes back from its escaped form |
| HtmlMarkup.TextEscaped | crates/bobaclaw-channel-telegram/src/format.rs:254-265 | Escaped text holds no bracket, and is the text itself iff that held nothing to escape |
| HtmlMarkup.AttrEscaped | crates/bobaclaw-channel-telegram/src/format.rs:267-276 | An escaped value holds no quote and no opening bracket, and is the value itself iff that held nothing to escape |
| HtmlRaw.RawIsVerbatim | crates/bobaclaw-channel-telegram/src/format.rs:196 | Outside code blocks raw HTML follows, unescaped, what the events before it wrote, whatever comes behind |
| HtmlMarkup.TrimFlatten | crates/bobaclaw-channel-telegram/src/format.rs:76 | The final trim drops exactly whitespace characters at the two ends, never part of a tag |
| HtmlMarkup.ReadTrimmed | crates/bobaclaw-channel-telegram/src/format.rs:71-77 | Trimming leaves nesting and links as they are and the text up to outer whitespace |
| HtmlReading.EventStep | crates/bobaclaw-channel-telegram/src/format.rs:93-208 | Each event of a well-nested stream shows exactly what the reference says and keeps stack and counters in step with the open events |
| HtmlTheorems.PopAdds | crates/bobaclaw-channel-telegram/src/format.rs:84-91 | An end event closes the innermost tag and no other, shared `<b>` included |
| HtmlTheorems.PreAdds | crates/bobaclaw-channel-telegram/src/format.rs:210-225 | A code block adds its text and a newline between its own tags, bypassing the stack |
| HtmlReading.ItemStep | crates/bobaclaw-channel-telegram/src/format.rs:135-145 | A list item starts a line with its bullet or the next number of the innermost list |
| HtmlRenderer.CutAtIs | crates/bobaclaw-channel-telegram/src/format.rs:84-91 | The cut is at the topmost matching tag, or nowhere |
| HtmlRenderer.RPosition | crates/bobaclaw-channel-telegram/src/format.rs:85 | The search finds the topmost matching tag |
| HtmlRenderer.EscapeHtmlText | crates/bobaclaw-channel-telegram/src/format.rs:254-265 | The loop escapes the three characters of text |
| HtmlRenderer.EscapeHtmlAttrInto | crates/bobaclaw-channel-telegram/src/format.rs:267-276 | The loop escapes the three characters of attribute values |
| HtmlRenderer.Renderer.Handle | crates/bobaclaw-channel-telegram/src/format.rs:93-199 | One event updates output, stack, buffer and counters as the state function says |
| HtmlRenderer.Renderer.OnPre | crates/bobaclaw-channel-telegram/src/format.rs:201-208 | Inside a code block only text, breaks and the block's end have an effect |
| HtmlRenderer.Renderer.OnStartTag | crates/bobaclaw-channel-telegram/src/format.rs:98-159 | A start event as the state function says |
| HtmlRenderer.Renderer.OnEndTag | crates/bobaclaw-channel-telegram/src/format.rs:160-184 | An end event as the state function says |
| HtmlRenderer.Renderer.OnItem | crates/bobaclaw-channel-telegram/src/format.rs:135-145 | The item prefix and the counter of the innermost list |
| HtmlRenderer.Renderer.PopMatchingTag | crates/bobaclaw-channel-telegram/src/format.rs:84-91 | Closes every tag above the topmost match, innermost first, or nothing without a match |
| HtmlRenderer.Renderer.FlushPreBlock | crates/bobaclaw-channel-telegram/src/format.rs:210-225 | Writes the buffered code block and clears the buffer |
| HtmlRenderer.Renderer.EnsureNewline | crates/bobaclaw-channel-telegram/src/format.rs:231-235 | A newline iff there is output and it does not end in one |
| HtmlRenderer.Renderer.Finish | crates/bobaclaw-channel-telegram/src/format.rs:71-77 | Flushes an open code block, empties the stack without closing tags, trims |
| ShellQuote.QuotedRoundTrip | crates/bobaclaw-executor/src/bwrap.rs:353-364 | A quoted value lexes to one word with exactly that value iff it has no NUL |
| ShellQuote.ShellSingleQuote | crates/bobaclaw-executor/src/bwrap.rs:353-364 | The loop writes the quoted form, which lexes back to the value |
| ShellQuote.EnvFileRoundTrip | crates/bobaclaw-executor/src/bwrap.rs:318-327 | The env file reads back as exactly the list of assignments it was written from iff no value has a NUL |
| ShellQuote.EnvFileDetermines | crates/bobaclaw-executor/src/bwrap.rs:318-327 | Two lists that write the same file are the same list |
| ShellQuote.WriteEnvBody | crates/bobaclaw-executor/src/bwrap.rs:318-327 | The body is written iff every name is valid; otherwise the first invalid name is reported |
| ShellQuote.ValidNameIff | crates/bobaclaw-executor/src/bwrap.rs:278-285 | A name is valid iff a shell reads it as the whole name of an assignment |
| ShellQuote.WordsJoin | crates/bobaclaw-agent/src/subagent/backends/mod.rs:117-133 | Command text set side by side with a blank contributes its own words and nothing else |
| ShellQuote.CodexArguments | crates/bobaclaw-agent/src/subagent/backends/mod.rs:126-133 | The codex command's last argument is the prompt, whole, iff the prompt has no NUL |
| ShellQuote.ClaudeArguments | crates/bobaclaw-agent/src/subagent/backends/mod.rs:117-124 | The claude command carries the prompt whole as the argument of `-p` iff the prompt has no NUL |
| Scheduler.AtMostOnce | crates/bobaclaw-scheduler/src/runner.rs:207-214 | With any number of schedulers the body of a task starts at most once |
| Scheduler.CancelExcludesStart | crates/bobaclaw-state/src/scheduled.rs:125-134 | A task cancelled successfully never starts, one that started is never cancelled |
| Scheduler.NeverEarly | crates/bobaclaw-state/src/scheduled.rs:71-80 | No body starts before `run_at` on the clock of the scheduler that claimed it |
| Scheduler.StatusMovesForward | crates/bobaclaw-state/src/scheduled.rs:92-134 | Every step moves a status only pending to running or cancelled, or running to done or failed |
| Scheduler.StatusTellsStory | crates/bobaclaw-state/src/scheduled.rs:92-134 | In every state a row is pending iff it was neither claimed nor withdrawn, cancelled iff withdrawn, done iff an outcome was recorded as delivered, failed iff one was recorded as failed |
| Scheduler.NoneLeftRunningIff | crates/bobaclaw-scheduler/src/runner.rs:211-246 | At the end of a run every running row is being executed iff no scheduler died over one and no outcome went unrecorded |
| Scheduler.OrphanStays | crates/bobaclaw-state/src/scheduled.rs:92-123 | A running row that no scheduler executes stays running for ever |
| Scheduler.DiesOverARow | crates/bobaclaw-scheduler/src/runner.rs:207-214 | A run from the empty table in which a scheduler claims a row and dies over it |
| Scheduler.DueTasksAreTaken | crates/bobaclaw-scheduler/src/runner.rs:200-214 | A scheduler whose list was below the limit, once worked off, has left no row pending that was due when it looked |
| Scheduler.StepKeepsInv | crates/bobaclaw-state/src/scheduled.rs:92-134 | Every step of every scheduler and operator keeps the table and log invariant |
| Scheduler.TaskStore.MarkRunning | crates/bobaclaw-state/src/scheduled.rs:92-100 | Claims a row iff it is pending, unless the statement fails and changes nothing |
| Scheduler.TaskStore.MarkDone | crates/bobaclaw-state/src/scheduled.rs:102-110 | Sets done whatever the row says, unless the statement fails |
| Scheduler.TaskStore.MarkFailed | crates/bobaclaw-state/src/scheduled.rs:112-123 | Sets failed whatever the row says, unless the statement fails |
| Scheduler.TaskStore.CancelTask | crates/bobaclaw-state/src/scheduled.rs:125-134 | Cancels a row iff it is pending, unless the statement fails and changes nothing |
| Scheduler.Runner.RunDueScheduled | crates/bobaclaw-scheduler/src/runner.rs:193-216 | With other schedulers and operators anywhere in between, one pass takes only steps of the step system; every row it claimed it also ran, and the row ended with the outcome its delivery and the store give; it succeeds iff no claim fails; then nothing on its list is pending, and with a list below the limit nothing that was due when it looked |
| Scheduler.Runner.ClaimNext | crates/bobaclaw-scheduler/src/runner.rs:207-210 | One claim is one step: the row is claimed iff it is pending, and is not pending afterwards |
| Scheduler.Runner.Record | crates/bobaclaw-scheduler/src/runner.rs:211-214 | The outcome of a row is one step: done iff delivered and recorded so, else failed if that statement works, else left running |
| Scheduler.WakesInTime | crates/bobaclaw-scheduler/src/runner.rs:119-137 | Sleep is between one second and the tick, the whole tick without a next task, ends at most a second after the next task is due, and before that only at the tick |
| Cron.StartedIff | crates/bobaclaw-scheduler/src/runner.rs:258-283 | For every schedule: a fire starts iff at some tick, none of whose statements fails before the start is on record, it is the oldest fire of the window and no run is on record since a second before it |
| Cron.ExactlyOnceIff | crates/bobaclaw-scheduler/src/runner.rs:258-283 | And then exactly once, otherwise never |
| Cron.OlderFireHides | crates/bobaclaw-scheduler/src/runner.rs:269-281 | With the default tick and a fire every five seconds, every fire has a run that ticks half a second after it with nothing on record and never starts it: an older fire hides it |
| Cron.SpacedOnceIff | crates/bobaclaw-scheduler/src/runner.rs:258-283 | With fires at least a window apart the first tick at or after a fire that does not fail decides it: it starts exactly once iff that tick is within the window and no run is on record since a second before the fire, else never |
| Cron.NoFireMissed | crates/bobaclaw-scheduler/src/runner.rs:108-283 | If one-shot work before the cron clock is read, work on recurring jobs after it, and the longest sleep fit in the window together, a fire of such a schedule after the first tick is lost only to a tick that failed or a run recorded too recently |
| Cron.EveryFireSeen | crates/bobaclaw-scheduler/src/runner.rs:108-258 | Then every fire after the first tick is in the window of the first tick at or after it |
| Cron.NoFireTwice | crates/bobaclaw-scheduler/src/runner.rs:258-283 | One scheduler never starts a fire twice, however long runs and pauses are |
| Cron.RepeatsOverlap | crates/bobaclaw-scheduler/src/runner.rs:277-283 | With any number of schedulers, a second start of a fire is by another scheduler that had decided before the first start |
| Cron.OneHandOneStart | crates/bobaclaw-scheduler/src/runner.rs:277-283 | A fire that in no state of a run two schedulers have both decided to start is started at most once |
| Cron.TwoHandsStartTwice | crates/bobaclaw-scheduler/src/runner.rs:277-283 | From every state in which two schedulers have decided to start a fire, both can go on and start it |
| Cron.TwoSchedulersCanRepeat | crates/bobaclaw-scheduler/src/runner.rs:277-283 | A run from the empty state in which two schedulers both start the same fire |
| CronTicks.TicksAreRun | crates/bobaclaw-scheduler/src/runner.rs:258-337 | The ticks of one scheduler are a run of the system of many: same records, same starts in the same order |
| Cron.LosesNoneIff | crates/bobaclaw-scheduler/src/runner.rs:108-283 | No run of ticks that do not fail loses an unserved fire of a spaced schedule iff one-shot work, work on recurring jobs and the longest sleep fit in the window together, for all bounds on the work and every tick_secs |
| Cron.TimeForWork | crates/bobaclaw-scheduler/src/runner.rs:101 | That leaves two seconds of work to a tick if tick_secs is 5 or more, less if it is shorter, and nothing, not even idle, below 3 |
| Cron.BetweenWindowsIsLost | crates/bobaclaw-scheduler/src/runner.rs:258-275 | A fire between the windows of two ticks in a row never starts, whatever the schedule and the other ticks |
| Cron.FireInWindow | crates/bobaclaw-scheduler/src/runner.rs:269-275 | The search through four instants finds the first fire of the window, if it has one |
| Cron.FirstFire | crates/bobaclaw-scheduler/src/runner.rs:269-271 | The instant found is the earliest fire in the window, None means there is none |
| Cron.ServedIff | crates/bobaclaw-scheduler/src/runner.rs:277-281 | A fire is served iff some record is at or after a second before it |
| Cron.CronRuns.RecordRun | crates/bobaclaw-state/src/cron.rs:130-143 | Appends the record exactly when the statement works |
| Cron.CronRuns.LastRunAt | crates/bobaclaw-state/src/cron.rs:145-154 | The greatest time on record, exactly when the statement works |
| Cron.CronRuns.RunDue | crates/bobaclaw-scheduler/src/runner.rs:258-337 | One job's tick updates records and starts as the tick function says for every choice of statements that fail, and fails iff one it needed does |

## Left out

- Closing the semaphore and poisoned map locks: the first never happens in the repository, the second is ignored there.
- Fairness of the permit semaphore: permits are granted to any waiting lock holder, which is weaker than its queue.
- `resolve_session` under the resolve lock, and which kinds of ingress preempt: a request comes with its session and its flag.
- AgentTurn.AgentLoop.HandleTurn: the dispatcher's rows keep session, turn and role; their texts are the message in the log the model is shown and the stored form in the answer.
- SQL, HTTP, the Telegram client, tool bodies and the model itself: tables are maps and sequences with the stated conditional updates, everything else an arbitrary answer.
- The prompt's size: the context is rebuilt when its estimate reaches the guard, but no bound on a rebuilt one is claimed.
- The guidance inside the current summary marker: `Compaction.MarkersAreReal` holds whatever it says.
- Summariser prompts: a plan carries the rows and the previous summary; how they are worded is not part of this model, and that a summary leaves nothing out is an assumption of `Lineage.NothingUntold`.
- ToolLoop.ToolLoop.RunToolLoop: does not model progress events or how sources are collected from tool calls; the sources footer is any function of the text it is added to.
- ToolLoop.RunAgentTurn: states pairing of calls and results for the main loop only, because the retry loop pushes replies whose tool calls are never run; the text of the system prompt is a parameter; a child turn's rebuild takes the session's history in place of its subtask, so what a rebuilt context shows is not stated for child turns.
- TelegramApi.HtmlBodyReads: where the HTML made of a subpart is over the limit, only the size and the cut are known, because the last guard keeps only the first piece.
- HtmlReading.RenderedReads: streams with raw HTML events are excluded, because raw HTML passes through unescaped; the Markdown parser is not modelled, its events are assumed well nested.
- Renderer fields that are written and never read (`link_url`, `list_depth`, `blockquote_depth`).
- The cursor command, quoted by the same function.
- Expansions, patterns, double quotes and comments of the shell: text that uses them has no value in the lexer.
- The env file's directory, permissions and removal.
- `list_due` as SQL: its result is any list that `Scheduler.IsDueList` allows, ties in any order.
- Statements that fail after they took effect: in the model a failing statement changes nothing.
- Cron expressions: a schedule is the set of its instants; jobs with an invalid expression are skipped as in the source.
- Configuration, skills, trust, pairing, doctor, terminal rendering and MCP: plumbing or easy members.
