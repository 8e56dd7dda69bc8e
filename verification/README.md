# A verified model of the agent gateway

The gateway serves chat requests of OpenAI-compatible clients through long-running agent processes that speak JSON-RPC
over their standard streams. This project models the parts of it where state and interleaving make mistakes easy, and
proves what they keep. `dafny verify dfyconfig.toml` checks the whole project with Dafny 4.11.

| file | what it models |
|---|---|
| `Permits.dfy` | the concurrency controller, one event for each atomic operation |
| `Router.dfy` | the router: permits, turn goroutines, the two readers of the error channel, gateway reloads |
| `RpcClient.dfy` | the JSON-RPC multiplexer: pending table, read loop, cancellation, exit, Close |
| `Events.dfy`, `Translate.dfy`, `Turns.dfy`, `TurnText.dfy` | turns on one process: serialisation, handler, event order, the text that reaches the reader |
| `Pool.dfy` | the conversation pool: map, order slice, time to live, cap |
| `ConversationKey.dfy` | the thread key |
| `Continuity.dfy`, `TurnSession.dfy`, `PooledContinuity.dfy` | which part of a transcript goes to which agent session over whole runs, and the same over the pool |
| `Prompt.dfy` | the prompt printer and the search that reads the last user text back |
| `Json.dfy`, `ToolCalls.dfy` | tool calls as JSON text: printer, parser, extraction from prose, normalisation |
| `Fences.dfy` | what a code fence inside printed tool calls can hold |
| `Sink.dfy` | the streaming answer and the synchronous one |
| `TurnStream.dfy` | the stream of a turn: Turns and Sink together |
| `SessionStore.dfy` | the stored sessions: shared entries re-keyed in place |
| `ConfigMerge.dfy`, `MergeInPlace.dfy` | the merge of configuration patches: its laws, and the loop on maps that are changed in place |
| `LineDiff.dfy`, `StructuralDiff.dfy` | the two diffs of the trace viewer |
| `Strings.dfy`, `Wrappers.dfy` | the string functions the above need |

Concurrent parts are state machines: an event for each atomic operation, channel operation or lock region, a function
for the step, and theorems over every run, that is every interleaving. Beside each machine or specification function
stands a class, or a method with the program's own loop, whose contract ties its fields or its result to that function.
What such a function means is then said without naming it: by the fields of an entry or a call, the text and the chunks
that the client receives, the events of a run, or the literal parts of a prompt.

## What the code does not keep

Where the program or a natural reading of it promises more than the code does, the code is modelled as it is. Each line
names the lemma with a failing input or run, and the one that says for all inputs exactly when the property holds.

| what fails | failing input or run | holds exactly when |
|---|---|---|
| the cap of the pool | `Pool.CapIsSoft` | `Pool.CapHoldsExactlyWhen`, and `Pool.SoftBound` over runs |
| the limit of the permit controller, with stray releases | `Permits.StrayReleaseBreaksTheLimit` | `Permits.HoldersInEveryRun` |
| the pool entry counts what its session was told | `Continuity.RemovalLosesTheBeginning` | `Continuity.EntryIsRightExactlyWhen` |
| a session is told each message once | `Continuity.BlankTurnRepeatsItself` | `Continuity.OnceMoreExactlyWhen`, with `Prompt.NothingToSay` |
| the thread key tells conversations apart | `ConversationKey.LinesBreakTheKey` | `ConversationKey.SharedKey` for all texts, `ConversationKey.KeyIdentifies` for single-line system texts |
| the stored sessions' hash tells conversations apart | `SessionStore.ConversationsCanCollide` | `SessionStore.HashIdentifies` for single-line texts |
| a stored session is found by the request that continues it | `SessionStore.ContinuationIsAnotherKey`: never by that session's new key | `SessionStore.UpdateThenGet`: by the request that ends with the reply |
| the handler sees the turn's error | `Router.HandlerMissesTheErrorTheWaiterTook` | `Router.HandlerGetsTheErrorFirst` |
| a request on a client whose process has exited fails | `RpcClient.RequestAfterExitExists`, `RpcClient.RequestAfterExitWaits` | `RpcClient.AfterExitWaitsWhoRegisteredLast` |
| a turn's channel carries the turn's own lines only | `Turns.LateUpdateReachesTheNextTurn` | `Turns.FinishedTurnsAreComplete`, `Turns.ChannelsCarryTheirStretch` |
| the finish reason is tool_calls if calls were written | `Sink.LateCallsFinishAsStop`, and as a run of turns `TurnStream.LateCallOfATurn` | `Sink.FinishReasonIsToolCalls`, `TurnStream.FinishReasonOfATurn` |
| the whole text is delivered | `Sink.JsonAnswersAreLost`, `Sink.SmallJsonAnswerIsLost` | `Sink.FinishDeliversTheBuffer` |
| parsing undoes printing | `ToolCalls.FenceHidesTheCall` | `Fences.ReadBackOrNothing` |
| exactly the object in a text reaches the parser | `ToolCalls.BracesInStringsCutTheObject`, `ToolCalls.ClosingBraceCutsTheObject` | `ToolCalls.ObjectReachesTheParser` |
| the last user text is read back | `Prompt.EmptyUserIsNotReadBack`, `Prompt.SecondParagraphIsNotReadBack` (all such: `Prompt.BlankLineIsNotReadBack`), `Prompt.MarkerIsNotReadBack` | `Prompt.LastUserTextIsReadExactlyWhen` |

Further, without a property of their own:

- `RunSync` evaluates its latency at the `defer` statement, so the turn's duration is not recorded
  (`Router.AgentRouter.RunSync`).
- No caller registers sessions in the session store.
- A user content that ends in the marker's own word makes a marker with its line end. At the end of a prompt trimming
  takes that line end away and the content is read back (`Prompt.MarkerWordAtTheEndIsReadBack`); with text behind it the
  marker stays.
- `break` inside the switch of `ProcessEventStream` leaves the switch, not the loop: a model-only profile goes on
  reading after a blocked tool call, and every profile after Done, and so does the model.
- `TranslateSessionUpdate` reads raw arguments from a field that is never decoded, so only the decoded ones count.
- The streaming path sends a tool call with the id the agent gave, which may be empty; the synchronous path fills it in.

## Model

| member | source | states |
|---|---|---|
| `Permits.PermitsConserved` | internal/concurrency/controller.go:58-101 | in every reachable state, at the grain of single atomic operations and with stray releases allowed: free tokens + Active + permits in transit = capacity; Queued, Completed, the latency sums and the window of the last hundred latencies agree with the operations that are under way or done |
| `Permits.ConservedStep` | internal/concurrency/controller.go:58-101 | every atomic step of Acquire and Release keeps that balance |
| `Permits.CountersFitInt32` | internal/concurrency/controller.go:58-82 | the 32-bit counters cannot wrap while fewer than 2^31 operations are in flight and the capacity fits |
| `Permits.MatchedRunsAreExact` | internal/concurrency/controller.go:75-89 | when only holders release: Active is the number of permits held, never negative and never above the capacity, and the undo and channel-full branches are never taken |
| `Permits.QuiescentMeansAllTokensBack` | internal/concurrency/controller.go:58-101 | when all operations of a matched run are over, every token is back in the channel |
| `Permits.WindowInEveryRun` | internal/concurrency/controller.go:91-101 | over every run the window holds the last hundred latencies in order, beside their sum and number since the start; the capacity is the configured one, or 5 |
| `Permits.AcquireAlone` | internal/concurrency/controller.go:58-72 | an Acquire that meets no other operation is a run of the machine that takes one token and adds one active permit |
| `Permits.ReleaseAlone` | internal/concurrency/controller.go:75-101 | a Release by a holder that meets no other operation is a run that hands the token back exactly when a permit is active and the channel has room, and otherwise changes no counter |
| `Permits.StrayReleaseBreaksTheLimit` | internal/concurrency/controller.go:75-89 | a Release no Acquire stands behind can let two holders in at capacity one |
| `Permits.HoldersInEveryRun` | internal/concurrency/controller.go:58-101 | over every run, stray releases included: holders = Active + stray releases - releases not yet counted - releases ignored; so never more holders than the capacity plus the stray releases that took effect, and at most the capacity exactly if the stray releases do not outweigh what is free, in transit, on its way back or ignored |
| `Permits.Controller.constructor` | internal/concurrency/controller.go:35-55 | capacity 5 when none is given, all tokens in the channel, all counters zero |
| `Permits.Controller.Acquire` | internal/concurrency/controller.go:58-72 | the fields afterwards, and that they are the end of the machine's run for it |
| `Permits.Controller.Release` | internal/concurrency/controller.go:75-101 | the fields afterwards are those of ReleaseOutcome, which ReleaseAlone ties to the machine |
| `Permits.Controller.StatsSnapshot` | internal/concurrency/controller.go:104-131 | Active is never reported negative; sum and count are those of the window once anything was recorded |
| `Router.RouterRefinesMatchedPermits` | internal/runner/router.go:127-185 | every run of the router, in every interleaving of calls, turns, readers and reloads, is a matched run of the permit controller |
| `Router.ExactlyOneReleasePerPermit` | internal/runner/router.go:127-185 | a call that was granted a permit releases at most once, and exactly once by the time the router is idle; then all permits are back |
| `Router.ReleasesAreFinishes` | internal/runner/router.go:145-158 | along any run a call's releases are exactly its finishes |
| `Router.NextEventEnabled` | internal/runner/router.go:127-185 | a call that is not through can always do something, where it is an assumption of the model that a running turn can end: by the agent's answer, its context or the end of its process |
| `Router.RunsEnd` | internal/runner/router.go:71-100 | without new calls every run is finite, however often the configuration is reloaded and gateways are closed under their turns |
| `Router.ErrorReachesOneReader` | internal/runner/router.go:155-158 | a turn sends one error at most and at most one of the competing readers of ErrCh gets it; the channel is closed by the turn's own end |
| `Router.HandlerGetsTheErrorFirst` | internal/runner/router.go:155-158 | in every run the error a turn sent goes to whoever receives first: the handler gets it, by its read or its last poll, if and only if it receives at all and the waiter goroutine has not before |
| `Router.FirstReaderTakes` | internal/runner/router.go:155-158 | the same from any reachable state in which nobody has received from the channel |
| `Router.HandlerMissesTheErrorTheWaiterTook` | internal/handler/stream.go:154-165 | a run from the initial state in which the turn fails, the waiter receives first, and neither read of the handler sees the error |
| `Router.AgentRouter.constructor` | internal/runner/router.go:36-53 | a capacity of 8 when none is configured |
| `Router.AgentRouter.RebuildGateways` | internal/runner/router.go:71-100 | the gateways are swapped as a whole, then exactly the replaced ones are closed |
| `Router.AgentRouter.Run` | internal/runner/router.go:127-159 | success holds one permit; queue timeout, unknown gateway and failed start hold none, and the last two have released what was acquired |
| `Router.AgentRouter.Waiter` | internal/runner/router.go:154-157 | the goroutine left behind hands the permit back and records the time since the start |
| `Router.AgentRouter.RunSync` | internal/runner/router.go:161-185 | the permit is back when the call returns; the latency recorded is evaluated at the defer statement and does not contain the turn |
| `Router.HolderCanReturn` | internal/concurrency/controller.go:75-89 | a holder of a matched run finds an active permit and room in the channel |
| `RpcClient.WaitersReceiveTheirOwn` | internal/acp/client.go:209-237 | in every interleaving: what a Request call received is the failure of a failPending that ran, or the fields of a line that the read loop took and that has this request's id, the error's text if the line has one and else the result itself; and its channel saw one send at most |
| `RpcClient.FirstResponseWins` | internal/acp/client.go:209-237 | over every run: the first response taken while a request is pending is the one it receives, if it receives anything, whatever follows |
| `RpcClient.OtherLinesChangeNothing` | internal/acp/client.go:221-262 | a line changes nothing exactly if it has no id, no result and no error, or the id of no pending request |
| `RpcClient.FailuresNameTheirCause` | internal/acp/client.go:327-377 | a Request that returns without a value says that the client was closed, that its own line could not be written, or that its own context ended, and that happened in the run |
| `RpcClient.OnePlaceAtATime` | internal/acp/client.go:209-237 | a request id is pending, in the dispatcher's hand or served: in at most one of them, and in exactly one while its goroutine waits |
| `RpcClient.DispatcherNeverBlocks` | internal/acp/client.go:228-234 | the read loop never blocks on the channel it is about to send on |
| `RpcClient.InvStep` | internal/acp/client.go:209-426 | every region and channel operation keeps the invariant behind these |
| `RpcClient.NoWaiterOutlivesClose` | internal/acp/client.go:397-426 | once Close has run failPending the table stays empty for ever, every waiter has what it is to receive within reach, and later requests are refused |
| `RpcClient.FailPendingServesAll` | internal/acp/client.go:416-426 | failPending serves exactly the pending requests with the failure and empties the table |
| `RpcClient.AfterExitWaitsWhoRegisteredLast` | internal/acp/client.go:192-207 | in every run, once the read loop has left: a waiter can proceed if and only if it is out of the table, and it is in the table if and only if it registered after the loop's failPending and no failPending of Close came since |
| `RpcClient.RequestAfterExitWaits` | internal/acp/client.go:192-207 | such a request waits until its context ends or the client is closed, whatever else happens |
| `RpcClient.RequestAfterExitExists` | internal/acp/client.go:192-207 | a run from the initial state to that state |
| `RpcClient.ClassifyFollowsSection5` | internal/acp/client.go:209-262 | a Response object in the sense of section 5 of the JSON-RPC 2.0 Specification is an answer to its own id with its own result or error text; a line without result and error is the request or the notification of its method; what is left is no message |
| `RpcClient.Client.constructor` | internal/acp/client.go:69-133 | an empty table, an open client |
| `RpcClient.Client.Allocate` | internal/acp/client.go:327-330 | a fresh id and channel: the machine's step |
| `RpcClient.Client.Register` | internal/acp/client.go:331-336 | the registering region: the machine's step, refused after Close |
| `RpcClient.Client.Forget` | internal/acp/client.go:346-357 | the deleting region after a failed write or a cancellation: the machine's step |
| `RpcClient.Client.Receive` | internal/acp/client.go:358-360 | the receiving case of the select: the machine's step |
| `RpcClient.Client.Dispatch` | internal/acp/client.go:221-227 | the look-up region: the machine's step, a hit exactly when the id is pending |
| `RpcClient.Client.Deliver` | internal/acp/client.go:228-234 | the send outside the region: the machine's step, always possible |
| `RpcClient.Client.FailPending` | internal/acp/client.go:416-426 | the loop over the table, in any order, is the machine's one step |
| `RpcClient.Client.ReadLoopEnds` | internal/acp/client.go:192-207 | the end of the read loop: the machine's step |
| `RpcClient.Client.Close` | internal/acp/client.go:397-414 | Close is marking closed, then failPending |
| `Translate.TranslationKeepsText` | internal/toolloop/translate.go:11-67 | an update's events are agent events, and their text is exactly the text of the message chunk or plan |
| `Translate.ChunksGoWhereTheyBelong` | internal/toolloop/translate.go:11-67 | the text of a content block, in either of its forms, goes to the answer from a message chunk or a plan and to the thoughts from a thought chunk; no other update adds to either |
| `Translate.ToolCallsKeepTheirFields` | internal/toolloop/translate.go:69-97 | a tool call starts exactly with an update of that kind, and which of the update's and the content's fields its id, status, title, name and arguments are |
| `Translate.UpdatesNameTheirCall` | internal/toolloop/translate.go:40-49 | the update of a call has its id, its status and the whole content |
| `Turns.TurnsInEveryRun` | internal/runner/acp.go:226-380 | in every run, with any agent: turns on one process never overlap; a turn's channel starts with SessionInit and carries one Done if the turn succeeded and none if it failed; the rest is agent events, each routed to one turn at most, in the order in which they were written |
| `Turns.InvStep` | internal/runner/acp.go:226-380 | every step of turns and read loop keeps the invariant behind this |
| `Turns.LinesAreReadInOrder` | internal/acp/client.go:192-265 | what was read and what is still in the pipe are what was written, in order |
| `Turns.ChannelsCarryTheirStretch` | internal/runner/acp.go:273-365 | in every run, for every turn: what its channel carries of the agent, what found the channel closed and what the read loop still holds for it are, in order, the events of one stretch of the agent's output, the lines read while its handler was installed; so a line reaches a turn exactly if it lies in the turn's stretch, whoever it was meant for |
| `Turns.FinishedTurnsAreComplete` | internal/runner/acp.go:273-365 | any agent, any interleaving, other turns cancelled or dead: the channel of a turn ended by its own response carries exactly SessionInit, the events of the lines written between prompt and response, in order, and one Done on success, if and only if no line pending when the handler came in had events and no event of a line read behind the response reached the channel; and what stands where otherwise |
| `Turns.MarksAreCounts` | internal/runner/acp.go:273-365 | over every run: the marks of a turn are the numbers of lines read when its handler was installed and when it was removed, and of lines written when its prompt was |
| `Turns.OutcomesHaveTheirCause` | internal/runner/acp.go:273-365 | over every run: a turn succeeds only on a response with a result to its own prompt, fails only on one with an error or because its preparation, prompt, context or process did; the session it announces and its stop reason are its own |
| `Turns.SilentAgentsAreHeardExactly` | internal/runner/acp.go:273-365 | in particular for an agent that writes no line with events outside that time; lines without events, such as the responses to session/new and the configuration, may come at any time |
| `Turns.LateUpdateReachesTheNextTurn` | internal/runner/acp.go:348-357 | a run in which a turn is cancelled through its context and the next turn's channel carries what the agent still writes |
| `TurnText.DecodeKeepsText` | internal/toolloop/cursor_ext.go:10-53 | each line adds exactly its text: chunks and plans from session updates, plans from extension requests |
| `TurnText.AnswerIsFullText` | internal/toolloop/translate.go:11-67 | the text of the lines is the text of their events |
| `TurnText.AnswerReachesTheReader` | internal/runner/acp.go:273-365 | from the agent's lines to the reader of the channel, for every turn ended by its own response: the text of the lines pending, then that of its own lines, then what came late; so exactly the text of its own message chunks and plans if and only if there is no text in the others |
| `TurnText.PlanIsSaid` | internal/toolloop/cursor_ext.go:10-53 | a plan is read with its name as a heading |
| `TurnText.ThoughtsAreKept` | internal/toolloop/translate.go:11-67 | the thoughts of the lines are those of their events, in order |
| `TurnText.SucceedsOnItsReply` | internal/runner/acp.go:353-370 | a turn succeeds only if the agent wrote a response with a result to this very turn's prompt |
| `TurnStream.DoneMarkOnce` | internal/runner/acp.go:140-175 | every run of turns, any agent: the stream of a turn's channel has the role first and once, and [DONE] at most once: exactly once if the turn succeeded, and otherwise exactly if its error is reported |
| `TurnStream.FinishReasonOfATurn` | internal/handler/stream.go:53-168 | every run of turns, any agent: the stream of a successful turn gives one finish reason, and it is tool_calls exactly if a chunk of calls is written, if and only if no event behind Done makes one or it was tool_calls anyway |
| `TurnStream.LinesReachTheClient` | internal/handler/stream.go:53-168 | from the agent's lines to the client, every run of turns, without client tools: the text the client has received is that of the lines written for the turn, in order, with that of pending lines before it and of late ones behind it; so exactly the former if and only if there is no text in the others |
| `Pool.SoftBound` | internal/session/pool.go:43-137 | over every run: the order slice has no duplicates and holds every key; it is no longer than the cap plus the removals by expiry or agent mismatch, and without such removals the cap is hard |
| `Pool.InvStep` | internal/session/pool.go:43-137 | every operation keeps the invariant behind this |
| `Pool.EvictionSparesTheNewEntry` | internal/session/pool.go:65-87 | the eviction of a Put never removes the id just put |
| `Pool.CapHoldsExactlyWhen` | internal/session/pool.go:82-86 | exactly when a Put leaves the map within the cap: it was within it, or one over with a live head of the slice |
| `Pool.CapIsSoft` | internal/session/pool.go:130-137 | two entries can live in a pool of one |
| `Pool.EvictsLeastRecentlyPut` | internal/session/pool.go:82-137 | with a monotone clock, an eviction that hits a live id hits the least recently put one |
| `Pool.OrderedRun` | internal/session/pool.go:65-119 | with a monotone clock the live ids along the slice stay sorted by the time of their Put |
| `Pool.PoolIsItsHistory` | internal/session/pool.go:43-137 | the map holds an entry exactly if the history put it and nothing since expired, replaced, deleted, mismatched or evicted it |
| `Pool.GetAgreesWithHistory` | internal/session/pool.go:43-63 | Get finds an entry exactly if the history holds it and this Get does not end its life |
| `Pool.GetOnFields` | internal/session/pool.go:43-63 | Get entry by entry: what was sent longer ago than the time to live at the first clock reading goes, and of the rest the entry asked for exactly if it is too old at the second or of another agent; all else stays |
| `Pool.PutOnFields` | internal/session/pool.go:65-87 | Put entry by entry: the new one as given; of the others those go that are too old, and the head of the slice if the rest exceeds the cap |
| `Pool.HandedOutIsYoungAndOwn` | internal/session/pool.go:43-63 | over every history: an entry that Get returns was put under this id, is not too old, has no agent or this one, or none is asked for, and nothing since has replaced, deleted or invalidated it or asked for it as another agent |
| `Pool.HandedOutExactlyWhen` | internal/session/pool.go:43-63 | over every history: Get returns the stored entry if and only if it is in time at both clock readings and the agents agree or one is empty; otherwise the id is gone |
| `Pool.SessionPool.constructor` | internal/session/pool.go:29-41 | the defaults: thirty minutes, 256 entries |
| `Pool.SessionPool.EvictLocked` | internal/session/pool.go:121-128 | the loop over the map, in any order, removes exactly the expired entries |
| `Pool.SessionPool.TouchLocked` | internal/session/pool.go:111-119 | the id moves to the end of the slice |
| `Pool.SessionPool.EvictOldestLocked` | internal/session/pool.go:130-137 | the head of the slice goes, live or not |
| `Pool.SessionPool.Get` | internal/session/pool.go:43-63 | the new fields are the specification's step; an entry handed out is the one stored, was sent no longer ago than the time to live and has the agent asked for, if both are given; if none is handed out the id is gone, and a stored one failed one of these; no entry is in the frame of this or any other method |
| `Pool.SessionPool.Put` | internal/session/pool.go:65-87 | the new fields are the specification's step, and entries of other ids are untouched objects |
| `Pool.SessionPool.Delete` | internal/session/pool.go:89-102 | the entry and the first occurrence in the slice go |
| `Pool.SessionPool.InvalidateAll` | internal/session/pool.go:104-109 | both go |
| `ConversationKey.DeriveConversationID` | internal/handler/conversation.go:81-99 | the loop finds the first user text and the first system text before it |
| `ConversationKey.FirstUserContent` | internal/handler/conversation.go:71-78 | the first non-empty user text |
| `ConversationKey.KeyNeedsUser` | internal/handler/conversation.go:101-107 | there is a key exactly if there is a non-empty user message |
| `ConversationKey.KeyReads` | internal/handler/conversation.go:81-107 | for every list: the key is made of the first non-empty user text and the first non-empty text of the roles system and developer ahead of it, or of nothing in its place |
| `ConversationKey.KeyIsStable` | internal/handler/conversation.go:81-107 | once there is a non-empty user message the key never changes while the transcript grows |
| `ConversationKey.SharedKey` | internal/handler/conversation.go:101-107 | two conversations share a key exactly if the hashed bytes are equal |
| `ConversationKey.KeyIdentifies` | internal/handler/conversation.go:101-107 | with single-line system texts, exactly if first system and first user texts are equal |
| `ConversationKey.LinesBreakTheKey` | internal/handler/conversation.go:101-107 | with line breaks it fails: text moved from the end of the system to the start of the user message leaves the key as it is |
| `TurnSession.BuildTurnPrompt` | internal/handler/conversation.go:110-121 | full prompt always; the incremental one exactly for an entry that counts some but not all messages |
| `TurnSession.ChooseSession` | internal/runner/acp.go:239-255 | the second look: reuse if the workspace fits, delete the entry if it does not |
| `Continuity.EntriesCountWhatWasSent` | internal/runner/acp.go:239-377 | in every interleaving of requests, turns, failures and removals without a removal or workspace change between the two looks of a turn: the session of the pool entry has received at least the messages the entry counts |
| `Continuity.InvStep` | internal/runner/acp.go:239-377 | every event keeps the invariant behind this |
| `Continuity.EntryIsRightExactlyWhen` | internal/runner/acp.go:239-377 | over every run, whatever happens during the turn: once a turn has succeeded, the session of the pool entry has been told all that the entry counts if and only if the prompt started at the beginning, or the session was that of an entry that fitted when the turn chose and had been told what the prompt left out |
| `Continuity.RemovalLosesTheBeginning` | internal/runner/acp.go:245-273 | a run from the initial state, for any two messages of which the second renders to something: the entry goes between the two looks, and the entry put at the end counts a message that its session never received |
| `Continuity.EachMessageOnce` | internal/runner/acp.go:239-377 | without overlapping or failed turns and with extensions that render to something: whenever no turn is under way the entry's session has received each counted message exactly once, in order, and heard the rendering of exactly that part of the transcript |
| `Continuity.CountedMessagesAreHeardOnce` | internal/runner/acp.go:239-377 | under the same conditions: every counted message, with its header and its content, stands in what the session heard |
| `Continuity.CountedMessagesAreHeard` | internal/runner/acp.go:239-377 | in every careful run, whatever overlaps and fails: every counted message, with its header and its content, stands in what the entry's session heard |
| `Continuity.PromptStartsExactlyWhen` | internal/handler/conversation.go:110-121 | a prompt starts behind what was sent exactly if the entry counts some messages and not all, and one of the others has a role that the printer knows |
| `Continuity.SessionGoesOnExactlyWhen` | internal/runner/acp.go:239-273 | a turn goes on in the entry's session exactly if the entry has no workspace or the turn's; otherwise the session is new and the entry gone |
| `Continuity.HeardIsTheTranscript` | internal/handler/conversation.go:110-121 | prompts that cover the transcript once add up to its rendering |
| `Continuity.BlankTurnRepeatsItself` | internal/runner/acp.go:164-167 | a run from the initial state: the second request brings a message of a role the printer does not know, and the session receives the first message twice |
| `Continuity.OnceMoreExactlyWhen` | internal/runner/acp.go:164-167 | after any orderly run, the next prompt gives the session each message exactly once if and only if the printer knows the role of one of the new messages |
| `PooledContinuity.PoolRunsAreContinuityRuns` | internal/session/pool.go:43-137 | every run of a conversation's turns over the pool, with any operation for any conversation in between, is a run of Continuity whose entry is at all times the one in the pool's map |
| `PooledContinuity.PooledEntriesCountWhatWasSent` | internal/session/pool.go:43-137 | so the session named in the pool's entry has received at least the messages it counts, in runs without a removal or workspace change between the two looks of a turn |
| `PooledContinuity.FirstLook` | internal/handler/conversation.go:110-121 | the messages that the first look takes for unsent are those from where the prompt starts |
| `PooledContinuity.SecondLook` | internal/runner/acp.go:239-255 | the second look reuses an entry exactly when Continuity does, with the same session |
| `Prompt.BuildPromptWithTools` | internal/translator/client_tools.go:129-184 | the builder loop is the rendering of the messages, the hint and the appendix, trimmed |
| `Prompt.EachMessageStands` | internal/translator/client_tools.go:129-184 | for every list and every message in it: the untrimmed prompt is that of what stands before, the header of the message's role with the name or call id of a tool's result, the content, an assistant's calls behind it as text that parses to them, and what stands after, with the hint exactly behind a closing tool result |
| `Prompt.EveryContentIsInThePrompt` | internal/translator/client_tools.go:129-184 | the content of every message of a known role, up to white space around it, stands in the trimmed prompt, with whatever appendix |
| `Prompt.PromptSplits` | internal/translator/client_tools.go:120-184 | for every split with a non-empty suffix and no tools: the untrimmed full prompt is the rendering of the prefix followed by the untrimmed incremental prompt, hint included |
| `Prompt.BodyConcat` | internal/translator/client_tools.go:132-170 | rendering is a homomorphism |
| `Prompt.NothingToSay` | internal/translator/client_tools.go:129-184 | a prompt without tools is empty exactly if the printer knows none of the roles |
| `Prompt.LastUserTextIsReadExactlyWhen` | internal/translator/client_tools.go:410-421 | for every list and every user message in it, no hypothesis: with text behind its marker the reader returns that message, trimmed, if and only if no blank line stands in it and no marker behind its own, or the last marker stands behind its text and happens to be followed by the same text; with nothing behind its marker, if and only if there is a marker before and the reader finds nothing from there on |
| `Prompt.LastUserTextReadsBack` | internal/translator/client_tools.go:410-421 | what the reader returns, for every list and every user message in it: the first paragraph if no marker stands behind its own in the trimmed prompt, what it finds behind the last marker if one does, and what it finds in the text before if nothing follows |
| `Prompt.WholeParagraph` | internal/translator/client_tools.go:416-420 | the first paragraph of a text is the whole text, up to white space, if and only if no blank line stands in the trimmed text |
| `Prompt.SingleParagraph` | internal/translator/client_tools.go:416-420 | in particular for a content without a blank line |
| `Prompt.BlankLineIsNotReadBack` | internal/translator/client_tools.go:416-420 | a message with a blank line and no marker is read up to the blank line |
| `Prompt.SecondParagraphIsNotReadBack` | internal/translator/client_tools.go:416-420 | for example a letter, a blank line and another letter |
| `Prompt.MarkerIsNotReadBack` | internal/translator/client_tools.go:411-415 | of a message with a marker in it what stands behind the marker is read, whatever stands before |
| `Prompt.OneLineIsReadBack` | internal/translator/client_tools.go:410-421 | a single line is read back whole |
| `Prompt.MarkerWordAtTheEndIsReadBack` | internal/translator/client_tools.go:410-421 | also one that ends in the marker's own word, whose line end makes a marker until the prompt is trimmed |
| `Prompt.EmptyUserIsNotReadBack` | internal/translator/client_tools.go:410-421 | an empty last user message is read back as its marker |
| `Prompt.ReadBack` | internal/translator/client_tools.go:410-421 | the same equation for any text of the printer's form |
| `Fences.ReadBackOrNothing` | internal/translator/client_tools.go:618-648 | parsing a printed non-empty list gives exactly those calls, normalised, unless a code fence inside the strings holds something that reads as calls, and then nothing; never other calls |
| `Fences.ReadBackKeepsTheFields` | internal/translator/client_tools.go:618-721 | the same field by field: nothing, or one call for each tool call with a name or title, in order, with its name, its id or a made one, and its arguments but for an added description |
| `Fences.QuotelessIsHeldExactlyWhen` | internal/translator/client_tools.go:314-333 | text without quotes holds no tool calls, and is held exactly while it starts with a brace, is shorter than 512 bytes and opens more braces than it closes |
| `Fences.PrintedSafe` | internal/translator/client_tools.go:618-634 | behind every code fence inside a printed list the text is such that JSON cannot get over its first quote |
| `ToolCalls.ParsingUndoesPrinting` | internal/translator/client_tools.go:618-648 | the same with what the fence holds not yet said to be nameless |
| `ToolCalls.FenceHidesTheCall` | internal/translator/client_tools.go:618-634 | a call whose arguments hold a fence around a list of one empty object is lost, whatever its id and name |
| `ToolCalls.PrintedParses` | internal/translator/client_tools.go:651-679 | the first decoding attempt reads back every printed list |
| `ToolCalls.NormalizeToolCalls` | internal/translator/client_tools.go:700-721 | the loop is the function Normalized |
| `ToolCalls.NormalizedFields` | internal/translator/client_tools.go:700-742 | normalising gives one call for each named call, in order: name, given id and kind unchanged, id and kind never empty, non-empty arguments unchanged, except that a shell call with a command and no description gets one and keeps every other argument |
| `ToolCalls.EnrichedKeeps` | internal/translator/client_tools.go:721-742 | how arguments may change, on the decoded maps: only of shell tools, only with a command and a blank description, and only that one key |
| `ToolCalls.ShellToolsAre` | internal/translator/client_tools.go:744-751 | which names are shell tools: three whole names, or three words anywhere in the name, in any case |
| `ToolCalls.ParsedCallsKeepTheirFields` | internal/translator/client_tools.go:618-721 | parsing printed tool calls gives one call for each that has a name or a title, in order, each with its own fields |
| `ToolCalls.CallReads` | internal/translator/client_tools.go:651-679 | a call is read from any object: the last strings under its keys count, in any order and case and among whatever else, and it is refused exactly if one of them is no string and not null |
| `ToolCalls.ListsAreRead` | internal/translator/client_tools.go:647-679 | an array of calls, or one under the key among whatever else: all calls are read, in order |
| `ToolCalls.OneCallIsRead` | internal/translator/client_tools.go:660-665 | a single call in the place of the list is read if it has a name |
| `ToolCalls.FoldsCase` | internal/translator/client_tools.go:651-679 | keys match in any mixture of cases |
| `ToolCalls.FencedListParses` | internal/translator/client_tools.go:615-633 | a printed list in a code fence, with the word json or without, is read out of whatever prose surrounds it |
| `ToolCalls.ProseIsNotHeld` | internal/translator/client_tools.go:314-333 | text that is no object or list, without fence and key, holds no tool calls and is not held back |
| `ToolCalls.ObjectIsHeldExactlyWhen` | internal/translator/client_tools.go:314-333 | text that starts with a brace is held exactly if it has the key, or is short and opens more braces than it closes, or is tool calls already |
| `ToolCalls.PrintedIsHeldFromTheStart` | internal/translator/client_tools.go:314-333 | every beginning of a printed list is held back |
| `ToolCalls.NormalizedTwice` | internal/translator/client_tools.go:700-742 | normalising again changes nothing, whatever ids are drawn, shell arguments included |
| `ToolCalls.EnrichedTwice` | internal/translator/client_tools.go:723-742 | enriching shell arguments again changes nothing |
| `ToolCalls.LookupInserted` | internal/translator/client_tools.go:723-742 | adding a description to the arguments leaves every other argument as it was |
| `ToolCalls.ExtractBalancedJSON` | internal/translator/client_tools.go:681-698 | the loop returns the shortest non-empty balanced prefix, or the whole input |
| `ToolCalls.FirstBalance` | internal/translator/client_tools.go:681-698 | the first balance is one, and nothing shorter is |
| `ToolCalls.ObjectReachesTheParser` | internal/translator/client_tools.go:635-644 | from prose that does not mention the key, an object whose first key is tool_calls, and trailing text, exactly the object reaches the parser if and only if no shorter piece of it balances and it balances itself or nothing follows |
| `ToolCalls.BracesInStringsCutTheObject` | internal/translator/client_tools.go:635-644 | a printed list in prose does not come out whole when its strings close more braces than they open, nor when they open more and something follows |
| `ToolCalls.ClosingBraceCutsTheObject` | internal/translator/client_tools.go:681-698 | for example a call whose arguments are one closing brace, in any prose |
| `ToolCalls.PrintedDepth` | internal/translator/client_tools.go:681-698 | the braces of a printed list are balanced exactly as far as those inside its strings are |
| `ToolCalls.PrintedInProseParses` | internal/translator/client_tools.go:618-648 | a printed list that reaches the parser is read back from any text that is no JSON as a whole and holds no fenced calls |
| `ToolCalls.ProseIsNotJson` | internal/translator/client_tools.go:651-679 | in particular from prose that does not start as a JSON value does |
| `ToolCalls.PrintedStartsWithKey` | internal/translator/client_tools.go:635-644 | every printed list is such an object |
| `ToolCalls.ParsedLooksPending` | internal/translator/client_tools.go:314-333 | text that parses as tool calls is always recognised as pending |
| `Strings.CaseIsLowered` | internal/translator/client_tools.go:744-751 | texts that differ in the case of ASCII letters only have one lower-case form, by which shell tools are recognised |
| `Strings.BytesOfText` | internal/translator/client_tools.go:329 | the length in the limit of 512 is in bytes: those of the parts, one to four for a character |
| `Strings.LessAtTheDifference` | internal/translator/client_tools.go:257-265 | the first difference decides the order of strings, and a beginning comes first |
| `ToolCalls.SortStrings` | internal/translator/client_tools.go:257-265 | in place: ascending, each string as often as before |
| `ToolCalls.PrintedHoldsTheFields` | internal/toolloop/format.go:19-40 | read back, the printed text has one call for each tool call, in order, with its id or a made one, the kind function, its name or title, and its arguments or an empty object |
| `ToolCalls.FormatClientToolCallsJSON` | internal/toolloop/format.go:19-40 | the loop builds the envelope of the calls with their defaults |
| `Json.ReadingUndoesWriting` | internal/toolloop/format.go:38-39 | reading undoes writing for every JSON value, in the printer's escapes |
| `Json.QuotedIsHarmless` | internal/toolloop/format.go:38-39 | no control character and nothing unsafe inside HTML or JavaScript stands in a printed string |
| `Json.NamesAreStandard` | internal/translator/client_tools.go:651-679 | the literal names of section 3 of RFC 8259, printed and read |
| `Json.EscapesAreStandard` | internal/translator/client_tools.go:651-679 | the two-character escapes of section 7 of RFC 8259 as they are read |
| `Json.HexDigitsAreStandard` | internal/translator/client_tools.go:651-679 | the hexadecimal digits, in either case when read |
| `Sink.RoleFirstDoneOnce` | internal/translator/openai_chat.go:107-139 | for any events: the role chunk comes first and only once, and [DONE] is written once for each Done and each reported error; TurnStream.DoneMarkOnce says how many those are for a turn |
| `Sink.FinishReasonIsToolCalls` | internal/handler/chat.go:365-418 | one finish reason is given, at Done, and it is tool_calls exactly if a chunk of tool calls was written by then; the stream reads on, so over the whole run the two agree if and only if no event behind Done makes a chunk of calls or the reason was tool_calls anyway |
| `Sink.LateCallsFinishAsStop` | internal/handler/stream.go:130-132 | a tool call behind Done is written although the client was told stop |
| `TurnStream.LateCallOfATurn` | internal/runner/acp.go:341-368 | a run of turns with the gateway's own recogniser and parser in which that happens, for any such call |
| `Turns.EventsFollowDone` | internal/runner/acp.go:341-368 | a run of turns in which the event of a line behind the response stands behind Done in the turn's channel |
| `Sink.StreamedIsPrefix` | internal/handler/chat.go:281-300 | in client-tools mode the streamed text is a prefix of the buffer, and all of it exactly while nothing is held |
| `Sink.HoldIsPermanent` | internal/handler/chat.go:288-296 | holding is permanent and freezes what was streamed |
| `Sink.FinishDeliversTheBuffer` | internal/handler/chat.go:365-418 | a finish without tool calls has delivered the whole buffer, once, if and only if holding did not begin after something was streamed |
| `Sink.CallsTheClientGets` | internal/handler/chat.go:365-418 | all tool calls the client receives over a whole turn, in order: those the events brought, if any; else all that parse out of the text; else those made up for a suppressed command, or after a tool result all that parse out of the composed answer |
| `Sink.NoCallsWithoutClientTools` | internal/handler/chat.go:354-359 | without client tools the client receives no tool calls |
| `Sink.TextTheClientGets` | internal/handler/chat.go:281-418 | before a tool result: the client has received the text up to where it first looked pending, and at the end all of it, if there are no calls and nothing had been sent |
| `Sink.TextGoesThrough` | internal/handler/chat.go:281-323 | without client tools and after a tool result the client has all text at every moment, thoughts among it where they are shown as text |
| `Sink.TextBehindAToolResult` | internal/handler/chat.go:281-418 | after a tool result over the whole turn: all text, and the composed answer if there was no text and no call |
| `Sink.TextWithoutClientTools` | internal/handler/chat.go:281-359 | without client tools over the whole turn: all text |
| `Sink.ThoughtsTheClientGets` | internal/handler/chat.go:305-323 | the thoughts reach the client apart from the text, whole and in order, or as text, or not at all, as the gateway is set up |
| `Sink.ProseIsStreamedAtOnce` | internal/handler/chat.go:281-300 | with the gateway's own recogniser: an answer that is ordinary prose is sent as it comes, in whatever pieces |
| `Sink.PrintedCallsReachTheClient` | internal/handler/chat.go:281-418 | with the gateway's own recogniser and parser: of a printed list of calls, written in whatever pieces, the client receives exactly the normalised calls and not one character of the text |
| `Sink.FailedExactlyWhen` | internal/handler/stream.go:54-135 | the stream has failed exactly if the agent reported an error or called a tool of its own where none is allowed |
| `Sink.ErrorReachesTheText` | internal/handler/stream.go:140-168 | the error of the error channel is written as text exactly if nothing failed before and the client has not stopped |
| `Sink.JsonAnswersAreLost` | internal/handler/chat.go:281-300 | with the gateway's own recogniser and parser: every JSON answer that is no tool call is lost when it comes in an opening brace and the rest after white space, even after an empty delta |
| `Sink.SmallJsonAnswerIsLost` | internal/handler/chat.go:281-300 | for example a line end and then an object with one number |
| `Sink.GatewayRecognises` | internal/translator/client_tools.go:314-333 | the gateway's own recogniser takes every text that parses as calls for pending, and nothing for nothing |
| `Sink.ParsedCallsWereHeld` | internal/handler/chat.go:365-385 | with the gateway's own recogniser and parser: calls parsed from the buffer at the end were held, the client never got all of that text |
| `Sink.PlainDelivers` | internal/handler/chat.go:281-300 | without client tools all text is streamed as it comes |
| `Sink.FullTextIsTheAnswer` | internal/handler/stream.go:54-135 | the text the loop accumulates is the text of the events |
| `Sink.ProcessEventStream` | internal/handler/stream.go:53-168 | the loop over the channel and the read of ErrCh are the functions After and Sent |
| `Sink.ProcessEvent` | internal/handler/stream.go:54-136 | one event is the function Step |
| `Sink.OpenAIChatSink.constructor` | internal/translator/openai_chat.go:107-139 | headers write the role chunk |
| `Sink.OpenAIChatSink.OnContentDelta` | internal/handler/chat.go:281-300 | the fields afterwards: hold, stream or pass through |
| `Sink.OpenAIChatSink.OnReasoningDelta` | internal/handler/chat.go:305-323 | reasoning never enters the buffer |
| `Sink.OpenAIChatSink.OnClientToolCalls` | internal/handler/chat.go:338-345 | calls are collected and written |
| `Sink.OpenAIChatSink.OnDone` | internal/handler/chat.go:354-359 | the fields and chunks at the end |
| `Sink.OpenAIChatSink.FinishTools` | internal/handler/chat.go:365-418 | the fields and chunks at the end in client-tools mode, of which CallsTheClientGets and TextTheClientGets say what the client receives |
| `Sink.OpenAIChatSink.OnError` | internal/handler/chat.go:360-363 | the error text and the mark |
| `Sink.RunSync` | internal/runner/acp.go:397-438 | the loop returns what the function SyncAnswer says |
| `Sink.SyncAgreesWithStream` | internal/runner/acp.go:397-438 | the synchronous and the streaming path deliver the same answer |
| `Sink.SyncReturnsTheCalls` | internal/runner/acp.go:397-438 | the tool calls of a synchronous turn come back out of its text, normalised |
| `Sink.SyncEnds` | internal/runner/acp.go:397-438 | the three ways in which a synchronous turn ends: at Done with the printed calls or the text, at an error with the text so far, and at the end of the channel likewise unless nothing was heard and the error channel says why |
| `Sink.OwnCallsOfOne` | internal/runner/acp.go:397-438 | an event counts as a call exactly if it starts one that is not native, or client tools are off; lists add up |
| `Sink.SyncCallsKeepTheirFields` | internal/runner/acp.go:397-438 | the calls of a synchronous turn parse back out of its text field by field |
| `SessionStore.LoadRebuilds` | internal/cursor/session.go:199-241 | loading what was saved rebuilds the same map, in any order of the entries |
| `SessionStore.UpdateKeepsTheOthers` | internal/cursor/session.go:121-141 | a response moves one session to its longer key and keeps all others, except one already there |
| `SessionStore.UpdateThenGet` | internal/cursor/session.go:84-141 | asking with the reply appended finds the same session, with its id and creation time and the new time, also if the client returns the reply with other think blocks; without such a session nothing changes |
| `SessionStore.ContinuationIsAnotherKey` | internal/cursor/session.go:84-141 | a request that goes on after the reply has a key of its own and does not find that session |
| `SessionStore.HashIdentifies` | internal/cursor/session.go:66-76 | conversations whose texts are single lines and whose roles have no colon share a key exactly if the same was said, think blocks aside, by the same in the same order |
| `SessionStore.HashedMessages` | internal/cursor/session.go:66-76 | the bytes of a conversation message by message: role, colon, text and line end, an assistant's text without think blocks and trimmed |
| `SessionStore.ThinkBlockGoes` | internal/cursor/session.go:63-80 | a think block goes from its first opening tag to the first closing tag behind it, and the rest is searched on |
| `SessionStore.OpenBlockStays` | internal/cursor/session.go:63-80 | a block that is never closed stays |
| `SessionStore.NoBlockStays` | internal/cursor/session.go:63-80 | text without an opening tag stays |
| `SessionStore.TextsOfParts` | internal/cursor/session.go:66-76 | a message's text is that of its parts of kind text or of none, in order |
| `SessionStore.SharedSession` | internal/cursor/session.go:84-98 | in a store that gives each key a session of its own, two stored conversations of that kind find the same session exactly then |
| `SessionStore.ConversationsCanCollide` | internal/cursor/session.go:66-76 | with line breaks two different conversations can hash the same bytes |
| `SessionStore.HashGrows` | internal/cursor/session.go:66-76 | one message more gives another key |
| `SessionStore.SessionManager.constructor` | internal/cursor/session.go:42-61 | an empty store whose keys are the hashes of their entries |
| `SessionStore.SessionManager.GetOrCreate` | internal/cursor/session.go:84-98 | the id under the conversation's hash, or nothing |
| `SessionStore.SessionManager.RegisterSession` | internal/cursor/session.go:101-118 | a new entry under the hash; keys stay the hashes of their entries |
| `SessionStore.SessionManager.UpdateAfterResponse` | internal/cursor/session.go:121-141 | the shared entry is re-keyed in place; keys stay the hashes of their entries |
| `SessionStore.SessionManager.Rekey` | internal/cursor/session.go:130-137 | what changes in the entry and in the map, and that no other key had that entry |
| `SessionStore.SessionManager.Save` | internal/cursor/session.go:226-241 | the stored list is that of the map, in the order of iteration |
| `SessionStore.SessionManager.Load` | internal/cursor/session.go:199-224 | the loop puts each stored entry under its own hash |
| `MergeInPlace.DeepMerge` | internal/config/manager.go:85-95 | in place, over the keys in any order: dst then stands for the merge of what the two stood for, is made of its own maps and maps of the patch, and the patch is as it was |
| `MergeInPlace.MergeKey` | internal/config/manager.go:86-94 | one key: a map on both sides is merged where it is, anything else is assigned, and no other entry changes |
| `ConfigMerge.MergeTwice` | internal/config/manager.go:85-95 | applying a patch again changes nothing |
| `ConfigMerge.MergeKeeps` | internal/config/manager.go:85-95 | every path that no leaf of the patch is at, above or below holds what it held before |
| `ConfigMerge.MergeSets` | internal/config/manager.go:85-95 | every scalar of the patch is in the result at its path |
| `ConfigMerge.MergeMakesMaps` | internal/config/manager.go:85-95 | where the patch has a map, empty or not, the result has one |
| `ConfigMerge.NothingIsInvented` | internal/config/manager.go:85-95 | every scalar of the result is the patch's or was there before, at the same path |
| `ConfigMerge.MergesCommute` | internal/config/manager.go:85-95 | patches with incomparable leaf paths can be applied in either order |
| `LineDiff.Compute` | internal/webui/static/tap_viewer.html:4891-4915 | the loops compute DiffOf |
| `LineDiff.DiffLosesNothing` | internal/webui/static/tap_viewer.html:4891-4915 | context, change, delete and fold items stand for exactly the old lines, and context, change, add and fold items for exactly the new ones: each list is rebuilt from the other and the diff |
| `LineDiff.DiffShows` | internal/webui/static/tap_viewer.html:4891-4915 | item by item: as many common lines at either end as there are, shown as context with the fold in the middle of more than four, and between them the other lines side by side as changes, then the rest as deleted or added |
| `LineDiff.NoLineEndInside` | internal/webui/static/tap_viewer.html:4892 | no line holds a line end |
| `LineDiff.TextDiffLosesNothing` | internal/webui/static/tap_viewer.html:4891-4915 | the same for the texts, and the diff is all context exactly if they are equal |
| `LineDiff.AddCtx` | internal/webui/static/tap_viewer.html:4898-4903 | context of more than four lines is folded but for two at each end |
| `LineDiff.PairLines` | internal/webui/static/tap_viewer.html:4906-4912 | the middle lines are paired one by one, then the rest |
| `StructuralDiff.Compute` | internal/webui/static/tap_viewer.html:4711-4749 | the loops compute DiffOf, and end |
| `StructuralDiff.NothingIsLost` | internal/webui/static/tap_viewer.html:4718-4749 | unchanged + suffix + modified + removed is the old count, unchanged + suffix + modified + new the new count |
| `StructuralDiff.EveryMessageOnce` | internal/webui/static/tap_viewer.html:4718-4749 | the common ends and the account between them name every message of either list exactly once, in order |
| `StructuralDiff.AccountIsRight` | internal/webui/static/tap_viewer.html:4718-4749 | no message counts as unchanged that is not equal to its partner, and none as modified that is or whose role differs |
| `StructuralDiff.EndsAreWhole` | internal/webui/static/tap_viewer.html:4718-4729 | the common ends are as long as they can be, the prefix first |
| `StructuralDiff.ListsHoldTheAccount` | internal/webui/static/tap_viewer.html:4718-4749 | the lists and counts of the diff are those of the account, each in its order |
| `StructuralDiff.PairedMissesNothing` | internal/webui/static/tap_viewer.html:4731-4749 | no removed and no new message next to each other have the same role |
| `StructuralDiff.SameRolesArePaired` | internal/webui/static/tap_viewer.html:4731-4749 | lists with the same roles are paired message by message |
| `StructuralDiff.OneTooMany` | internal/webui/static/tap_viewer.html:4731-4749 | a message too many is dropped from the old list if that helps, else from the new one |
| `StructuralDiff.PairByRole` | internal/webui/static/tap_viewer.html:4731-4749 | the pairing loop and the two that follow are the greedy pairing |

## Left out

- HTTP, SSE and WebSocket plumbing, authentication, logging, metrics, tracing, banners, DOM code: nothing to prove without the libraries around them.
- Process spawning, probing, workspaces and installers: operating-system calls. The agent is an environment that writes arbitrary lines.
- SHA-256 and UUIDs: a digest stands for its input, and drawn ids are a parameter.
- Clocks, timers and the file lock: times are passed in, timeouts are events, and a save or load is one step; entries re-keyed between the snapshot and the writing of a save are not modelled.
- Request-id wrap-around: fewer than 2^31 requests per client.
- `cursor/ask_question` and the other extension replies beside plans and to-do lists: they add no event, and the first of them indexes an empty list when the agent sends no questions.
- MapNativeToolToClient, ShouldSynthesizeAfterSuppress and ComposeAnswerAfterTool: keyword heuristics; the sink is proved for any functions in their place.
- The tools appendix of the prompt and the wrapping of prompts by configuration: the appendix is a parameter of the printer.
- The Anthropic and Responses handlers: the same sink, key and session code with other field names.
- The legacy phase tracker, probe validation, stop-reason tables and the trace store: unused, or an easier twin of the pool.
- YAML round trips in `Apply`: only the merge itself is modelled.
- Invalid UTF-8: strings are sequences of Unicode scalar values, so replacement of broken bytes does not arise.
- Json.ReadingUndoesWriting: has no nesting limit; encoding/json refuses more than ten thousand levels.
- ToolCalls.ParsingUndoesPrinting: decoding a list over one already read from an earlier duplicate key keeps the earlier elements' missing fields, as the library does, but not elements beyond the shorter list after a third duplicate.
- ToolCalls.Enriched: the command prefix on Windows is not modelled.
- MergeInPlace.DeepMerge: for a patch that shares no map with the configuration and is a tree itself, as decoded JSON is.
- Router.NextEventEnabled: that a turn ends at all is assumed: the agent answers, the context ends or the process does.
- PooledContinuity.PoolRunsAreContinuityRuns: the looks of one conversation name one agent; a look for another agent is among the other operations.
- Continuity.EachMessageOnce: speaks of the rendered messages without hints, trimming and the prompt wrappers.
- Router.AgentRouter.RebuildGateways: that closing a gateway ends its process is an operating-system call; in the machine the turns of a closed gateway fail.
- RpcClient.Client.Close: closing stdin, killing and waiting for the process are not part of this model.
- TurnStream.DoneMarkOnce: speaks of what ProcessEventStream sends; the handler's last poll of the error channel, which can report only an error that read did not get, is an event of Router and not part of this.
- Turns.FinishedTurnsAreComplete: speaks of one process; that a failed session/new replaces the process, and its stdout with it, is not modelled.
- SessionStore.HashIdentifies: is for texts without line breaks and roles without a colon; for other texts the keys are equal exactly if the hashed bytes are.
- Sink.ProcessEventStream: the writer does not fail, and usage is never set on this path.
