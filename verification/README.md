# A verified model of the pi agent runtime

This project models the parts of the repository in which several records of one conversation have to
agree, and proves that they do:

- **the agent loop** (`packages/agent/src/agent-loop.ts`): turns that inject queued messages, stream a
  reply into the last slot of the context, serve its tool calls one by one or concurrently, and then
  stop, continue or poll the queues;
- **the agent object** (`packages/agent/src/agent.ts`): the state it folds from the events of a run,
  its two message queues, and the life of the one run that may be active;
- **the proxy decoder** (`packages/agent/src/proxy.ts`): line framing over arbitrary chunks and the
  reducer that rebuilds a message from deltas;
- **fuzzy matching** (`packages/tui/src/fuzzy.ts`) and **transcript packing**
  (`scripts/session-transcripts.ts`).

`dafny verify dfyconfig.toml` checks everything.

## How it is built

Code that changes things step by step is imperative here too: `MessageList`, `Host`, `Agent`,
`PendingMessageQueue`, `PartialMessage` and `EventStream` are classes with the fields of the original
objects, and the loops are loops. Each method is proved against a function of its inputs or of the old
state, and the laws are lemmas about those functions.

A run is a fold of turns (`LoopSpec.Run`). What the outside world answers in a turn is data: the
provider's stream, what happens to each tool call (`Fate`: preparation, hooks, progress, outcome and
each reading of the abort signal), the hooks after the turn, and the answers to its polls. Nothing is
assumed about these answers beyond what a lemma says, with one exception: `Fate.updates` takes tools to
report progress only while they execute.

In the agent the polls are drains of its two queues (`Polling.LoopConfig`, `Driving.Drive`). Users go on
queueing, switching modes and clearing while a run lasts; since only polls look into the queues, a
`Round` lists what they do before each poll. The scheduler of a concurrent
batch is an arbitrary choice in the method that runs it (`ToolExecutor.RunConcurrently`) and an
arbitrary interleaving in the lemmas.

The event protocol is stated apart from the code that emits the events, as a monitor that reads one
event at a time and knows nothing about contexts, queues or schedulers (`Protocol.Monitor`).

| files | subject |
|---|---|
| `Options`, `Messages`, `HostState`, `Streaming`, `ToolBatch`, `LoopSpec`, `Driving` | data and specification functions |
| `ToolExecutor`, `AgentLoop`, `Agent`, `Queues`, `Polling` | the imperative agent |
| `Interleavings`, `Picking`, `Protocol`, `ConcurrentProtocol`, `BatchTheorems`, `PendingCalls` | tool batches under every schedule |
| `LoopTheorems`, `RecordTheorems`, `RunTheorems`, `PendingRuns`, `Announcing`, `SequentialRuns` | laws of whole runs |
| `Delivery`, `Pacing` | from the queues through the runs into the transcript |
| `Lifecycle` | laws of every sequence of calls on the agent |
| `Characters`, `ProxyLines`, `ProxyReducer`, `ProxyRebuild`, `ProxyToolCalls`, `ProxyStream`, `ProxyTheorems` | the proxy decoder |
| `Fuzzy`, `FuzzyTheorems`, `FuzzyFilter` | fuzzy matching |
| `Packing` | transcript packing |

## What the code does not do

Where a natural law fails, the model keeps the code as it is and states exactly when the law holds.

- A provider stream with a second `start` leaves a stale partial reply in the context and opens a
  message inside a message. A whole run follows the event protocol if and only if each of its streams
  announces itself at most once (`RunFollowsProtocolIff`), and so does a context that no hook has replaced
  tell the conversation (`ContextAgreesIff`). The returned messages, the transcript and the `message_end`
  events agree even then (`EndedMessagesAreReturned`).
- An abort seen between two calls of a reply leaves the later ones without results. Every call has its
  result if and only if no abort is seen before the last (`CallsArePaired`).
- The proxy decoder never looks at a last line that the response does not terminate with a line feed
  (`UnterminatedLineIsDropped`). Nothing is lost with it if and only if decoding had failed before or it
  is a line that decoding passes over (`UnterminatedLineIsLostIff`); a final `done` is lost
  (`LastDoneIsLost`).
- A proxied response that is read to its end without `done` or `error` ends the event stream but leaves
  its final result unresolved. The result resolves if and only if decoding failed or some terminated line
  said `done` or `error` (`StreamProxy`).
- A delta that follows the end of its tool call accumulates onto the text `undefined`, because the end
  deletes the field that the delta extends (`DeltaAfterEnd`). After a delta the JSON kept is the
  concatenation of the deltas since the start if and only if no end came before it, or the deltas before
  the last end happen to spell that text (`ToolCallJson`).
- The host's pending tool calls are those started and not ended at every moment of a trace if and only if
  no call is announced under an id that has ended (`PendingExactlyIff`).
- A throw between a poll and the injection of what it found loses messages: exactly those not announced
  by then, so none if and only if none was waiting or the whole opening of the turn had been emitted
  (`ThrowLosesTheUninjected`, `ThrowLosesPrompts`).
- After a throw in a concurrent batch the other calls go on. Such a call still changes the host when it
  ends, and disturbs it if and only if a later run has a call pending under the same id
  (`LateCallDisturbsIff`).
- When a run's executor throws, the transcript gains its failure message unless a listener throws on
  the very first event of the failure handler (`ThrowSettles`).
- The second flush of pending content in the packing loop can never happen (`PackOne`).

## Model

| member | source | states |
|---|---|---|
| `HostState.FoldMessages` | packages/agent/src/agent.ts:509-547 | whatever events arrive, the transcript grows by exactly the `message_end` payloads, in order, and the streaming flag stays |
| `HostState.Host.ProcessEvents` | packages/agent/src/agent.ts:509-547 | the fields updated in place are the fold of all events seen so far |
| `HostState.Host.BeginRun` | packages/agent/src/agent.ts:463-465 | the fields a run starts with; everything else is kept |
| `HostState.Host.FinishRun` | packages/agent/src/agent.ts:494-500 | what belongs to a run is cleared, the transcript and the last error are kept |
| `Interleavings.InterleavingConserves` | packages/agent/src/agent-loop.ts:502-504 | an arbitrary scheduler of concurrent calls loses, repeats and invents no event |
| `ToolBatch.FirstToolIsFound` | packages/agent/src/agent-loop.ts:569-576 | a call gets the first tool of its name, and none exactly if there is none |
| `ToolBatch.CallRunsIff` | packages/agent/src/agent-loop.ts:562-626 | exactly when a tool runs: it exists, its arguments are accepted, the hook neither throws nor blocks, and no abort was seen; otherwise the answer is an error that never asks to stop, and an abort outranks the hook's verdict |
| `ToolBatch.Batch.TakenIsPrefix` | packages/agent/src/agent-loop.ts:406-443 | the calls taken up are a prefix of the reply's calls, not empty when there are any, and all of them exactly if no abort is seen before the last |
| `ToolBatch.Batch.StopsIff` | packages/agent/src/agent-loop.ts:544-708 | a batch stops the run exactly if it took up a call and every call taken up ran, its hook did not throw, and hook or tool asked for it; a single refused call keeps the run going |
| `ToolExecutor.ShouldTerminateToolBatch` | packages/agent/src/agent-loop.ts:544-546 | true exactly for a non-empty list in which every result asks to stop |
| `ToolExecutor.RunOneCall` | packages/agent/src/agent-loop.ts:407-438 | one call is announced, prepared, run, ended and reported before anything else happens |
| `ToolExecutor.ExecuteToolCallsSequential` | packages/agent/src/agent-loop.ts:395-449 | the events, results and stop decision of the calls taken up, in call order |
| `ToolExecutor.AnnounceAll` | packages/agent/src/agent-loop.ts:459-500 | all calls are announced and prepared, immediate answers ended at once, and nothing has run yet |
| `ToolExecutor.Advance` | packages/agent/src/agent-loop.ts:484-496 | one step of one concurrent call extends that call's own thread and brings it closer to its end |
| `ToolExecutor.RunConcurrently` | packages/agent/src/agent-loop.ts:502-504 | whichever call the scheduler moves next, the events are an interleaving of the calls' threads and the outcomes come back in call order |
| `ToolExecutor.ExecuteToolCallsParallel` | packages/agent/src/agent-loop.ts:451-516 | the same results and stop decision as the sequential executor under every schedule, with results reported in call order |
| `ToolExecutor.ExecuteToolCalls` | packages/agent/src/agent-loop.ts:373-388 | a sequential configuration or a single sequential tool decides the mode of the whole batch |
| `BatchTheorems.ScheduleDoesNotMatter` | packages/agent/src/agent-loop.ts:395-516 | confluence and refinement: one by one or concurrently under any schedule, a batch leaves the host in the same state, with no started call pending even if ids repeat |
| `BatchTheorems.EachCallEndsOnce` | packages/agent/src/agent-loop.ts:459-504 | under every schedule the end events are a permutation of the calls' outcomes, one for each call taken up |
| `BatchTheorems.AnnouncedBeforeRunning` | packages/agent/src/agent-loop.ts:461-504 | in a concurrent batch no call is announced once some prepared call has reported progress or ended |
| `Announcing.RunAnnouncesFirst` | packages/agent/src/agent-loop.ts:461-504 | the same within every turn of a whole run whose batch is not forced to be sequential |
| `PendingRuns.RunPendsExactly` | packages/agent/src/agent.ts:524-536 | at every moment of a whole run, in either mode and under every schedule, the pending ids are exactly those started and not ended, if no turn reuses an id |
| `PendingRuns.PendingExactlyIff` | packages/agent/src/agent.ts:524-536 | for any trace that holds at every moment if and only if no call is announced under an id that has ended |
| `PendingCalls.SequentialPendsOne` | packages/agent/src/agent-loop.ts:406-443 | in a batch that runs one by one at most one call is pending at any moment, even if ids repeat |
| `SequentialRuns.RunPendsOne` | packages/agent/src/agent-loop.ts:380-443 | the same at every moment of every turn of a whole run whose batch is forced to be sequential |
| `ConcurrentProtocol.FeedSection` | packages/agent/src/agent-loop.ts:373-516 | every tool batch, in either mode and under every schedule, is accepted by the protocol monitor and reports exactly the results of the calls taken up |
| `Streaming.StreamAssistantResponse` | packages/agent/src/agent-loop.ts:310-367 | the reply replaces its partial versions in the last slot, and message events bracket it |
| `Streaming.Stream.OneSlotIffWellFormed` | packages/agent/src/agent-loop.ts:313-366 | the reply takes exactly one context slot if and only if the stream announces itself at most once |
| `LoopTheorems.StreamKeepsProtocolIffWellFormed` | packages/ai/src/types.ts:350-357 | the streaming events follow the protocol if and only if the stream keeps its documented contract |
| `Protocol.EndedAreMessageEnds` | packages/agent/src/agent-loop.ts:313-367 | the messages the monitor counts as ended are the `message_end` payloads of the trace it has read |
| `Protocol.StreamingWhileOpen` | packages/agent/src/agent.ts:509-547 | along every trace the monitor accepts, the host shows a streaming message exactly while a message is open |
| `AgentLoop.InjectPending` | packages/agent/src/agent-loop.ts:181-190 | pending messages are announced and appended to both lists, in order |
| `AgentLoop.PlayTurn` | packages/agent/src/agent-loop.ts:175-218 | context, returned messages and trace grow by what the specification says of the turn, and the schedule was one the batch allows |
| `AgentLoop.PrepareNextTurn` | packages/agent/src/agent-loop.ts:226-239 | a new context shares the running list or brings its own; without one nothing changes |
| `AgentLoop.Iterate` | packages/agent/src/agent-loop.ts:174-254 | an iteration of the inner loop takes the run one turn further, with the steering poll answered by the queue, and leaves all records and both queues in agreement with the specification |
| `AgentLoop.PollFollowUps` | packages/agent/src/agent-loop.ts:256-268 | the follow-up queue is drained as the specification foresaw; the run goes on with what it hands out or ends |
| `AgentLoop.RunLoop` | packages/agent/src/agent-loop.ts:155-269 | the nested loops, with every poll a drain of a queue as users have left it, follow the turn-by-turn specification and end unless the outside world has no further answer |
| `AgentLoop.RunAgentLoop` | packages/agent/src/agent-loop.ts:95-118 | returned messages and trace are those of a run from the prompts; the caller's list is not written to |
| `AgentLoop.RunAgentLoopContinue` | packages/agent/src/agent-loop.ts:120-143 | refused exactly on an empty context or after a reply, and then nothing changes; otherwise the caller's list grows in place |
| `LoopTheorems.TraceFollowsProtocol` | packages/agent/src/agent-loop.ts:109-268 | on every run and under every schedule the trace follows the protocol at every turn boundary, and a finished one ends in the single `agent_end` with exactly the returned messages |
| `LoopTheorems.RunFollowsProtocolIff` | packages/ai/src/types.ts:350-357 | a run follows the protocol at its boundary if and only if every one of its streams keeps the documented contract |
| `LoopTheorems.HostShowsOpenMessage` | packages/agent/src/agent.ts:509-547 | at every moment of a run the host shows a streaming message exactly while a message is open |
| `RecordTheorems.EndedMessagesAreReturned` | packages/agent/src/agent-loop.ts:174-268 | on every run the ended messages are exactly the returned ones, in order, whether or not the streams keep their contract |
| `RecordTheorems.TranscriptGrowsByReturned` | packages/agent/src/agent.ts:519-522 | the agent's transcript grows by exactly the messages the run returns |
| `RecordTheorems.ContextTellsTheConversation` | packages/agent/src/agent-loop.ts:103-107 | until a hook replaces its list, the context is the initial one followed by the returned messages and the list in use is extended in place; a replaced list holds exactly what had been returned by the turn after which it was replaced |
| `RecordTheorems.ContextAgreesIff` | packages/agent/src/agent-loop.ts:313-366 | a context that no hook has replaced is the initial one followed by the returned messages if and only if every stream keeps its contract |
| `RunTheorems.NoPolledMessageLost` | packages/agent/src/agent-loop.ts:167-266 | whatever the polls answer: at every turn boundary the injected messages followed by those waiting are all poll results in poll order, nothing waits at the end, the returned messages are the prompts and then the turns, and follow-ups are polled only after an empty steering poll of a turn without further tool calls |
| `Delivery.DrainsAreInjected` | packages/agent/src/agent.ts:440-447 | end to end for a run fed by the queues: what its polls took out of both queues is, in poll order, the injected messages followed by those waiting; each queue has handed out exactly the answers it gave since its last clear, and all it ever gave if nobody clears it |
| `Delivery.RunAccounts` | packages/agent/src/agent-loop.ts:167-266 | if every message handed out since the last clear is in the transcript or among the prompts before a run, every one is in the transcript or waiting after it, as often as it was handed out |
| `Delivery.NothingQueuedIsLost` | packages/agent/src/agent.ts:118-152 | then every message queued since the last clear is still queued, waiting, or in the transcript, as often as it was queued |
| `Delivery.ContinueAccounts` | packages/agent/src/agent.ts:338-365 | what `continue()` takes out of a queue is accounted for as the prompts of the run it starts |
| `Delivery.ActionsAccount` | packages/agent/src/agent.ts:263-322 | no other call, event or throw disturbs the account, not even a reset |
| `Delivery.ThrowLosesTheUninjected` | packages/agent/src/agent.ts:467-473 | a throw in any turn of a run, after any number of its events, loses exactly the polled messages not announced by then, and none if and only if none was waiting or the turn's opening was complete |
| `Delivery.ThrowLosesPrompts` | packages/agent/src/agent.ts:351-357 | likewise for prompts that `continue()` took out of a queue, when the throw comes while they are announced |
| `RunTheorems.TurnsAreBounded` | packages/agent/src/agent-loop.ts:170-266 | there is at most one turn more than tool batches that asked to go on plus polls after the start that found something |
| `RunTheorems.CallsArePaired` | packages/agent/src/agent-loop.ts:196-216 | over whole runs every reply is followed by results for a prefix of its calls in call order: for some if there are any, for all exactly if no abort was seen between two of them, for none if the reply failed |
| `RunTheorems.HostIsClearBetweenTurns` | packages/agent/src/agent.ts:509-547 | after every turn no call is pending and no message is streaming, even if ids repeat |
| `Queues.QueueConserves` | packages/agent/src/agent.ts:118-152 | first in, first out, exactly once: under any interleaving of enqueuing, draining, mode switches and clearing, what was enqueued since the last clear is all drains in order followed by what remains |
| `Queues.NthDrainIsNth` | packages/agent/src/agent.ts:134-147 | one-at-a-time drains hand the messages out one by one, in order, and then nothing |
| `Queues.PendingMessageQueue.EnqueueMessage` | packages/agent/src/agent.ts:126-128 | the message goes to the end of the queue |
| `Queues.PendingMessageQueue.DrainMessages` | packages/agent/src/agent.ts:134-147 | hands out everything or the first message by mode, and nothing exactly if the queue was empty |
| `Queues.PendingMessageQueue.ClearMessages` | packages/agent/src/agent.ts:149-151 | the queue and its history start over |
| `Polling.LoopConfig.GetSteeringMessages` | packages/agent/src/agent.ts:440-446 | the first poll of a run started from the steering queue finds nothing and leaves the queue alone; every other one drains it by its mode |
| `Polling.LoopConfig.GetFollowUpMessages` | packages/agent/src/agent.ts:447 | a poll drains the follow-up queue by its mode |
| `Pacing.ContinueFeedsOneByOne` | packages/agent/src/agent.ts:348-351 | in one-at-a-time mode, continuing after a reply starts from the first queued message alone, skips the initial poll, and hands queued message k + 1 to poll k after that |
| `Pacing.SteeringIsPaced` | packages/agent/src/agent-loop.ts:182-253 | from `continue()` to the injections: such a run injects each later message in a turn of its own, in queue order, and does not end before all of them have been answered, whatever users queue meanwhile, if no turn stops it early and nobody clears the queue or switches its mode |
| `Lifecycle.AlwaysSound` | packages/agent/src/agent.ts:451-500 | over every sequence of calls, and of late events from calls a failed run has left behind, at most one run is active, every other run ever started has settled exactly once and in order, an idle agent is clean, and neither queue has lost or repeated a message |
| `Lifecycle.ContinueStartsOrKeeps` | packages/agent/src/agent.ts:338-365 | `continue()` never takes a message out of a queue and then fails to start a run with it, and is refused exactly while a run is active, on an empty transcript, and after a reply with nothing queued |
| `Lifecycle.ThrowSettles` | packages/agent/src/agent.ts:467-492 | a throw settles the run whatever the failure handler meets; exactly one failure message is added, marked aborted exactly if the signal was, unless a listener throws on the handler's first event |
| `Lifecycle.LateCallDisturbsIff` | packages/agent/src/agent.ts:524-552 | a call left behind by a failed run changes the state exactly if it ends under an id that a later run has pending, and never that of an idle agent |
| `Lifecycle.SignalIsTracked` | packages/agent/src/agent.ts:300-302 | the active run's signal is raised exactly if an abort came after that run began |
| `Lifecycle.TranscriptIsKept` | packages/agent/src/agent.ts:476-522 | over every sequence of calls the transcript is the messages completed and the failure messages since the last reset |
| `AgentObject.Agent.constructor` | packages/agent/src/agent.ts:201-219 | a new agent is idle with the given transcript and two empty queues of its own |
| `AgentObject.Agent.Prompt` | packages/agent/src/agent.ts:325-335 | refused without any change while a run is active, otherwise a run starts from the messages |
| `AgentObject.Agent.Continue` | packages/agent/src/agent.ts:338-365 | the fields change as the lifecycle law about `continue()` assumes, drain by drain |
| `AgentObject.Agent.HasQueuedMessages` | packages/agent/src/agent.ts:290-292 | true exactly while either queue holds a message |
| `AgentObject.Agent.Abort` | packages/agent/src/agent.ts:300-302 | raises the signal of the active run, if there is one, and touches nothing else |
| `AgentObject.Agent.Reset` | packages/agent/src/agent.ts:314-322 | clears transcript, run state and both queues without ending the active run |
| `AgentObject.Agent.HandleRunFailure` | packages/agent/src/agent.ts:476-500 | the failure events reach the host up to the one a listener throws on, and the run is finished in any case |
| `AgentObject.Agent.RunPrompts` | packages/agent/src/agent.ts:386-400 | a whole run inside the agent, polling its queues: the transcript grows by exactly the returned messages, the queues have handed out exactly what was injected or waits, and a finished run leaves the agent idle, clean and with nothing waiting |
| `AgentObject.Agent.RunContinuation` | packages/agent/src/agent.ts:402-420 | the same for a run that continues the transcript as it is |
| `AgentObject.Agent.PromptToEnd` | packages/agent/src/agent.ts:327-335 | all of `prompt()`: refused without any change while a run is active; once its run has ended every message taken out of a queue since its last clear is in the transcript, if that was so before |
| `AgentObject.Agent.ContinueToEnd` | packages/agent/src/agent.ts:338-365 | all of `continue()` keeps the same account, with the messages it takes out of a queue itself |
| `ProxyLines.SplitRebuilds` | packages/agent/src/proxy.ts:192-193 | the lines with their terminators and the tail are the text again, and none of them holds a line feed |
| `ProxyLines.ResumeFromTail` | packages/agent/src/proxy.ts:191-193 | resuming after a chunk with only the unterminated tail in hand loses and invents no line |
| `ProxyReducer.SlotsAreIndependent` | packages/agent/src/proxy.ts:238-348 | however events of different content indices are interleaved, the fold succeeds exactly if each index's own events do, and leaves at each index what those alone make of it |
| `ProxyRebuild.MessageIsRebuilt` | packages/agent/src/proxy.ts:238-348 | however blocks are cut into deltas and interleaved, the message ends up with exactly those blocks |
| `ProxyRebuild.EndReportsItsDeltas` | packages/agent/src/proxy.ts:264-348 | the end of a block reports what its own deltas summed to, whatever came in between |
| `ProxyToolCalls.KindsChangeAtStartsOnly` | packages/agent/src/proxy.ts:238-348 | between starts at its index no event changes the kind of a block, creates one or removes it |
| `ProxyToolCalls.ToolCallJson` | packages/agent/src/proxy.ts:310-348 | in any message and under any interleaving, the JSON kept for a tool call is what its own deltas and ends since its start make of it; exactly when that is the concatenation of its deltas |
| `ProxyToolCalls.DeltaAfterEnd` | packages/agent/src/proxy.ts:320-348 | an input on which it is not: one delta after the end |
| `ProxyStream.PartialMessage.ProcessProxyEvent` | packages/agent/src/proxy.ts:238-366 | the shared message and the pushed event are those of the reducer; a throw changes nothing |
| `ProxyStream.EventStream.Push` | packages/ai/src/utils/event-stream.ts:21-36 | a closed stream ignores the event; otherwise what has been delivered is what was pushed up to the first closing event, and the result is resolved exactly if that has come |
| `ProxyStream.ReadAll` | packages/agent/src/proxy.ts:181-211 | chunk invariance: message, pushed events and error depend only on the joined text, not on how it was cut |
| `ProxyStream.StreamProxy` | packages/agent/src/proxy.ts:151-224 | the same for a whole response, with the failure path: an error or abort sets the stop reason and pushes one closing event after all others; the final result resolves exactly if decoding failed or a terminated line said `done` or `error` |
| `ProxyTheorems.WireRoundTrip` | packages/agent/src/proxy.ts:181-348 | cut a message's blocks into deltas, interleave them in any way, send the events as text and decode it: no error, and exactly those blocks |
| `ProxyTheorems.UnterminatedLineIsDropped` | packages/agent/src/proxy.ts:183-207 | a last line that the response does not terminate changes nothing |
| `ProxyTheorems.UnterminatedLineIsLostIff` | packages/agent/src/proxy.ts:183-213 | terminating the last line makes no difference if and only if decoding had failed before it or it lacks the prefix, is blank, or holds an event that changes nothing and pushes nothing |
| `ProxyTheorems.LastDoneIsLost` | packages/agent/src/proxy.ts:191-213 | a final `done` that is not terminated leaves the decoder as it was, where the terminated one pushes the closing event |
| `ProxyStream.DeliveredIsPrefix` | packages/ai/src/utils/event-stream.ts:21-36 | the consumer sees the pushed events up to and including the first closing one, and only those |
| `ProxyStream.ResolvesIffClosed` | packages/ai/src/utils/event-stream.ts:21-48 | the final result resolves exactly if a closing event was pushed at all |
| `ProxyTheorems.ClosesIffServerTerminates` | packages/agent/src/proxy.ts:196-213 | a response decoded without error closes the stream exactly if the server sent `done` or `error` |
| `Fuzzy.MatchQuery` | packages/tui/src/fuzzy.ts:16-68 | the loop with its early exit computes the score of the full scan |
| `Fuzzy.FuzzyMatch` | packages/tui/src/fuzzy.ts:70-92 | the direct match decides, and the fallback with exchanged groups costs five points |
| `FuzzyTheorems.MatchesIffSubsequence` | packages/tui/src/fuzzy.ts:16-61 | greedy completeness: a query matches exactly the texts it is a subsequence of, at positions that are pointwise leftmost among all embeddings |
| `FuzzyTheorems.MatchScoreIsTotal` | packages/tui/src/fuzzy.ts:25-65 | the running score is the sum of what each matched position earns by itself and by its run |
| `FuzzyTheorems.ExactMatchDominates` | packages/tui/src/fuzzy.ts:30-65 | any other text that matches scores at least 100 points above the query against itself |
| `FuzzyTheorems.ScoreIsBounded` | packages/tui/src/fuzzy.ts:25-67 | with n characters matched in a text of m the score lies between -(5n(n+1)/2 + 10n + 100) and 2(m - n) + n(m - 1)/10 |
| `FuzzyTheorems.SwapExchangesGroups` | packages/tui/src/fuzzy.ts:75-81 | letters before digits, or digits before letters, are recognised and exchanged whole |
| `FuzzyTheorems.SwapIsInvolution` | packages/tui/src/fuzzy.ts:75-81 | exchanging the groups twice gives the query back |
| `FuzzyTheorems.FuzzyMatchesIff` | packages/tui/src/fuzzy.ts:70-92 | a text is accepted exactly if it contains the query, or the query with its groups exchanged, as a subsequence |
| `FuzzyFiltering.FuzzyFilter` | packages/tui/src/fuzzy.ts:109-136 | exactly the items every token matches, as the stable sort by total score |
| `FuzzyFiltering.StableSortIsUnique` | packages/tui/src/fuzzy.ts:135-136 | a list has exactly one stable sort, so the filtered order is determined |
| `FuzzyFiltering.StableSortIsPermutation` | packages/tui/src/fuzzy.ts:135-136 | sorting keeps every result as often as it occurs |
| `FuzzyFiltering.FilterIgnoresTokenOrder` | packages/tui/src/fuzzy.ts:104-136 | the filtered list is the same for every order of the tokens |
| `Packing.PackOne` | scripts/session-transcripts.ts:201-233 | one transcript is taken up and every file it closes was full; pending content is never met at the second flush |
| `Packing.Pack` | scripts/session-transcripts.ts:196-241 | every transcript lands in exactly one file, in order, each file is within the limit or a single oversized transcript, no file was closed before it had to be, no other packing in order uses fewer files, and the files are at least half full on average |
| `Packing.PackingIsOptimal` | scripts/session-transcripts.ts:196-241 | no other way of putting the transcripts into acceptable files in order uses fewer files |
| `Packing.FilesAreHalfFull` | scripts/session-transcripts.ts:196-241 | two files in a row hold more than the limit less two between them, so half the number of files, rounded down, times the limit less one is at most the total output |

## Left out

- Building the request for the provider (`convertToLlm`, `transformContext`, API keys, model, thinking level and transport settings): it decides what the stream answers, and the stream is arbitrary.
- The bodies of tools, hooks and argument validation: their outcomes are the data of `Fate`. A `Fate` belongs to a call and not to a schedule, so an outcome that depends on the order of concurrent calls is not compared across schedules.
- Timestamps, usage figures, images and the structure of message content beyond text, thinking and tool calls.
- Listeners other than the state reducer, the promises of `waitForIdle`, and the outer `agentLoop` wrappers that return event streams.
- Throwing hooks or listeners inside a run: the methods of the loop do not throw. A throw is modelled as a cut of the trace after any event (`Delivery`) and as an action of the agent, after which calls of a concurrent batch may still report progress and end (`Lifecycle`). That the listeners of a later run hear of those is not modelled.
- Assigning `state.messages` during a run. `reset()` during a run is modelled in `Lifecycle` and in `Agent.Reset`, where it marks the run as disturbed.
- Setting a queue's mode and clearing one queue alone through the agent object: both are actions of `Lifecycle`, methods of the queue, and part of what users may do during a run.
- PrepareNextTurn: does not represent the model and the thinking level that a hook may change, because they only decide what the stream answers, and the stream is arbitrary.
- A hook that hands back an older list of messages as the new context: a replacement list is new or the running one.
- `ToolExecutor.RunConcurrently`: the scheduler is freer than a JavaScript event loop, which starts the prepared calls in call order; what is proved holds for more schedules than can occur.
- `ProxyStream.StreamProxy`: HTTP, the status line, decoding of bytes and cancelling the reader. The input is a list of decoded chunks, each with what the abort signal said when it arrived.
- `ProxyStream.PartialMessage.ProcessProxyEvent`: every pushed event of the original also holds a reference to the one shared message, so consumers see later changes in earlier events; events here carry only their own data.
- `JSON.parse` and `parseStreamingJson` are arbitrary functions that may fail; the wording of their errors is one constant.
- `Fuzzy.MatchQuery`: lower-casing, which may change lengths for some letters of Unicode; query and text are taken as lower-cased. Scores count tenths, so the rounding of `0.1` is not modelled.
- `FuzzyFiltering.FuzzyFilter`: splitting the query into tokens at white space. The built-in sort is modelled by an insertion that is proved to be the stable sort.
- `Packing.Pack`: reading sessions, naming and writing files. Transcripts are taken as non-empty, which their header and footer lines make them.
- Model registries, settings, terminal rendering and the rest of the repository.
