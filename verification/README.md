# Verification model of chudbot

A Dafny 4.11 model of the parts of chudbot in which order, cuts, retries and interleavings decide
what happens. Everything a model cannot see - the server, the transport, the executor of client
tools, the scheduler - is an arbitrary parameter, so every theorem holds for all of them.

* **Streaming pipeline.** Bytes go through the SSE decoder (`Sse`, `SseChunking`, `SseRoundTrip`),
  the Anthropic stream adapter (`AnthropicStream`, `AnthropicAdapter`), one attempt
  (`AnthropicAttempt`, `AnthropicChunking`) and the attempts loop (`Retry`, `AnthropicStep`) to the
  event reducer (`Collector`, `CollectorSpec`). `AnthropicRun`, `AnthropicConformance`,
  `AnthropicWires`, `AnthropicClash` and `AnthropicPipeline` carry a protocol-conforming body through
  all stages and state the result in terms of what the server sent; `AnthropicServerTools` accounts
  for the hosted tools.
* **Agent loop.** `AgentTools` executes client tools under any poll schedule, `Agent` is the loop,
  `AgentRuns`, `AgentLaws`, `AgentConservation`, `AgentReports` and `AgentPrompt` state what every
  run guarantees.
* **Transcript to messages.** `Transcript`, `AnthropicMessages`, `AnthropicPlacement`; and
  `AnthropicToolTurns` for tool calls and their results. `AnthropicReplay` and `AnthropicAgent` put
  the agent loop, the adapter and the rendering together.
* **Diagnostics.** `EditDistance`, `ClosestName`, `ConfigPath`, `SourceMap`.
* **Platform fan-in.** `FanIn`: pump tasks, a bounded channel and a receiver, one await point a step.

`Prelude`, `Utf8`, `Json`, `Decimal`, `ModelStep` and `TraceLemmas` are shared. Code that updates
state in place is modelled by classes and loops proved against functions on values; the theorems
are about those functions. `AnthropicWitnesses` and `AgentWitnesses` hold concrete runs that meet the
exact conditions below. `dafny verify dfyconfig.toml` checks the whole project.

## Where the code does less than it seems to

* Chunking independence holds for the SSE decoder without condition, but for an attempt only under
  the condition of `AnthropicChunking.ChunkingIndependentIff`: a push that meets an ill-formed
  segment drops the events decoded before it in the same push. `AnthropicWitnesses.SomeCutMatters`
  is a body for which the cut matters.
* A fallback reasoning item may carry the id of an item already emitted, and collection then fails.
  It happens exactly when no thinking was streamed and a block with a summary is named like an
  emitted text or tool item (`AnthropicClash.ClashIff`; a stream: `AnthropicPipeline.ClashHappens`).
  A server that names no block with the prefixes `anthropic_text:` and `anthropic_tool:` is safe
  (`AnthropicClash.PlainNamesCollect`).
* A run that the text generation deadline ends does not report the usage and server tools its
  unfinished step had already shown (`AgentWitnesses.DeadlineDropsUsage`); reports equal what was
  shown exactly when there were none (`AgentReports.RunConserves`).
* A repeated stop of a tool block of which no arguments were streamed emits its input again; a
  repeated stop of any other block emits nothing (`AnthropicPipeline.RepeatedStopEmitsAgain`).
* A hosted-tool request is dropped when another request with its id follows before a result, and only
  then (`AnthropicServerTools.ServerToolsReported`; two blocks: `AnthropicServerTools.SecondRequestWins`).
* `backoff` saturates beyond retry 32 exactly when neither the cap nor a zero base hides it
  (`Retry.BackoffExactIff`; a policy: `Retry.BackoffSaturates`), step ordinals beyond 2^31 - 1
  (`AgentReports.OrdinalsCount`; a run: `AgentWitnesses.OrdinalsSaturate`).
* A backend that ends a step with kind Continue although it holds tool calls leaves these calls
  unanswered in the transcript, and nothing else does (`AgentLaws.TranscriptProtocol`; a run:
  `AgentWitnesses.PausedCallStaysUnanswered`); on conforming streams the Anthropic adapter never ends
  a step so (`AnthropicPipeline.BodyBecomesStep`).
* The documentation of `AgentOutcome` leaves `Failed` to higher layers
  (crates/chudbot-api/src/agent.rs:380-386), but the loop itself ends a run with `Failed` when text
  generation exceeds its deadline (crates/chudbot-api/src/agent.rs:594-623); the model follows the code.
* Carets under a clipped source line can run past the visible text: the highlight is covered exactly
  under the condition in `SourceMap.NewWindow` (a line: `SourceMap.CaretsOverrun`).

## Model

| member | source | states |
|---|---|---|
| Utf8.ValidAppend | crates/chudbot-api/src/sse.rs:73-97 | behind a well-formed string, UTF-8 validity is decided by what follows (the test each segment must pass) |
| Sse.FindEventBoundary | crates/chudbot-api/src/sse.rs:59-71 | the loop finds the first boundary: two line ends in a row, LF LF before CRLF CRLF at one place |
| Sse.ParseEvent | crates/chudbot-api/src/sse.rs:73-97 | the loop over lines is the field reading: last event name, data lines joined by LF, comments and other fields ignored, no event when neither field occurs |
| Sse.SseDecoder.Push | crates/chudbot-api/src/sse.rs:28-39 | pushing decodes exactly the segments closed so far and keeps the undecoded rest; an ill-formed segment fails and leaves the bytes behind it |
| Sse.SseDecoder.Finish | crates/chudbot-api/src/sse.rs:42-48 | finishing decodes the unterminated tail |
| SseChunking.SplitAppend | crates/chudbot-api/src/sse.rs:28-71 | splitting a concatenation: the segments of the first part, then those of its rest put in front of the second part (also when a boundary straddles the cut) |
| SseChunking.DecodeCutIsDecode | crates/chudbot-api/src/sse.rs:28-49 | pushing the pieces of any cut and finishing gives what decoding the joined bytes gives, events or error |
| SseChunking.ChunkingIndependence | crates/chudbot-api/src/sse.rs:28-49 | two cuts of the same bytes yield the same events, and one fails exactly when the other does |
| SseChunking.UndecodedIsRest | crates/chudbot-api/src/sse.rs:28-39 | one push on a buffer without an ill-formed closed segment leaves the unterminated tail |
| SseChunking.PushesLeaveRest | crates/chudbot-api/src/sse.rs:28-39 | whatever the cut: all pushes succeed if and only if the joined bytes have no ill-formed closed segment, and they then leave the unterminated tail of the joined bytes |
| SseChunking.DecodeChunks | crates/chudbot-api/src/sse.rs:17-50 | the decoder object, driven over any list of chunks, computes the decoding of the joined bytes |
| SseRoundTrip.PrintedDecodes | crates/chudbot-api/src/sse.rs:28-97 | every printed list of events decodes, in the format of section 9.2.5 of the WHATWG HTML standard, to the list with CRs before line ends stripped |
| SseRoundTrip.DecodedNamesOneLine | crates/chudbot-api/src/sse.rs:73-97 | no decoded event has a name of several lines |
| SseRoundTrip.RoundTripIff | crates/chudbot-api/src/sse.rs:28-97 | printed events decode to themselves if and only if no name or data line ends in CR and no name holds LF |
| SseRoundTrip.RoundTripInEveryCut | crates/chudbot-api/src/sse.rs:28-97 | and then in every cut of the printed bytes |
| Collector.FoldDelta | crates/chudbot-api/src/collector.rs:183-276 | a delta extends its pending item, or is refused for the reason its kind, provider, id or name gives |
| Collector.ModelStepCollector.PendingSlot | crates/chudbot-api/src/collector.rs:278-309 | a known id finds its slot (so the expect cannot fire), a new id gets one, a kind change is refused |
| Collector.ModelStepCollector.PushDelta | crates/chudbot-api/src/collector.rs:183-276 | slots and id map keep meaning the trace pushed so far; refusal exactly when the delta does not fit the earlier deltas of its item |
| Collector.ModelStepCollector.Push | crates/chudbot-api/src/collector.rs:128-164 | each event is accepted or refused exactly as the trace so far demands, and slots, ids and flag then mean the longer trace |
| Collector.ModelStepCollector.Finish | crates/chudbot-api/src/collector.rs:166-181 | the collected step is the one the pushed trace defines |
| Collector.PlacesDistinct | crates/chudbot-api/src/collector.rs:278-309 | an item has one slot only |
| Collector.CollectModelStep | crates/chudbot-api/src/collector.rs:103-116 | the loop over a fallible stream returns the first failure or the collected step |
| CollectorSpec.AcceptedIff | crates/chudbot-api/src/collector.rs:128-276 | a trace is accepted if and only if nothing follows Finished and each item is consistent |
| CollectorSpec.CollectIff | crates/chudbot-api/src/collector.rs:128-181 | collecting succeeds if and only if there is one Finished, last, each item has one delta kind, its provider or tool id is empty then constant, its names agree and one is given, and non-blank arguments parse; the step then lists items by first appearance with deltas concatenated |
| CollectorSpec.InterleavingInvariance | crates/chudbot-api/src/collector.rs:183-309 | any trace with the same deltas per item, the same order of first appearances and other events and the same Finished last collects to the same step |
| CollectorSpec.NeighboursCommute | crates/chudbot-api/src/collector.rs:183-276 | swapping neighbouring deltas of two items that both appeared before changes nothing |
| TraceLemmas.CollectedContinuation | crates/chudbot-api/src/llm.rs:337-345 | the continuation of a collected step is the last continuation event of its trace |
| Retry.BackoffMonotone | crates/chudbot-api/src/retry.rs:112-117 | backoff is monotone in the retry number and never above the cap |
| Retry.BackoffExactIff | crates/chudbot-api/src/retry.rs:112-117 | backoff equals min(base*2^(r-1), cap) for r up to 32, and beyond that if and only if the cap or a zero base hides the saturation |
| Retry.BackoffSaturates | crates/chudbot-api/src/retry.rs:112-117 | a base of one nanosecond and a cap of ten seconds: the delay before retry 33 is one nanosecond short of the doubled one |
| Retry.RetryAfterError | crates/chudbot-api/src/retry.rs:125-151 | another attempt follows if and only if attempts are left and the class is retryable; it sleeps the backoff of the failed attempt |
| Retry.WithRetry | crates/chudbot-api/src/retry.rs:164-185 | the operation is called up to the first success, first non-retryable error or last allowed attempt; that outcome is returned; total sleep is the sum of the backoffs, at most (calls-1)*cap |
| AnthropicAdapter.WalkBlocks | crates/chudbot-anthropic/src/llm.rs:924-1011 | one pass yields the text, client calls, grounding and server tool uses (paired, orphaned, then unanswered, each unanswered one once) of the stored blocks, and the uses report as ServerToolsReported says |
| AnthropicServerTools.ServerToolsReported | crates/chudbot-anthropic/src/llm.rs:924-1011 | in any iteration order of the hash map: every result is reported by exactly one use, with the request it answers if there is one; every other request by exactly one use unless a second request took over its id before a result; no use reports anything else |
| AnthropicServerTools.SecondRequestWins | crates/chudbot-anthropic/src/llm.rs:958-1004 | of two requests with one id and no result, only the second is reported |
| AnthropicAdapter.ReasoningItemsToDeltaEvents | crates/chudbot-api/src/llm.rs:483-506 | reasoning items become one delta per non-empty summary, under the item id or a position id |
| AnthropicAdapter.AnthropicStreamState.Terminal | crates/chudbot-anthropic/src/llm.rs:470-534 | message_stop emits fallback text, fallback reasoning, continuation, server tools, grounding, usage, Finished, in this order |
| AnthropicAdapter.AnthropicStreamState.BlockDeltaEvent | crates/chudbot-anthropic/src/llm.rs:294-380 | a delta updates its block and the fallback flags and emits at most one delta event |
| AnthropicAdapter.AnthropicStreamState.FinishBlock | crates/chudbot-anthropic/src/llm.rs:438-468 | a stop stores the parsed input and emits the fallback arguments, or fails on bad JSON |
| AnthropicAdapter.AnthropicStreamState.WireEvent | crates/chudbot-anthropic/src/llm.rs:231-424 | every event type changes the whole state and emits events as the value-level adapter says |
| AnthropicAdapter.AnthropicStreamState.StreamEvent | crates/chudbot-anthropic/src/llm.rs:231-424 | the same from the raw SSE event, JSON and type dispatch included |
| AnthropicStream.PutSorted | crates/chudbot-anthropic/src/llm.rs:207-216 | the block map stays ordered by index and changes at one index only |
| AnthropicRun.IdsInjective | crates/chudbot-anthropic/src/llm.rs:262-380 | item ids of different blocks, kinds and of the terminal fallback never coincide |
| AnthropicRun.RunKeeps | crates/chudbot-anthropic/src/llm.rs:231-468 | along every conforming run the emitted deltas are those of the stored blocks, grouped by block in index order |
| AnthropicRun.RunFlags | crates/chudbot-anthropic/src/llm.rs:262-380 | the fallback flags are down only when there is nothing to fall back on |
| AnthropicConformance.ConformingStreamCollects | crates/chudbot-anthropic/src/llm.rs:231-534 | for every conforming stream the adapter gets through: the text fallback is silent; collection succeeds if and only if no fallback reasoning id clashes; answer text equals both the stored text and the text sent, calls and continuation are those of the stored blocks, and the kind is ClientTools exactly when there is a call |
| AnthropicWires.RunReflects | crates/chudbot-anthropic/src/llm.rs:245-468 | along every conforming run the stored blocks are the started ones in order, each with the type, id, name and summary of its start, the argument text sent for it, and its stored input: empty until its stop, then what the arguments parse to |
| AnthropicWires.CallsAreSent | crates/chudbot-anthropic/src/llm.rs:438-534 | the calls read off the stored blocks are exactly the tool blocks the server sent, in order, with what their arguments parse to |
| AnthropicClash.EmittedItems | crates/chudbot-anthropic/src/llm.rs:262-468 | of a stream without thinking, the ids under which deltas were emitted are exactly those of text blocks for which text was sent and of tool blocks |
| AnthropicClash.ClashIff | crates/chudbot-anthropic/src/llm.rs:470-534 | ids clash if and only if no thinking delta was sent and a started block with a non-blank summary (its signature included) has the id of an emitted text or tool item; position ids never clash |
| AnthropicClash.PlainNamesCollect | crates/chudbot-anthropic/src/llm.rs:470-534 | when no started block has an id with the prefix anthropic_text: or anthropic_tool:, collecting what the adapter emits succeeds |
| AnthropicPipeline.ClashHappens | crates/chudbot-anthropic/src/llm.rs:470-534 | the clash is real: a concrete conforming stream meets the condition on names and is refused by the collector |
| AnthropicPipeline.RepeatedStopEmitsAgain | crates/chudbot-anthropic/src/llm.rs:438-468 | for every stored block whose stop succeeds: a second stop succeeds, leaves the state as it is and emits the same events again, which are some if and only if it is a tool block of which no arguments were streamed |
| AnthropicPipeline.ConformingFeed | crates/chudbot-anthropic/src/llm.rs:118-144 | with message_stop behind it a conforming stream is done, has emitted the full trace, and nothing that follows is looked at |
| AnthropicPipeline.ConformingAttempt | crates/chudbot-anthropic/src/llm.rs:86-183 | in every cut of a conforming body, with message_stop in a closed event or in the unterminated end, the attempt completes and yields the full trace |
| AnthropicPipeline.BodyBecomesStep | crates/chudbot-anthropic/src/llm.rs:86-534 | end to end, for every cut of a conforming body, with message_stop in a closed event or in the unterminated end, in terms of what the server sent: the attempt completes; collection succeeds if and only if no names collide; the text is the text sent, the calls are the tool blocks sent with what their streamed arguments parse to, the kind is ClientTools exactly when there is one, and the continuation holds the stored blocks |
| AnthropicAttempt.FeedAppend | crates/chudbot-anthropic/src/llm.rs:118-144 | feeding a concatenation feeds the parts, stopping at the first finish or failure |
| AnthropicAttempt.FeedEvents | crates/chudbot-anthropic/src/llm.rs:118-144 | the loop over the events of one push is the feed, up to the event that finishes or fails |
| AnthropicAttempt.StreamAttempt | crates/chudbot-anthropic/src/llm.rs:86-191 | one attempt over any list of chunks and transport errors yields what the value-level attempt says |
| AnthropicChunking.AttemptIsWhole | crates/chudbot-anthropic/src/llm.rs:97-183 | an attempt that loses nothing is the attempt told from the whole body |
| AnthropicChunking.CutMatters | crates/chudbot-anthropic/src/llm.rs:97-117 | otherwise one chunk and two chunks of the same body give different attempts |
| AnthropicChunking.ChunkingIndependentIff | crates/chudbot-anthropic/src/llm.rs:97-183 | an attempt is the same in every cut of the body if and only if all closed segments are UTF-8 or nothing happened before the first that is not |
| AnthropicWitnesses.SpoiledCutMatters | crates/chudbot-anthropic/src/llm.rs:97-117 | behind any printable event that emits something, ends the stream or fails, an ill-formed segment makes two cuts of the body differ |
| AnthropicWitnesses.SomeCutMatters | crates/chudbot-anthropic/src/llm.rs:97-117 | a concrete body, a text block start and one ill-formed byte, and a lawful codec that reads it, for which two cuts give different attempts |
| AnthropicStep.PostJsonStream | crates/chudbot-anthropic/src/lib.rs:106-148 | one streamed request makes between one and max(1, max_attempts) calls, returns the outcome of the last, and sleeps the backoffs between them |
| AnthropicStep.UseAnswer | crates/chudbot-anthropic/src/llm.rs:86-191 | one pass of the attempts loop goes on exactly when it broke retryably with nothing yielded and attempts left, and then sleeps the backoff of the attempt |
| AnthropicStep.Step | crates/chudbot-anthropic/src/llm.rs:79-193 | when the body cannot be built, that error and nothing sent; otherwise requests, all with the one body, yields, result and time slept are those of the determined last request; the loop terminates |
| AnthropicStep.RequestBound | crates/chudbot-anthropic/src/llm.rs:79-193 | at most max(1, max_attempts) squared requests are made |
| AnthropicStep.StepSleeps | crates/chudbot-anthropic/src/llm.rs:79-193 | a step sleeps at most max(1, max_attempts) + 1 times as long as one retried request that always fails |
| AnthropicStep.EarlierRequests | crates/chudbot-anthropic/src/llm.rs:79-193 | every request before the last was refused retryably or broke retryably before yielding anything |
| AnthropicStep.AttemptFinishes | crates/chudbot-anthropic/src/llm.rs:97-191 | an attempt completes exactly when it yields Finished, once and last |
| AnthropicStep.StepIsSafe | crates/chudbot-anthropic/src/llm.rs:79-193 | every run of a step against any failure schedule: no request after a yield, all requests with the same body, all yields from one attempt, Finished last exactly on success, earlier requests invisible, and by default at most 9 requests and 6 seconds of sleep |
| Transcript.HoistedPart | crates/chudbot-api/src/transcript.rs:77-90 | the hoisted count is exactly the maximal marked system prefix, or else one unmarked first system turn |
| Transcript.SystemTextIff | crates/chudbot-api/src/transcript.rs:96-114 | there is a system text exactly when a hoisted turn has a non-empty text |
| AnthropicMessages.AnthropicContentForTurn | crates/chudbot-anthropic/src/llm.rs:729-777 | a continuation of this provider supersedes the turn; otherwise blocks are converted in order, the first media error winning |
| AnthropicMessages.FlushSystemContent | crates/chudbot-anthropic/src/llm.rs:779-795 | afterwards nothing is pending and no content block is lost or reordered; something pending becomes exactly one message at the end, a system message if and only if one may stand there |
| AnthropicMessages.ToAnthropicMessages | crates/chudbot-anthropic/src/llm.rs:661-709 | the loop with its pending buffer renders what the value-level placement says, or the first error |
| AnthropicMessages.NativeModels | crates/chudbot-anthropic/src/llm.rs:711-727 | native-system models are exactly the four names, bare or with one -YYYYMMDD suffix |
| AnthropicPlacement.PlacementRules | crates/chudbot-anthropic/src/llm.rs:779-816 | no system message is first or next to another; each follows a user message or an assistant message ending in server_tool_use and precedes an assistant message or the end; none at all without native support |
| AnthropicPlacement.StretchLayout | crates/chudbot-anthropic/src/llm.rs:678-709 | between two assistant turns stand the user messages in transcript order, then all system content in one message, and nothing else |
| AnthropicPlacement.RenderingConserves | crates/chudbot-anthropic/src/llm.rs:678-709 | rendering keeps every content block exactly once; without native support in transcript order |
| AnthropicPlacement.AssistantsInOrder | crates/chudbot-anthropic/src/llm.rs:678-709 | the assistant messages are the non-empty assistant turns, in order |
| AnthropicPlacement.NothingCrosses | crates/chudbot-anthropic/src/llm.rs:678-709 | before the message of an assistant turn stands exactly the non-hoisted content that stood before the turn |
| AnthropicPlacement.NoTextIsLost | crates/chudbot-anthropic/src/llm.rs:661-709 | without replayed continuations, hoisted text and messages hold every non-empty text exactly once, in order on non-native models |
| AnthropicToolTurns.RenderedCallsAnswered | crates/chudbot-anthropic/src/llm.rs:661-816 | when each assistant turn has its calls answered by the next turn, each rendered assistant message with tool_use blocks is directly followed by the user message with exactly those tool_results, in order, on native models too |
| AnthropicToolTurns.StoredCallIds | crates/chudbot-anthropic/src/llm.rs:924-1011 | replayed Anthropic content names the same calls, in order, as the calls read off it |
| AnthropicToolTurns.RunRendersAnswered | crates/chudbot-api/src/agent.rs:483-838 | the transcript a run ends with renders to a conversation with every tool call answered, if the prepared one was answered and no step left calls behind |
| AnthropicReplay.StepReplays | crates/chudbot-api/src/collector.rs:128-181 | a collected step holds exactly the continuations of its events, in order |
| AnthropicReplay.ConformingStepReplays | crates/chudbot-anthropic/src/llm.rs:470-534 | what a conforming stream without tool results is collected to asks for tools exactly when its kind is ClientTools, and its only continuation names exactly its calls and no results |
| AnthropicAgent.GatheredIsCollected | crates/chudbot-api/src/agent.rs:590-661 | a step the agent gathers is what collecting all events of its unbroken stream gives, whatever silences lay between |
| AnthropicAgent.ConversationAnswered | crates/chudbot-api/src/agent.rs:483-838 | an agent whose backend is the Anthropic step on conforming bodies without tool results, in any cut: the transcript a run ends with renders to a conversation in which every assistant message with tool_use blocks is directly followed by the user message with their tool_results, if the prepared transcript was answered and replays faithfully |
| AgentTools.FirstSpecIsFirst | crates/chudbot-api/src/agent.rs:1366-1379 | the spec kept for a name is that of its first definition |
| AgentTools.ToolSpecs | crates/chudbot-api/src/agent.rs:1366-1379 | the loop builds exactly the first definitions |
| AgentTools.EnabledToolSpecs | crates/chudbot-api/src/agent.rs:1225-1238 | an allowlist narrows the advertised tools and cannot add to them |
| Agent.Config.EnabledIsOffered | crates/chudbot-api/src/agent.rs:520-535 | the names the executor may be asked for are exactly the names of the specs the model is offered |
| AgentTools.PollClientTool | crates/chudbot-api/src/agent.rs:1382-1421 | the executor is asked only for an enabled name and only at the first poll |
| AgentTools.ExecuteClientToolCalls | crates/chudbot-api/src/agent.rs:1281-1359 | under every fair poll schedule the results are the sequential map over the calls, in request order; the executor is reached exactly once per enabled call and never for another |
| AgentTools.OutcomesAnswerCalls | crates/chudbot-api/src/agent.rs:1310-1355 | each result and trace carries its call; failures and disabled tools become error results |
| Agent.ListenToStep | crates/chudbot-api/src/agent.rs:590-661 | listening pushes every event to the collector before it is passed on; the deadline is armed by the first delta; the end is a timeout, an error or the collected step |
| Agent.AppendStepTrace | crates/chudbot-api/src/agent.rs:1099-1112 | the trace keeps its front; behind it stand one entry per server tool, in order, and then one per grounding record, in order, and nothing else |
| Agent.AppendAssistantStep | crates/chudbot-api/src/agent.rs:1427-1436 | the turns are unchanged exactly when the step has no blocks; otherwise one assistant turn is added with the step's blocks in order |
| AgentReports.StepParts | crates/chudbot-api/src/agent.rs:1099-1112 | read back by kind, the trace entries of a step are exactly its server tools, its grounding records and its tool outcomes, each in order |
| AgentReports.StepOrder | crates/chudbot-api/src/agent.rs:745-812 | in the trace of a step server tools stand before grounding, and grounding before client tools |
| Agent.FoldClientTools | crates/chudbot-api/src/agent.rs:745-812 | started events, assistant turn, concurrent execution, finished events, user turn and traces |
| Agent.FoldStep | crates/chudbot-api/src/agent.rs:666-812 | a collected step changes the whole run state as its contribution says |
| Agent.Run | crates/chudbot-api/src/agent.rs:483-838 | the loop yields the events and error the value-level run defines, for every backend, executor and scheduler |
| AgentRuns.RunLaw | crates/chudbot-api/src/agent.rs:565-838 | every run: RunFinished exactly once and last, or an error and none; turns, trace, usage and step records are the sums over the folded steps; the last model id and the final continuation are those of the last folded step, and absent without one; Completed iff the last is Final, IterationLimit iff max_iterations steps ran with none Final, a timeout only with a timeout set |
| AgentLaws.ToolStepTurns | crates/chudbot-api/src/agent.rs:745-812 | a client-tools step with calls adds an assistant turn directly followed by a user turn whose results carry exactly the call ids, in call order |
| AgentLaws.TranscriptProtocol | crates/chudbot-api/src/agent.rs:497-516 | the final transcript extends the prepared one, and every added assistant turn has its calls answered by the next turn if and only if no step of kind Continue asks for tools |
| AgentWitnesses.PausedCallStaysUnanswered | crates/chudbot-api/src/agent.rs:745-812 | a backend that pauses behind a tool call gives a run without error whose transcript leaves the call unanswered |
| AgentConservation.StepConserves | crates/chudbot-api/src/collector.rs:166-181 | a collected step reports exactly the usage, server tools and grounding of its events, in order |
| AgentConservation.SeenIsHeld | crates/chudbot-api/src/agent.rs:565-838 | what the events of a run without error show, kind by kind and in order, is what its folded steps hold and behind it what the step shows that the deadline cut off |
| AgentReports.SeenIsReported | crates/chudbot-api/src/agent.rs:565-838 | every run without error: usage, server tools, grounding and tool outcomes shown are those reported, in order, followed by what the unfinished step showed; there is such a step only when the deadline ended the run |
| AgentReports.RunConserves | crates/chudbot-api/src/agent.rs:565-838 | every run without error reports exactly the tool outcomes shown, and exactly the usage, server tools and grounding shown if and only if the unfinished step, read off the run's own events, showed none of them |
| AgentReports.AllUsage | crates/chudbot-api/src/agent.rs:279-289 | the loop adds the usage of every traced tool behind the model usage |
| AgentReports.AllUsageIsSeen | crates/chudbot-api/src/agent.rs:279-289 | every run without error: all usage shown is the total and what the unfinished step showed, each record once; so the total is all usage shown if and only if that step showed none |
| AgentWitnesses.DeadlineDropsUsage | crates/chudbot-api/src/agent.rs:590-661 | a run that the deadline ends behind a usage record: no error, the record shown, none reported |
| AgentReports.OrdinalsCount | crates/chudbot-api/src/agent.rs:1079-1092 | ordinals are 0..n-1 if and only if n is at most 2^31; beyond that they saturate |
| AgentWitnesses.OrdinalsSaturate | crates/chudbot-api/src/agent.rs:1079-1092 | a backend that pauses 2^31 + 1 times: the last two steps carry the same ordinal |
| AgentReports.CollectAgentRun | crates/chudbot-api/src/agent.rs:345-378 | the first of: an error, a second finished run (Duplicate); without either the only finished run, or the protocol error for none |
| AgentReports.CollectOwnRun | crates/chudbot-api/src/agent.rs:345-378 | collecting a run of this agent never meets a protocol error |
| AgentPrompt.SortLaw | crates/chudbot-api/src/agent.rs:499-512 | prompt parts are sorted by ordinal, none lost, equal ordinals in configured order |
| AgentPrompt.PreparedIsStable | crates/chudbot-api/src/agent.rs:497-516 | persisted instructions are left alone whatever the prompt is now; preparing twice changes nothing |
| AgentPrompt.PreparedIsHoisted | crates/chudbot-api/src/agent.rs:500-516 | providers hoist exactly the inserted prompt turns, and the system text is the non-empty parts in order |
| EditDistance.NextRow | crates/chudbot-bin/src/diagnostics.rs:2735-2751 | one pass overwrites a row of the cost table by the next, in place |
| EditDistance.Distance | crates/chudbot-bin/src/diagnostics.rs:2735-2751 | the rolling row computes the Levenshtein recurrence |
| EditDistance.ShortestScript | crates/chudbot-bin/src/diagnostics.rs:2735-2751 | the distance is n if and only if some script of single-character edits at any positions has length n and none is shorter |
| EditDistance.Symmetric | crates/chudbot-bin/src/diagnostics.rs:2735-2751 | symmetry |
| EditDistance.Triangle | crates/chudbot-bin/src/diagnostics.rs:2735-2751 | triangle inequality |
| EditDistance.ZeroOnlyForEqual | crates/chudbot-bin/src/diagnostics.rs:2735-2751 | zero exactly for equal words |
| ClosestName.ClosestLaw | crates/chudbot-bin/src/diagnostics.rs:2716-2733 | the suggestion is the first candidate sharing a prefix of three characters, else the first minimal in (distance, bytes) within the bound; none exactly when there is no such candidate or no input |
| ConfigPath.TomlKey | crates/chudbot-bin/src/diagnostics.rs:2786-2807 | the loop escapes or leaves the key bare |
| ConfigPath.ConfigPathText | crates/chudbot-bin/src/diagnostics.rs:2764-2783 | the loop prints the path |
| ConfigPath.PathReadsBack | crates/chudbot-bin/src/diagnostics.rs:2764-2807 | a reader recovers every path of keys and indices from its text, the empty path included |
| ConfigPath.PathInjective | crates/chudbot-bin/src/diagnostics.rs:2764-2807 | two paths print alike if and only if they are equal |
| SourceMap.NewLineIndex | crates/chudbot-bin/src/diagnostics.rs:495-504 | the loop collects the line starts |
| SourceMap.CharCountLaw | crates/chudbot-bin/src/diagnostics.rs:506-515 | counting bytes that start a character counts the characters of valid text |
| SourceMap.CharacterAt | crates/chudbot-bin/src/diagnostics.rs:630-635 | the character that starts at a byte stands in the decoded text behind as many characters as start before the byte |
| SourceMap.LineColLaw | crates/chudbot-bin/src/diagnostics.rs:506-528 | the line is the number of newlines before the offset; on a character boundary line start and column recover the offset; elsewhere the column is 0 |
| SourceMap.RangeLaw | crates/chudbot-bin/src/diagnostics.rs:517-528 | a line holds no newline and stands between newlines or the ends of the text |
| SourceMap.NewWindow | crates/chudbot-bin/src/diagnostics.rs:643-680 | for every line and columns the window is a slice in range, at most 120 characters when clipped, and covers an in-range start; it covers the whole highlight exactly when that fits |
| SourceMap.WindowAligned | crates/chudbot-bin/src/diagnostics.rs:643-680 | the character at the window start column is the original one, and the highlight keeps its width |
| SourceMap.CaretsOverrun | crates/chudbot-bin/src/diagnostics.rs:643-680 | 200 marked characters of a line of 300 get more carets than the window has text |
| SourceMap.StartCharacter | crates/chudbot-bin/src/diagnostics.rs:506-528 | on the line of an offset that starts a character, the column of the offset is the position of that character in the decoded line, and the column reported for it |
| SourceMap.FirstLabelLine | crates/chudbot-bin/src/diagnostics.rs:534-574 | from a byte span to the window of its first line: the character of the window at the caret's start column is the one at the byte offset, and at least one caret stands there |
| FanIn.EveryRunKeeps | crates/chudbot-bin/src/platforms.rs:69-152 | every interleaving keeps the channel bound, the count of senders and the account of every produced item |
| FanIn.FanInSafety | crates/chudbot-bin/src/platforms.rs:103-152 | what was received from a pump is an in-order gap-free prefix of what it produced; with an open receiver and no abort only a terminal Shutdown can be missing |
| FanIn.ShutdownDroppedIff | crates/chudbot-bin/src/platforms.rs:119-142 | an open receiver misses a Shutdown exactly when every slot of the channel is filled or promised |
| FanIn.ClosedIff | crates/chudbot-bin/src/platforms.rs:389-402 | EventsClosed is reported if and only if connecting is over, every pump has ended and the queue is empty |
| FanIn.ClosedMeansComplete | crates/chudbot-bin/src/platforms.rs:389-402 | by then everything was received but for a dropped Shutdown, and a panic was reported last |
| FanIn.PlatformEvents.ShutdownPlatforms | crates/chudbot-bin/src/platforms.rs:330-384 | every client is asked to shut down; handles are taken once, so a repeated call aborts nothing; exactly the pumps not over are aborted, and only if some join missed the common deadline; each abort is an enabled step of the state machine, afterwards those pumps are over, the rest and all messages untouched, and the invariant holds |
| FanIn.ShutdownCloses | crates/chudbot-bin/src/platforms.rs:330-402 | after the aborts no pump is left, so with the queue drained the receiver is told EventsClosed |

## Left out

* JSON text: parsing and printing are a pair of arbitrary functions; the only laws assumed of them are that the text of the empty object parses back to it and that blank text does not parse (`Json.TableCodecLawful` gives codecs that meet them).
* Pricing and token accounting (crates/chudbot-anthropic/src/pricing.rs): rounding of binary floats decides it; usage records are opaque.
* The order in which unmatched server tool requests are reported depends on a hash map; the model takes any listing of its keys.
- Transcript.HoistedPart: media in hoisted turns is dropped by the code, and no law is stated for it.
- AnthropicStep.Step: the request body is a given JSON value or error; its other fields (sampling, tools, cache marks) are not modelled. Time slept is a total and has no place in the log.
- Agent.Run: request fields other than the transcript (sampling limits, server tools, provider options) are passed on unread; clocks are reduced to whether a set deadline passes.
- AnthropicToolTurns.RunRendersAnswered: a stored continuation is replayed as it is, so the law for any backend asks that it names the calls of its turn; AnthropicAgent.ConversationAnswered proves it for the adapter's own steps.
- FanIn.EveryRunKeeps: the fairness of the channel's waiters is not modelled, any waiting sender may get the next slot; failures while connecting are left out.
- ClosestName.ClosestLaw: the sorted order of the candidate set is taken as given.
- SourceMap.NewWindow: the rendering of gutters, carets and labels around the window is left out.
- SourceMap.FirstLabelLine: later lines of a label of several lines are left out. An empty span inside a character is excluded: the source slices the text there and would panic.
* The prompt-cache mark on the last message block (crates/chudbot-anthropic/src/llm.rs:1214) only adds a field behind the rendering modelled here.
* Tool schema text, image resolution, HTTP, TLS, timers, tracing and the Discord client: foreign input and output, present only as outcomes.
* Storage, Vibe, provider registries, configuration schemas, ANSI styling and the React frontend: easy members or no logic.
