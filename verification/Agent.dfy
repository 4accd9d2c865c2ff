/** The provider/tool loop of crates/chudbot-api/src/agent.rs. */
module Agent {
  import opened Prelude
  import opened ModelStep
  import opened Transcript
  import opened Collector
  import opened AgentTools
  import Json

  // ---------------------------------------------------------------------------
  // Preparing the transcript
  // ---------------------------------------------------------------------------

  datatype PromptPart = PromptPart(key: string, ordinal: int, text: string)

  /** Behind all parts of no greater ordinal: the stable insertion. */
  function InsertPart(sorted: seq<PromptPart>, part: PromptPart): seq<PromptPart> {
    if sorted == [] || Latest(sorted).ordinal <= part.ordinal then sorted + [part]
    else InsertPart(Init(sorted), part) + [Latest(sorted)]
  }

  function SortParts(parts: seq<PromptPart>): seq<PromptPart> {
    if parts == [] then [] else InsertPart(SortParts(Init(parts)), Latest(parts))
  }

  function PartTurn(id: Option<string>, part: PromptPart): Turn {
    var fields := map["agent_instructions" := Json.Bool(true), "agent_instruction_part" := Json.Bool(true),
                      "agent_instruction_part_key" := Json.Str(part.key),
                      "agent_instruction_part_ordinal" := Json.Int(part.ordinal)];
    var named := match id
                 case Some(i) => fields["id" := Json.Str("chudbot_conversation_" + i + "_system_" + part.key)]
                 case None => fields;
    Turn(System, [Text(part.text)], Json.Obj(named))
  }

  function PartTurns(id: Option<string>, parts: seq<PromptPart>): seq<Turn> {
    if parts == [] then []
    else PartTurns(id, Init(parts)) + if Latest(parts).text == "" then [] else [PartTurn(id, Latest(parts))]
  }

  /** Persisted instructions are kept as they are; otherwise the prompt parts come first. */
  function Prepared(id: Option<string>, parts: seq<PromptPart>, turns: seq<Turn>): seq<Turn> {
    if exists t :: t in turns && IsMarked(t) then turns else PartTurns(id, SortParts(parts)) + turns
  }

  // ---------------------------------------------------------------------------
  // The run's data
  // ---------------------------------------------------------------------------

  /** `definitions` are the tools the executor advertises, `allowed` the agent's allowlist. */
  datatype Config = Config(
    codec: Json.Codec, provider: string, transcriptId: Option<string>, parts: seq<PromptPart>,
    maxIterations: nat, timeoutSeconds: nat, allowed: Option<seq<string>>, definitions: seq<ToolDefinition>)
  {
    /** Names a call may use: advertised and, with an allowlist, on it. */
    function Enabled(): set<string> {
      set d | d in definitions && (allowed.None? || d.name in allowed.value) :: d.name
    }

    /** They are the names of the specs the model is offered. */
    lemma EnabledIsOffered(offered: map<string, ToolSpec>)
      requires forall name :: (if name in offered then Some(offered[name]) else None) ==
                              if allowed.None? || name in allowed.value then FirstSpec(definitions, name) else None
      ensures offered.Keys == Enabled()
    {
      forall name
        ensures name in offered <==> name in Enabled()
      {
        FirstSpecIsFirst(definitions, name);
        if FirstSpec(definitions, name).Some? {
          var i: nat :| IsFirst(definitions, i, name);
          assert definitions[i] in definitions;
        }
      }
    }
  }

  datatype ToolTrace =
    | ClientTrace(client: ClientToolTrace)
    | ServerTrace(tool: ServerToolUse)
    | GroundingTrace(metadata: GroundingMetadata)

  datatype StepRecord = StepRecord(
    ordinal: int, kind: StepKind, provider: string, model: string, continuation: Option<ProviderContinuation>)

  datatype Answer = Answer(text: string, blocks: seq<ContentBlock>)

  datatype AgentOutcome =
    | Completed(answer: Answer)
    | GenerationTimedOut(seconds: nat)
    | IterationLimit(maxIterations: nat)

  /** What a run accumulates. */
  datatype RunState = RunState(
    turns: seq<Turn>, trace: seq<ToolTrace>, steps: seq<StepRecord>, lastModelId: Option<string>,
    finalContinuation: Option<ProviderContinuation>, usage: seq<UsageRecord>)

  datatype AgentRun = AgentRun(outcome: AgentOutcome, state: RunState)

  datatype RunEvent =
    | RunStarted
    | ModelStepStarted(ordinal: nat)
    | ModelEvent(ordinal: nat, event: Event)
    | ClientToolStarted(call: ClientToolCall)
    | ClientToolFinished(outcome: ToolOutcome)
    | RunFinished(run: AgentRun)

  datatype RunError<E> =
    | ModelFailed(error: E)
    | StepRefused(reducer: ReducerError)
    | RunStreamEnded
    | DuplicateRunFinished

  /** What awaiting the backend's stream can bring: an item, or so long a silence that a set
      deadline passes. The stream ends behind the last signal. */
  datatype Signal<E> = Arrives(item: Result<Event, E>) | Stalls

  /** The backend, the executor and the scheduler of tool futures, each free in every step. */
  datatype World<E> = World(
    stream: (nat, seq<Turn>) -> seq<Signal<E>>,
    answers: nat -> Answers,
    polls: (nat, nat) -> seq<Poll>)
  {
    ghost predicate Fairly() {
      forall i: nat, n: nat :: Fair(polls(i, n), n) && forall p :: p in polls(i, n) ==> p.index < n
    }
  }

  // ---------------------------------------------------------------------------
  // One model step
  // ---------------------------------------------------------------------------

  datatype StreamEnd<E> = TimedOut | Failed(error: RunError<E>) | Gathered(step: Step)

  /** Events pushed so far, and how listening ended if it did. */
  datatype Heard<E> = Heard(events: seq<Event>, end: Option<StreamEnd<E>>)

  /** Generation has started: a delta was seen. */
  predicate Generating(events: seq<Event>) { exists e :: e in events && e.DeltaEvent? }

  function HearOne<E>(timeoutSeconds: nat, events: seq<Event>, signal: Signal<E>): Heard<E> {
    match signal
    case Stalls => Heard(events, if timeoutSeconds > 0 && Generating(events) then Some(TimedOut) else None)
    case Arrives(Err(e)) => Heard(events, Some(Failed(ModelFailed(e))))
    case Arrives(Ok(event)) =>
      match PushError(events, event)
      case Some(e) => Heard(events, Some(Failed(StepRefused(e))))
      case None => Heard(events + [event], None)
  }

  function Hear<E>(timeoutSeconds: nat, signals: seq<Signal<E>>): Heard<E> {
    if signals == [] then Heard([], None)
    else
      var before := Hear(timeoutSeconds, Init(signals));
      if before.end.Some? then before else HearOne(timeoutSeconds, before.events, Latest(signals))
  }

  function EndOf<E>(cfg: Config, heard: Heard<E>): StreamEnd<E> {
    match heard.end
    case Some(end) => end
    case None =>
      match FinishOf(cfg.codec, heard.events)
      case Ok(step) => Gathered(step)
      case Err(e) => Failed(StepRefused(e))
  }

  lemma {:induction false} HearingStops<E>(timeoutSeconds: nat, signals: seq<Signal<E>>, k: nat)
    requires k <= |signals| && Hear(timeoutSeconds, signals[..k]).end.Some?
    ensures Hear(timeoutSeconds, signals) == Hear(timeoutSeconds, signals[..k])
    decreases |signals|
  {
    if k < |signals| {
      assert Init(signals)[..k] == signals[..k];
      HearingStops(timeoutSeconds, Init(signals), k);
    } else {
      assert signals[..k] == signals;
    }
  }

  /** Listen to the backend: the deadline is armed by the first delta. */
  method ListenToStep<E>(cfg: Config, signals: seq<Signal<E>>) returns (events: seq<Event>, end: StreamEnd<E>)
    ensures var heard := Hear(cfg.timeoutSeconds, signals); events == heard.events && end == EndOf(cfg, heard)
  {
    var collector := new ModelStepCollector();
    var deadline := false;
    events := [];
    for k := 0 to |signals|
      invariant collector.Valid() && collector.trace == events
      invariant Hear(cfg.timeoutSeconds, signals[..k]) == Heard(events, None)
      invariant deadline <==> cfg.timeoutSeconds > 0 && Generating(events)
    {
      assert Init(signals[..k + 1]) == signals[..k];
      if Hear(cfg.timeoutSeconds, signals[..k + 1]).end.Some? {
        HearingStops(cfg.timeoutSeconds, signals, k + 1);
      }
      match signals[k] {
        case Stalls =>
          if deadline {
            return events, TimedOut;
          }
        case Arrives(Err(e)) =>
          return events, Failed(ModelFailed(e));
        case Arrives(Ok(event)) =>
          if !deadline && event.DeltaEvent? && cfg.timeoutSeconds > 0 {
            deadline := true;
          }
          var pushed := collector.Push(event);
          if pushed.Err? {
            return events, Failed(StepRefused(pushed.error));
          }
          assert Generating(events + [event]) <==> Generating(events) || event.DeltaEvent?;
          events := events + [event];
      }
    }
    assert signals[..|signals|] == signals;
    var step := collector.Finish(cfg.codec);
    match step {
      case Ok(s) => return events, Gathered(s);
      case Err(e) => return events, Failed(StepRefused(e));
    }
  }

  // ---------------------------------------------------------------------------
  // Folding a step into the run
  // ---------------------------------------------------------------------------

  /** A collected step with the outcomes of its client tool calls. */
  datatype Folded = Folded(step: Step, outcomes: seq<ToolOutcome>)

  function BlockOf(b: OutputBlock): ContentBlock {
    match b
    case TextBlock(text) => Text(text)
    case ToolCallBlock(call) => ToolCall(call)
    case ContinuationBlock(c) => Replay(c)
  }

  function Blocks(bs: seq<OutputBlock>): (blocks: seq<ContentBlock>)
    ensures |blocks| == |bs| && forall i :: 0 <= i < |bs| ==> blocks[i] == BlockOf(bs[i])
  {
    seq(|bs|, i requires 0 <= i < |bs| => BlockOf(bs[i]))
  }

  function MediaBlocks(media: seq<Media>): (blocks: seq<ContentBlock>)
    ensures |blocks| == |media| && forall i :: 0 <= i < |media| ==> blocks[i] == MediaBlock(media[i])
  {
    seq(|media|, i requires 0 <= i < |media| => MediaBlock(media[i]))
  }

  function ResultBlocks(outcomes: seq<ToolOutcome>): seq<ContentBlock> {
    if outcomes == [] then []
    else ResultBlocks(Init(outcomes)) + [ToolAnswer(Latest(outcomes).result)] + MediaBlocks(Latest(outcomes).media)
  }

  function AssistantTurns(output: Output): seq<Turn> {
    if output.Blocks() == [] then [] else [Turn(Assistant, Blocks(output.Blocks()), Json.Null)]
  }

  /** The turns a step adds. */
  function StepTurns(f: Folded): seq<Turn> {
    match f.step.kind
    case Final => [Turn(Assistant, Blocks(f.step.output.AnswerBlocks()), Json.Null)]
    case Continue => AssistantTurns(f.step.output)
    case ClientTools => AssistantTurns(f.step.output) + [Turn(User, ResultBlocks(f.outcomes), Json.Null)]
  }

  function ServerTraces(tools: seq<ServerToolUse>): seq<ToolTrace> {
    seq(|tools|, i requires 0 <= i < |tools| => ServerTrace(tools[i]))
  }

  function GroundingTraces(gs: seq<GroundingMetadata>): seq<ToolTrace> {
    seq(|gs|, i requires 0 <= i < |gs| => GroundingTrace(gs[i]))
  }

  function ClientTraces(outcomes: seq<ToolOutcome>): seq<ToolTrace> {
    if outcomes == [] then [] else ClientTraces(Init(outcomes)) + [ClientTrace(Latest(outcomes).trace)]
  }

  /** The trace records a step adds. */
  function StepTraces(f: Folded): seq<ToolTrace> {
    ServerTraces(f.step.output.ServerToolUses()) + GroundingTraces(f.step.output.Groundings())
    + ClientTraces(f.outcomes)
  }

  const I32_MAX := 0x7FFF_FFFF

  function Ordinal(iteration: nat): int { if iteration <= I32_MAX then iteration else I32_MAX }

  function RecordOf(cfg: Config, iteration: nat, step: Step): StepRecord {
    StepRecord(Ordinal(iteration), step.kind, cfg.provider, step.output.modelId, step.output.Continuation())
  }

  function After(cfg: Config, st: RunState, iteration: nat, f: Folded): RunState {
    RunState(st.turns + StepTurns(f), st.trace + StepTraces(f), st.steps + [RecordOf(cfg, iteration, f.step)],
             Some(f.step.output.modelId), f.step.output.Continuation(), st.usage + f.step.output.usage)
  }

  function FoldedOf<E>(cfg: Config, world: World<E>, iteration: nat, step: Step): Folded {
    Folded(step, if step.kind.ClientTools?
                 then Outcomes(cfg.Enabled(), world.answers(iteration), step.output.ClientToolCalls()) else [])
  }

  /** answer_from_content. */
  function AnswerText(blocks: seq<ContentBlock>): string {
    if blocks == [] then "" else AnswerText(Init(blocks)) + if Latest(blocks).Text? then Latest(blocks).text else ""
  }

  function AnswerOf(output: Output): Answer {
    Answer(AnswerText(Blocks(output.AnswerBlocks())), Blocks(output.AnswerBlocks()))
  }

  function ModelEvents(iteration: nat, events: seq<Event>): seq<RunEvent> {
    seq(|events|, i requires 0 <= i < |events| => ModelEvent(iteration, events[i]))
  }

  function ToolsStarted(calls: seq<ClientToolCall>): seq<RunEvent> {
    seq(|calls|, i requires 0 <= i < |calls| => ClientToolStarted(calls[i]))
  }

  function ToolsFinished(outcomes: seq<ToolOutcome>): seq<RunEvent> {
    if outcomes == [] then [] else ToolsFinished(Init(outcomes)) + [ClientToolFinished(Latest(outcomes))]
  }

  function ToolEvents(f: Folded): seq<RunEvent> {
    if f.step.kind.ClientTools? then ToolsStarted(f.step.output.ClientToolCalls()) + ToolsFinished(f.outcomes) else []
  }

  // ---------------------------------------------------------------------------
  // The run
  // ---------------------------------------------------------------------------

  /** The events a run yields, and the error that ends its stream, if any. */
  datatype Ran<E> = Ran(events: seq<RunEvent>, error: Option<RunError<E>>)

  function Behind<E>(events: seq<RunEvent>, ran: Ran<E>): Ran<E> { Ran(events + ran.events, ran.error) }

  function Ends<E>(run: AgentRun): Ran<E> { Ran([RunFinished(run)], None) }

  function RunFrom<E>(cfg: Config, world: World<E>, n: nat, st: RunState): Ran<E>
    decreases cfg.maxIterations - n
  {
    if n >= cfg.maxIterations then Ends(AgentRun(IterationLimit(cfg.maxIterations), st))
    else
      var heard := Hear(cfg.timeoutSeconds, world.stream(n, st.turns));
      Behind([ModelStepStarted(n)] + ModelEvents(n, heard.events), FoldFrom(cfg, world, n, st, EndOf(cfg, heard)))
  }

  /** What follows the model events of step `n`. */
  function FoldFrom<E>(cfg: Config, world: World<E>, n: nat, st: RunState, end: StreamEnd<E>): Ran<E>
    requires n < cfg.maxIterations
    decreases cfg.maxIterations - n, 0
  {
    match end
    case TimedOut => Ends(AgentRun(GenerationTimedOut(cfg.timeoutSeconds), st))
    case Failed(e) => Ran([], Some(e))
    case Gathered(step) =>
      var f := FoldedOf(cfg, world, n, step);
      var next := After(cfg, st, n, f);
      if step.kind.Final? then Ends(AgentRun(Completed(AnswerOf(step.output)), next))
      else Behind(ToolEvents(f), RunFrom(cfg, world, n + 1, next))
  }

  function InitialState(cfg: Config, turns: seq<Turn>): RunState {
    RunState(Prepared(cfg.transcriptId, cfg.parts, turns), [], [], None, None, [])
  }

  function RunOf<E>(cfg: Config, world: World<E>, turns: seq<Turn>): Ran<E> {
    Behind([RunStarted], RunFrom(cfg, world, 0, InitialState(cfg, turns)))
  }

  /** append_step_trace. */
  method AppendStepTrace(trace: seq<ToolTrace>, output: Output) returns (next: seq<ToolTrace>)
    ensures var tools, gs := output.ServerToolUses(), output.Groundings();
            && trace <= next && |next| == |trace| + |tools| + |gs|
            && (forall i :: 0 <= i < |tools| ==> next[|trace| + i] == ServerTrace(tools[i]))
            && (forall j :: 0 <= j < |gs| ==> next[|trace| + |tools| + j] == GroundingTrace(gs[j]))
  {
    next := trace + ServerTraces(output.ServerToolUses());
    next := next + GroundingTraces(output.Groundings());
  }

  lemma StepTraceIs(trace: seq<ToolTrace>, output: Output, next: seq<ToolTrace>)
    requires var tools, gs := output.ServerToolUses(), output.Groundings();
             && trace <= next && |next| == |trace| + |tools| + |gs|
             && (forall i :: 0 <= i < |tools| ==> next[|trace| + i] == ServerTrace(tools[i]))
             && (forall j :: 0 <= j < |gs| ==> next[|trace| + |tools| + j] == GroundingTrace(gs[j]))
    ensures next == trace + ServerTraces(output.ServerToolUses()) + GroundingTraces(output.Groundings())
  {}

  lemma AssistantStepIs(turns: seq<Turn>, output: Output, next: seq<Turn>)
    requires turns <= next && (next == turns <==> output.Blocks() == [])
    requires next != turns ==>
               && |next| == |turns| + 1 && Latest(next).role == Assistant && Latest(next).metadata == Json.Null
               && |Latest(next).blocks| == |output.Blocks()|
               && forall i :: 0 <= i < |output.Blocks()| ==> Latest(next).blocks[i] == BlockOf(output.Blocks()[i])
    ensures next == turns + AssistantTurns(output)
  {
    if next != turns {
      assert Latest(next).blocks == Blocks(output.Blocks());
      assert next == turns + [Latest(next)];
    }
  }

  /** append_assistant_step. */
  method AppendAssistantStep(turns: seq<Turn>, output: Output) returns (next: seq<Turn>)
    ensures turns <= next && (next == turns <==> output.Blocks() == [])
    ensures next != turns ==>
              && |next| == |turns| + 1 && Latest(next).role == Assistant && Latest(next).metadata == Json.Null
              && |Latest(next).blocks| == |output.Blocks()|
              && forall i :: 0 <= i < |output.Blocks()| ==> Latest(next).blocks[i] == BlockOf(output.Blocks()[i])
  {
    next := turns;
    var blocks := Blocks(output.Blocks());
    if blocks != [] {
      next := next + [Turn(Assistant, blocks, Json.Null)];
    }
  }

  /** The results of a step's tools: their events, the blocks of the next user turn, traces. */
  method AppendToolResults(outcomes: seq<ToolOutcome>, trace: seq<ToolTrace>)
    returns (events: seq<RunEvent>, blocks: seq<ContentBlock>, next: seq<ToolTrace>)
    ensures events == ToolsFinished(outcomes) && blocks == ResultBlocks(outcomes)
            && next == trace + ClientTraces(outcomes)
  {
    events, blocks, next := [], [], trace;
    for k := 0 to |outcomes|
      invariant events == ToolsFinished(outcomes[..k]) && blocks == ResultBlocks(outcomes[..k])
      invariant next == trace + ClientTraces(outcomes[..k])
    {
      assert Init(outcomes[..k + 1]) == outcomes[..k];
      events := events + [ClientToolFinished(outcomes[k])];
      blocks := blocks + [ToolAnswer(outcomes[k].result)];
      blocks := blocks + MediaBlocks(outcomes[k].media);
      next := next + [ClientTrace(outcomes[k].trace)];
    }
    assert outcomes[..|outcomes|] == outcomes;
  }

  /** The client tools of a step: their events, the two turns, traces. */
  method FoldClientTools<E>(cfg: Config, enabled: set<string>, world: World<E>, iteration: nat, output: Output,
                            turns: seq<Turn>, trace: seq<ToolTrace>)
    returns (turns': seq<Turn>, trace': seq<ToolTrace>, events: seq<RunEvent>)
    requires world.Fairly() && enabled == cfg.Enabled()
    ensures var outcomes := Outcomes(cfg.Enabled(), world.answers(iteration), output.ClientToolCalls());
            && turns' == turns + (AssistantTurns(output) + [Turn(User, ResultBlocks(outcomes), Json.Null)])
            && trace' == trace + ClientTraces(outcomes)
            && events == ToolsStarted(output.ClientToolCalls()) + ToolsFinished(outcomes)
  {
    var calls := output.ClientToolCalls();
    events := ToolsStarted(calls);
    turns' := AppendAssistantStep(turns, output);
    AssistantStepIs(turns, output, turns');
    var outcomes, reached :=
      ExecuteClientToolCalls(enabled, world.answers(iteration), calls, world.polls(iteration, |calls|));
    var finished, blocks;
    finished, blocks, trace' := AppendToolResults(outcomes, trace);
    events := events + finished;
    turns' := turns' + [Turn(User, blocks, Json.Null)];
    Assoc(turns, AssistantTurns(output), [Turn(User, blocks, Json.Null)]);
  }

  /** Fold one collected step into the run state, executing its client tools. */
  method FoldStep<E>(cfg: Config, enabled: set<string>, world: World<E>, iteration: nat, st: RunState, step: Step)
    returns (next: RunState, events: seq<RunEvent>)
    requires world.Fairly() && enabled == cfg.Enabled()
    ensures next == After(cfg, st, iteration, FoldedOf(cfg, world, iteration, step))
    ensures events == ToolEvents(FoldedOf(cfg, world, iteration, step))
  {
    var output := step.output;
    events := [];
    var turns := st.turns;
    var trace := AppendStepTrace(st.trace, output);
    StepTraceIs(st.trace, output, trace);
    match step.kind {
      case Final =>
        turns := turns + [Turn(Assistant, Blocks(output.AnswerBlocks()), Json.Null)];
      case Continue =>
        turns := AppendAssistantStep(turns, output);
        AssistantStepIs(st.turns, output, turns);
      case ClientTools =>
        turns, trace, events := FoldClientTools(cfg, enabled, world, iteration, output, turns, trace);
    }
    TraceSum(st.trace, output, FoldedOf(cfg, world, iteration, step).outcomes);
    next := RunState(turns, trace, st.steps + [RecordOf(cfg, iteration, step)],
                     Some(output.modelId), output.Continuation(),
                     st.usage + output.usage);
  }

  lemma TraceSum(trace: seq<ToolTrace>, output: Output, outcomes: seq<ToolOutcome>)
    ensures var tools, gs := ServerTraces(output.ServerToolUses()), GroundingTraces(output.Groundings());
            && trace + tools + gs + ClientTraces(outcomes) == trace + (tools + gs + ClientTraces(outcomes))
            && trace + tools + gs + [] == trace + tools + gs
  {
    Regroup(trace, ServerTraces(output.ServerToolUses()), GroundingTraces(output.Groundings()), ClientTraces(outcomes));
  }

  lemma Regroup<T>(a: seq<T>, b: seq<T>, c: seq<T>, d: seq<T>)
    ensures a + b + c + d == a + (b + c + d)
  {}

  method Run<E>(cfg: Config, world: World<E>, turns: seq<Turn>)
    returns (events: seq<RunEvent>, error: Option<RunError<E>>)
    requires world.Fairly()
    ensures Ran(events, error) == RunOf(cfg, world, turns)
  {
    var st := InitialState(cfg, turns);
    events := [RunStarted];
    var offered := EnabledToolSpecs(cfg.allowed, cfg.definitions);
    cfg.EnabledIsOffered(offered);
    for n := 0 to cfg.maxIterations
      invariant RunOf(cfg, world, turns) == Behind(events, RunFrom(cfg, world, n, st))
    {
      ghost var before := events;
      events := events + [ModelStepStarted(n)];
      var heard, end := ListenToStep(cfg, world.stream(n, st.turns));
      events := events + ModelEvents(n, heard);
      Assoc(before, [ModelStepStarted(n)], ModelEvents(n, heard));
      Assoc(before, [ModelStepStarted(n)] + ModelEvents(n, heard), FoldFrom(cfg, world, n, st, end).events);
      match end {
        case TimedOut =>
          return events + [RunFinished(AgentRun(GenerationTimedOut(cfg.timeoutSeconds), st))], None;
        case Failed(e) =>
          assert events + [] == events;
          return events, Some(e);
        case Gathered(step) =>
          var next, more := FoldStep(cfg, offered.Keys, world, n, st, step);
          if step.kind.Final? {
            return events + [RunFinished(AgentRun(Completed(AnswerOf(step.output)), next))], None;
          }
          Assoc(events, more, RunFrom(cfg, world, n + 1, next).events);
          st, events := next, events + more;
      }
    }
    return events + [RunFinished(AgentRun(IterationLimit(cfg.maxIterations), st))], None;
  }
}
