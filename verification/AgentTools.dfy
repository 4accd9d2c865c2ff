/** Client tools of an agent run: crates/chudbot-api/src/agent.rs, tool_specs to call_client_tool. */
module AgentTools {
  import opened Prelude
  import opened ModelStep
  import opened Transcript
  import Json

  datatype ToolSpec = ToolSpec(description: string, inputSchema: Json.Value)

  datatype ToolDefinition = ToolDefinition(name: string, spec: ToolSpec)

  // ---------------------------------------------------------------------------
  // Which tools are enabled
  // ---------------------------------------------------------------------------

  function FirstSpec(definitions: seq<ToolDefinition>, name: string): Option<ToolSpec> {
    if definitions == [] then None
    else if FirstSpec(Init(definitions), name).Some? then FirstSpec(Init(definitions), name)
    else if Latest(definitions).name == name then Some(Latest(definitions).spec)
    else None
  }

  predicate IsFirst(definitions: seq<ToolDefinition>, i: nat, name: string) {
    i < |definitions| && definitions[i].name == name && forall j :: 0 <= j < i ==> definitions[j].name != name
  }

  /** The spec of the first definition with the name; none only when no definition has it. */
  lemma {:induction false} FirstSpecIsFirst(definitions: seq<ToolDefinition>, name: string)
    ensures match FirstSpec(definitions, name) {
              case Some(spec) => exists i: nat :: IsFirst(definitions, i, name) && definitions[i].spec == spec
              case None => forall i :: 0 <= i < |definitions| ==> definitions[i].name != name
            }
  {
    if definitions != [] {
      FirstSpecIsFirst(Init(definitions), name);
      if FirstSpec(Init(definitions), name).Some? {
        var i: nat :| IsFirst(Init(definitions), i, name)
                      && Init(definitions)[i].spec == FirstSpec(Init(definitions), name).value;
        assert IsFirst(definitions, i, name);
      } else if Latest(definitions).name == name {
        assert forall j :: 0 <= j < |definitions| - 1 ==> definitions[j] == Init(definitions)[j];
        assert IsFirst(definitions, |definitions| - 1, name);
      }
    }
  }

  /** The first definition for a name wins. */
  method ToolSpecs(definitions: seq<ToolDefinition>) returns (specs: map<string, ToolSpec>)
    ensures forall name :: (if name in specs then Some(specs[name]) else None) == FirstSpec(definitions, name)
  {
    specs := map[];
    for k := 0 to |definitions|
      invariant forall name :: (if name in specs then Some(specs[name]) else None) == FirstSpec(definitions[..k], name)
    {
      assert Init(definitions[..k + 1]) == definitions[..k];
      if definitions[k].name in specs {
        continue;
      }
      specs := specs[definitions[k].name := definitions[k].spec];
    }
    assert definitions[..|definitions|] == definitions;
  }

  /** An allowlist narrows what the executor advertises and cannot add to it. */
  method EnabledToolSpecs(allowed: Option<seq<string>>, definitions: seq<ToolDefinition>)
    returns (enabled: map<string, ToolSpec>)
    ensures forall name :: (if name in enabled then Some(enabled[name]) else None) ==
                           if allowed.None? || name in allowed.value then FirstSpec(definitions, name) else None
  {
    var specs := ToolSpecs(definitions);
    if allowed.None? {
      return specs;
    }
    enabled := map name | name in specs && name in allowed.value :: specs[name];
  }

  // ---------------------------------------------------------------------------
  // What one call amounts to
  // ---------------------------------------------------------------------------

  datatype ToolOutput = ToolOutput(
    result: ToolContent, media: seq<Media>, isError: bool, traceResponse: Json.Value, usage: seq<UsageRecord>)

  datatype ToolError = UnknownTool(name: string) | ExecutionFailed(message: string)

  function ErrorText(e: ToolError): string {
    match e
    case UnknownTool(name) => "unknown tool `" + name + "`"
    case ExecutionFailed(message) => "execution failed: " + message
  }

  datatype ClientToolTrace = ClientToolTrace(
    call: ClientToolCall, result: ToolResult, traceResponse: Json.Value, usage: seq<UsageRecord>)

  datatype ToolOutcome = ToolOutcome(result: ToolResult, trace: ClientToolTrace, media: seq<Media>)

  /** A failed call becomes an error result the model sees. */
  function OutputOrError(call: ClientToolCall, answer: Result<ToolOutput, ToolError>): ToolOutput {
    match answer
    case Ok(output) => output
    case Err(e) =>
      ToolOutput(TextContent("tool `" + call.name + "` failed: " + ErrorText(e)), [], true,
                 Json.Obj(map["error" := Json.Str(ErrorText(e))]), [])
  }

  function OutcomeFor(call: ClientToolCall, answer: Result<ToolOutput, ToolError>): ToolOutcome {
    var output := OutputOrError(call, answer);
    var result := ToolResult(call.id, output.result, output.isError);
    ToolOutcome(result, ClientToolTrace(call, result, output.traceResponse, output.usage), output.media)
  }

  /** What executing the k-th call of a step gives, should the executor be asked. */
  type Answers = nat -> Result<ToolOutput, ToolError>

  function AnswerTo(enabled: set<string>, answers: Answers, calls: seq<ClientToolCall>, k: nat):
    Result<ToolOutput, ToolError>
    requires k < |calls|
  {
    if calls[k].name in enabled then answers(k) else Err(UnknownTool(calls[k].name))
  }

  /** The sequential reading: one outcome per call, in call order. */
  function Outcomes(enabled: set<string>, answers: Answers, calls: seq<ClientToolCall>): (outcomes: seq<ToolOutcome>)
    ensures |outcomes| == |calls|
    ensures forall k :: 0 <= k < |calls| ==> outcomes[k] == OutcomeFor(calls[k], AnswerTo(enabled, answers, calls, k))
  {
    seq(|calls|, k requires 0 <= k < |calls| => OutcomeFor(calls[k], AnswerTo(enabled, answers, calls, k)))
  }

  // ---------------------------------------------------------------------------
  // The concurrent execution
  // ---------------------------------------------------------------------------

  /** A future not polled yet, waiting for the executor, or completed. */
  datatype Future = Fresh | Running | Done(answer: Result<ToolOutput, ToolError>)

  /** The scheduler polls future `index`; `ready` says whether the executor has answered. */
  datatype Poll = Poll(index: nat, ready: bool)

  /** Every future is polled at some time when the executor has answered. */
  ghost predicate Fair(polls: seq<Poll>, n: nat) {
    forall k :: 0 <= k < n ==> Poll(k, true) in polls
  }

  /** One poll of one future: the executor is asked the first time, if the tool is enabled. */
  method PollClientTool(enabled: set<string>, answers: Answers, calls: seq<ClientToolCall>, poll: Poll, future: Future)
    returns (next: Future, asked: bool)
    requires poll.index < |calls|
    requires future.Running? ==> calls[poll.index].name in enabled
    requires future.Done? ==> future.answer == AnswerTo(enabled, answers, calls, poll.index)
    ensures next.Running? ==> calls[poll.index].name in enabled
    ensures next.Done? ==> next.answer == AnswerTo(enabled, answers, calls, poll.index)
    ensures asked <==> future.Fresh? && calls[poll.index].name in enabled
    ensures !next.Fresh? && (poll.ready || future.Done? ==> next.Done?)
  {
    next, asked := future, false;
    if future.Done? {
      return;
    }
    var call := calls[poll.index];
    if future.Fresh? {
      if call.name !in enabled {
        return Done(Err(UnknownTool(call.name))), false;
      }
      asked := true;
    }
    next := if poll.ready then Done(answers(poll.index)) else Running;
  }

  /** The futures stand where the polls so far have put them. */
  ghost predicate Coherent(enabled: set<string>, answers: Answers, calls: seq<ClientToolCall>, futures: seq<Future>,
                           reached: seq<nat>) {
    && |futures| == |calls|
    && (forall k :: 0 <= k < |calls| ==>
          && (futures[k].Running? ==> calls[k].name in enabled)
          && (futures[k].Done? ==> futures[k].answer == AnswerTo(enabled, answers, calls, k)))
    && (forall i, j :: 0 <= i < j < |reached| ==> reached[i] != reached[j])
    && (forall k: nat :: k in reached <==> k < |calls| && !futures[k].Fresh? && calls[k].name in enabled)
  }

  lemma PollKeepsCoherent(enabled: set<string>, answers: Answers, calls: seq<ClientToolCall>, futures: seq<Future>,
                          reached: seq<nat>, k: nat, next: Future, asked: bool)
    requires Coherent(enabled, answers, calls, futures, reached) && k < |calls|
    requires !next.Fresh? && (next.Running? ==> calls[k].name in enabled)
    requires next.Done? ==> next.answer == AnswerTo(enabled, answers, calls, k)
    requires asked <==> futures[k].Fresh? && calls[k].name in enabled
    ensures Coherent(enabled, answers, calls, futures[k := next], if asked then reached + [k] else reached)
  {}

  /** Deliver the outcomes of completed futures, as far as no earlier one is missing. */
  method Deliver(calls: seq<ClientToolCall>, futures: seq<Future>, completed: seq<ToolOutcome>,
                 ghost all: seq<ToolOutcome>)
    returns (more: seq<ToolOutcome>)
    requires |futures| == |calls| == |all| && completed <= all
    requires forall k :: 0 <= k < |calls| && futures[k].Done? ==> all[k] == OutcomeFor(calls[k], futures[k].answer)
    ensures completed <= more <= all
    ensures |more| < |calls| ==> !futures[|more|].Done?
  {
    more := completed;
    while |more| < |calls| && futures[|more|].Done?
      invariant completed <= more <= all
      decreases |calls| - |more|
    {
      more := more + [OutcomeFor(calls[|more|], futures[|more|].answer)];
    }
  }

  /** Futures are polled in any order; outcomes are delivered in call order. `reached` lists the
      calls handed to the executor, as it happens. */
  method ExecuteClientToolCalls(enabled: set<string>, answers: Answers, calls: seq<ClientToolCall>, polls: seq<Poll>)
    returns (completed: seq<ToolOutcome>, reached: seq<nat>)
    requires Fair(polls, |calls|) && forall p :: p in polls ==> p.index < |calls|
    ensures completed == Outcomes(enabled, answers, calls)
    ensures forall i, j :: 0 <= i < j < |reached| ==> reached[i] != reached[j]
    ensures forall k: nat :: k in reached <==> k < |calls| && calls[k].name in enabled
  {
    ghost var all := Outcomes(enabled, answers, calls);
    var futures: seq<Future> := seq(|calls|, k => Fresh);
    completed, reached := [], [];
    for t := 0 to |polls|
      invariant Coherent(enabled, answers, calls, futures, reached)
      invariant completed <= all
      invariant |completed| < |calls| ==> !futures[|completed|].Done?
      invariant forall s :: 0 <= s < t && polls[s].ready ==> futures[polls[s].index].Done?
    {
      var poll := polls[t];
      assert poll in polls;
      var next, asked := PollClientTool(enabled, answers, calls, poll, futures[poll.index]);
      PollKeepsCoherent(enabled, answers, calls, futures, reached, poll.index, next, asked);
      reached := if asked then reached + [poll.index] else reached;
      futures := futures[poll.index := next];
      completed := Deliver(calls, futures, completed, all);
    }
    forall k | 0 <= k < |calls|
      ensures futures[k].Done?
    {
      var s :| 0 <= s < |polls| && polls[s] == Poll(k, true);
    }
  }

  /** Results carry exactly the ids of the calls, in order; a disabled tool gets an error result. */
  lemma OutcomesAnswerCalls(enabled: set<string>, answers: Answers, calls: seq<ClientToolCall>, k: nat)
    requires k < |calls|
    ensures var outcome := Outcomes(enabled, answers, calls)[k];
            && outcome.result.toolUseId == calls[k].id
            && outcome.trace.call == calls[k] && outcome.trace.result == outcome.result
            && (calls[k].name !in enabled || answers(k).Err? ==> outcome.result.isError && outcome.media == [])
  {
    assert Outcomes(enabled, answers, calls)[k] == OutcomeFor(calls[k], AnswerTo(enabled, answers, calls, k));
  }
}
