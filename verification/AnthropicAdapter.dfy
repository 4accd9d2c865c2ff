/** The stream adapter as it runs: an object whose fields each SSE event updates in place. */
module AnthropicAdapter {
  import opened Prelude
  import opened ModelStep
  import opened AnthropicStream
  import AnthropicServerTools
  import Json

  /** Split the stored content into text, client calls, server tool uses and grounding. */
  method WalkBlocks(env: Env, blocks: seq<Value>)
    returns (text: string, clientUses: seq<ClientToolCall>, serverUses: seq<ServerToolUse>,
             grounding: seq<GroundingMetadata>)
    ensures text == ContentText(blocks) && clientUses == ContentCalls(blocks)
    ensures serverUses == ContentServerTools(env, blocks) && grounding == ContentGrounding(env, blocks)
    ensures env.Lawful() ==> AnthropicServerTools.ReportedOnce(env, blocks, serverUses)
  {
    text, clientUses, serverUses, grounding := "", [], [], [];
    var pending: map<string, Value> := map[];
    for k := 0 to |blocks|
      invariant text == ContentText(blocks[..k]) && clientUses == ContentCalls(blocks[..k])
      invariant ServerTools(pending, serverUses) == ServerToolsIn(env, blocks[..k])
      invariant grounding == ContentGrounding(env, blocks[..k])
    {
      assert Init(blocks[..k + 1]) == blocks[..k];
      var block := blocks[k];
      match block.GetStrOr("type", "") {
        case "text" =>
          if block.GetStr("text").Some? {
            text := text + block.GetStr("text").value;
          }
          var citations := block.Get("citations");
          if citations.Some? && citations.value != Json.Null {
            grounding := grounding + [GroundingMetadata(env.provider, citations.value)];
          }
        case "server_tool_use" =>
          pending := pending[block.GetStrOr("id", "") := block];
        case "web_search_tool_result" =>
          var id := block.GetStrOr("tool_use_id", "");
          if id in pending {
            serverUses := serverUses + [PairedUse(env, pending[id], block)];
            pending := pending - {id};
          } else {
            serverUses := serverUses + [OrphanUse(env, block)];
          }
        case "tool_use" =>
          clientUses := clientUses + [RawCall(block)];
        case _ =>
      }
    }
    assert blocks[..|blocks|] == blocks;
    var order := env.hashOrder(pending);
    ghost var paired := serverUses;
    for k := 0 to |order|
      invariant serverUses == paired + RequestUses(env, pending, order[..k])
    {
      assert Init(order[..k + 1]) == order[..k];
      if order[k] in pending {
        serverUses := serverUses + [RequestUse(env, pending[order[k]])];
      }
    }
    assert order[..|order|] == order;
    if env.Lawful() {
      AnthropicServerTools.ServerToolsReported(env, blocks);
    }
  }

  /** Reasoning items turned into delta events; an item without id is named by its position. */
  method ReasoningItemsToDeltaEvents(items: seq<ReasoningItem>) returns (events: seq<Event>)
    ensures events == AsEvents(ReasoningDeltas(items))
  {
    events := [];
    for k := 0 to |items|
      invariant events == AsEvents(ReasoningDeltas(items[..k]))
    {
      assert Init(items[..k + 1]) == items[..k];
      var item := items[k];
      var itemId := ReasoningItemId(item, k);
      ghost var before := ReasoningDeltas(items[..k]);
      for j := 0 to |item.summary|
        invariant events == AsEvents(before + ItemDeltas(itemId, item.provider, item.summary[..j]))
      {
        assert Init(item.summary[..j + 1]) == item.summary[..j];
        var summary := item.summary[j];
        if summary.text == "" {
          continue;
        }
        events := events + [DeltaEvent(ReasoningDelta(itemId, item.provider, summary.kind, summary.text))];
      }
      assert item.summary[..|item.summary|] == item.summary;
    }
    assert items[..|items|] == items;
  }

  class AnthropicStreamState {
    var modelId: Option<string>
    var stopReason: Option<string>
    var startUsage: Option<Value>
    var latestUsage: Option<Value>
    var blocks: seq<Entry>
    var emittedTextDelta: bool
    var emittedReasoningDelta: bool

    function View(): StreamState
      reads this
    {
      StreamState(modelId, stopReason, startUsage, latestUsage, blocks, emittedTextDelta, emittedReasoningDelta)
    }

    constructor ()
      ensures View() == INITIAL
    {
      modelId, stopReason, startUsage, latestUsage := None, None, None, None;
      blocks, emittedTextDelta, emittedReasoningDelta := [], false, false;
    }

    /** The events behind message_stop. */
    method Terminal(env: Env) returns (events: seq<Event>)
      ensures events == TerminalEvents(env, View())
    {
      var model := if modelId.Some? then modelId.value else env.requestedModel;
      var content := RawContent(blocks);
      var text, calls, serverUses, grounding := WalkBlocks(env, content);
      var kind;
      if calls != [] {
        kind := ClientTools;
      } else if stopReason == Some("pause_turn") || text == "" {
        kind := Continue;
      } else {
        kind := Final;
      }
      var continuation := ContinuationFrom(env, content);
      events := [];
      AsEventsShort();
      if !emittedTextDelta && text != "" {
        events := [DeltaEvent(TextDelta(TERMINAL_TEXT_ID, text))];
      }
      assert events == AsEvents(FallbackText(View(), content));
      if !emittedReasoningDelta && continuation.Some? {
        var reasoning := ReasoningItemsToDeltaEvents(ReasoningItems(env, model, content));
        events := events + reasoning;
      }
      assert events == AsEvents(FallbackText(View(), content)) + AsEvents(FallbackReasoning(env, View(), content));
      var closing := if continuation.Some? then [ContinuationEvent(continuation.value)] else [];
      closing := closing + ServerToolEvents(serverUses);
      closing := closing + GroundingEvents(grounding);
      closing := closing + UsageEvents(env, View());
      closing := closing + [Finished(kind, model)];
      events := events + closing;
    }

    /** One block delta: the block is created when unknown, and updated in place. */
    method BlockDeltaEvent(env: Env, index: nat, part: Part) returns (events: seq<Event>)
      modifies this
      ensures Applied(View(), Ok(Outcome(events, false))) == Apply(env, old(View()), BlockDelta(index, part))
    {
      var found := Lookup(blocks, index);
      var block := if found.Some? then found.value else Block(UNKNOWN_BLOCK, "", false);
      events := [];
      AsEventsShort();
      match part {
        case TextPart(text) =>
          emittedTextDelta := true;
          block := block.(raw := block.raw.AppendStringField("text", text));
          events := [DeltaEvent(TextDelta(TextId(index), text))];
        case InputPart(partial) =>
          block := block.(inputJson := block.inputJson + partial);
          if HasType(block.raw, "tool_use") {
            block := block.(emittedClientDelta := true);
            events := [DeltaEvent(ToolDelta(index, block.raw, partial))];
          }
        case ThinkingPart(thinking) =>
          emittedReasoningDelta := true;
          block := block.(raw := block.raw.AppendStringField("thinking", thinking));
          events := [DeltaEvent(ReasoningDelta(ReasoningId(index), env.provider, Some("thinking"), thinking))];
        case SignaturePart(signature) =>
          block := block.(raw := block.raw.SetField("signature", Json.Str(signature)));
        case OtherPart =>
      }
      blocks := Put(blocks, index, block);
    }

    /** A block stop: store the streamed input, and emit it if no delta did. */
    method FinishBlock(env: Env, index: nat) returns (r: Result<seq<Event>, AnthropicError>)
      modifies this`blocks
      ensures var applied := Apply(env, old(View()), BlockStop(index));
              && View() == applied.state
              && applied.result == match r { case Ok(events) => Ok(Outcome(events, false)) case Err(e) => Err(e) }
    {
      var found := Lookup(blocks, index);
      AsEventsShort();
      if found.None? {
        return Ok([]);
      }
      var block := found.value;
      if !Json.IsBlank(block.inputJson) {
        var input := env.codec.parse(block.inputJson);
        if input.None? {
          return Err(Decode(BadInput(index)));
        }
        block := block.(raw := block.raw.SetField("input", input.value));
      }
      blocks := Put(blocks, index, block);
      if HasType(block.raw, "tool_use") && !block.emittedClientDelta {
        var input := block.raw.Get("input");
        var arguments := env.codec.render(if input.Some? then input.value else Json.Obj(map[]));
        return Ok([DeltaEvent(ToolDelta(index, block.raw, arguments))]);
      }
      return Ok([]);
    }

    /** anthropic_stream_event: one SSE event. */
    method StreamEvent(env: Env, event: TextEvent) returns (r: Result<Outcome, AnthropicError>)
      modifies this
      ensures Applied(View(), r) == Apply(env, old(View()), Classify(env, event))
    {
      r := WireEvent(env, Classify(env, event));
    }

    /** Its cases, by what the event says. */
    method WireEvent(env: Env, wire: Wire) returns (r: Result<Outcome, AnthropicError>)
      modifies this
      ensures Applied(View(), r) == Apply(env, old(View()), wire)
    {
      match wire {
        case BadJson => return Err(Decode(BadEvent));
        case MessageStart(model, usage) =>
          if model.Some? {
            modelId := model;
          }
          if usage.Some? {
            startUsage := usage;
          }
          return Ok(NOTHING);
        case BlockStart(index, raw) =>
          var text := StartText(raw);
          var events := [];
          AsEventsShort();
          if text != "" {
            emittedTextDelta := true;
            events := [DeltaEvent(TextDelta(TextId(index), text))];
          }
          blocks := Put(blocks, index, Block(raw, "", false));
          return Ok(Outcome(events, false));
        case BlockDelta(index, part) =>
          var events := BlockDeltaEvent(env, index, part);
          return Ok(Outcome(events, false));
        case BlockStop(index) =>
          var finished := FinishBlock(env, index);
          if finished.Err? {
            return Err(finished.error);
          }
          return Ok(Outcome(finished.value, false));
        case MessageDelta(reason, usage) =>
          if reason.Some? {
            stopReason := reason;
          }
          if usage.Some? {
            latestUsage := usage;
          }
          return Ok(NOTHING);
        case MessageStop =>
          var events := Terminal(env);
          return Ok(Outcome(events, true));
        case ErrorEvent(value) => return Err(StreamErrorOf(value));
        case HugeIndex(index) => return Err(Decode(IndexTooLarge(index)));
        case Ignored => return Ok(NOTHING);
      }
    }
  }
}
