/** From the bytes of a conforming Messages stream to the collected model step, and two
    streams that show which conditions are needed. */
module AnthropicPipeline {
  import opened Prelude
  import opened Utf8
  import opened ModelStep
  import opened Sse
  import opened Collector
  import opened AnthropicStream
  import opened AnthropicRun
  import opened AnthropicConformance
  import opened AnthropicWires
  import opened AnthropicClash
  import opened AnthropicAttempt
  import opened AnthropicChunking
  import Decimal
  import Json

  // ---------------------------------------------------------------------------
  // Feeding a conforming stream
  // ---------------------------------------------------------------------------

  lemma OpenIsApply(env: Env, st: StreamState, phase: Phase, w: Wire)
    requires PhaseStep(phase, w).Some?
    ensures Apply(env, st, w) == ApplyOpen(env, st, w)
    ensures ApplyOpen(env, st, w).result.Ok? ==> !ApplyOpen(env, st, w).result.value.finished
  {}

  /** A run of the protocol is what feeding its events one by one gives. */
  lemma {:induction false} RunIsFeed(env: Env, wires: seq<Wire>)
    requires PhaseAfter(wires).Some? && Run(env, wires).Ok?
    ensures Feed(env, INITIAL, wires) == Fed(Run(env, wires).value.state, Run(env, wires).value.events, Going)
    decreases |wires|
  {
    if wires != [] {
      var before, last := Init(wires), Latest(wires);
      RunIsFeed(env, before);
      assert wires == before + [last];
      FeedAppend(env, INITIAL, before, [last]);
      OpenIsApply(env, Run(env, before).value.state, PhaseAfter(before).value, last);
      FeedOne(env, Run(env, before).value.state, last);
    }
  }

  lemma FeedStop(env: Env, st: StreamState)
    ensures Feed(env, st, [MessageStop]) == Fed(st, TerminalEvents(env, st), Done)
  {
    FeedOne(env, st, MessageStop);
  }

  /** With message_stop behind it, feeding is done and has emitted the full trace; whatever
      follows is not looked at. */
  lemma ConformingFeed(env: Env, wires: seq<Wire>, rest: seq<Wire>)
    requires PhaseAfter(wires).Some? && Run(env, wires).Ok?
    ensures var ran := Run(env, wires).value;
            Feed(env, INITIAL, wires + [MessageStop] + rest) == Fed(ran.state, FullTrace(env, ran), Done)
  {
    RunIsFeed(env, wires);
    FeedStop(env, Run(env, wires).value.state);
    FeedAppend(env, INITIAL, wires, [MessageStop]);
    FeedAppend(env, INITIAL, wires + [MessageStop], rest);
  }

  // ---------------------------------------------------------------------------
  // From bytes to the step
  // ---------------------------------------------------------------------------

  /** The unterminated end of a body reads as message_stop. */
  predicate StopsUnterminated(src: Source, tail: seq<Byte>) {
    match TrailingEvent(tail)
    case Ok(Some(event)) => src.WireOf(event).MessageStop?
    case _ => false
  }

  /** The adapter gets through a conforming stream. */
  ghost predicate Conforms(env: Env, wires: seq<Wire>) {
    PhaseAfter(wires).Some? && PhaseAfter(wires).value.Between? && Run(env, wires).Ok?
  }

  /** Where message_stop stands behind them: in a closed segment with anything behind it, or in
      the unterminated end. */
  ghost predicate StopsBehind(src: Source, d: Decoded, tail: seq<Byte>, wires: seq<Wire>) {
    || (exists rest :: src.Wires(d.events) == wires + [MessageStop] + rest)
    || (src.Wires(d.events) == wires && StopsUnterminated(src, tail))
  }

  /** The body decodes to a conforming stream that the adapter gets through, closed by
      message_stop. */
  ghost predicate Carries(src: Source, body: seq<Byte>, wires: seq<Wire>) {
    var d := DecodeSegments(SplitEvents(body).segments);
    d.error.None? && StopsBehind(src, d, SplitEvents(body).rest, wires) && Conforms(src.env, wires)
  }

  /** Every cut makes the attempt that the whole body does. */
  lemma CutIsWhole(src: Source, cut: seq<seq<Byte>>)
    requires DecodeSegments(SplitEvents(Flatten(cut)).segments).error.None?
    ensures Attempt(src, OkChunks(cut)) == WholeFrom(src, INITIAL, Flatten(cut))
  {
    assert SplitEvents([]).segments == [] && [] + Flatten(cut) == Flatten(cut);
    AttemptIsWhole(src, [], INITIAL, cut);
  }

  /** message_stop in the unterminated end of the body. */
  lemma UnterminatedStop(src: Source, st: StreamState, tail: seq<Byte>)
    requires StopsUnterminated(src, tail)
    ensures AttemptFrom(src, tail, st, []) == Attempted(TerminalEvents(src.env, st), Completed)
  {
    FeedStop(src.env, st);
  }

  /** In every cut, the attempt completes and yields the full trace. */
  lemma ConformingAttempt(src: Source, cut: seq<seq<Byte>>, wires: seq<Wire>)
    requires Carries(src, Flatten(cut), wires)
    ensures Attempt(src, OkChunks(cut)) == Attempted(FullTrace(src.env, Run(src.env, wires).value), Completed)
  {
    CutIsWhole(src, cut);
    var split := SplitEvents(Flatten(cut));
    WholeConforms(src, DecodeSegments(split.segments), split.rest, wires);
  }

  lemma WholeConforms(src: Source, d: Decoded, tail: seq<Byte>, wires: seq<Wire>)
    requires d.error.None? && StopsBehind(src, d, tail, wires) && Conforms(src.env, wires)
    ensures AfterDecoding(src, INITIAL, d, tail) == Attempted(FullTrace(src.env, Run(src.env, wires).value), Completed)
  {
    if src.Wires(d.events) == wires && StopsUnterminated(src, tail) {
      RunIsFeed(src.env, wires);
      OpenStop(src, d, tail, Run(src.env, wires).value);
    } else {
      var rest :| src.Wires(d.events) == wires + [MessageStop] + rest;
      ConformingFeed(src.env, wires, rest);
      ClosedStop(src, d, tail, Run(src.env, wires).value);
    }
  }

  lemma ClosedStop(src: Source, d: Decoded, tail: seq<Byte>, ran: Ran)
    requires Feed(src.env, INITIAL, src.Wires(d.events)) == Fed(ran.state, FullTrace(src.env, ran), Done)
    ensures AfterDecoding(src, INITIAL, d, tail) == Attempted(FullTrace(src.env, ran), Completed)
  {}

  lemma OpenStop(src: Source, d: Decoded, tail: seq<Byte>, ran: Ran)
    requires d.error.None? && StopsUnterminated(src, tail)
    requires Feed(src.env, INITIAL, src.Wires(d.events)) == Fed(ran.state, ran.events, Going)
    ensures AfterDecoding(src, INITIAL, d, tail) == Attempted(FullTrace(src.env, ran), Completed)
  {
    UnterminatedStop(src, ran.state, tail);
  }

  /** What the agent gets: `events` as the stream items that the collector consumes. */
  function Delivered(events: seq<Event>): (items: seq<Result<Event, AnthropicError>>)
    ensures |items| == |events| && forall i :: 0 <= i < |items| ==> items[i] == Ok(events[i])
  {
    if events == [] then [] else Delivered(Init(events)) + [Ok(Latest(events))]
  }

  /** One more delivered event. */
  lemma OutcomeSnoc(items: seq<Result<Event, AnthropicError>>, e: Event)
    ensures OkValues(items + [Ok(e)]) == OkValues(items) + [e]
    ensures FirstFailure(items + [Ok(e)]) ==
            if FirstFailure(items).Some? then FirstFailure(items)
            else match PushError(OkValues(items), e) case Some(error) => Some(ReducerFailed(error)) case None => None
  {
    assert Init(items + [Ok(e)]) == items && Latest(items + [Ok(e)]) == Ok(e);
  }

  lemma ErrorSnoc(events: seq<Event>, e: Event)
    ensures FirstError(events + [e]) == if FirstError(events).Some? then FirstError(events) else PushError(events, e)
  {
    assert Init(events + [e]) == events;
  }

  function AsFailure(error: Option<ReducerError>): Option<CollectionError<AnthropicError>> {
    match error case Some(e) => Some(ReducerFailed(e)) case None => None
  }

  lemma {:induction false} DeliveredOutcome(events: seq<Event>)
    ensures OkValues(Delivered(events)) == events
    ensures FirstFailure(Delivered(events)) == AsFailure(FirstError(events))
    decreases |events|
  {
    if events != [] {
      DeliveredOutcome(Init(events));
      OutcomeSnoc(Delivered(Init(events)), Latest(events));
      assert events == Init(events) + [Latest(events)];
    }
  }

  /** Collecting delivered events is collecting the trace. */
  lemma CollectDelivered(codec: Json.Codec, events: seq<Event>)
    ensures CollectStream(codec, Delivered(events)) ==
            match Collect(codec, events) case Ok(step) => Ok(step) case Err(e) => Err(ReducerFailed(e))
  {
    DeliveredOutcome(events);
  }

  /** The model step that reaches the agent, for every cut of a conforming body, in terms of
      what the server sent: the attempt completes; collection succeeds exactly when no names
      collide; answer text and calls are those sent, and the continuation holds the blocks. */
  lemma BodyBecomesStep(src: Source, cut: seq<seq<Byte>>, wires: seq<Wire>)
    requires src.env.Lawful() && Carries(src, Flatten(cut), wires)
    ensures var calls := CallsSent(src.env, wires, Started(wires));
            var content := RawContent(Run(src.env, wires).value.state.blocks);
            var out := Attempt(src, OkChunks(cut));
            var step := CollectStream(src.env.codec, Delivered(out.events));
            && out.end == Completed
            && (step.Ok? <==> !NamesCollide(wires))
            && (step.Ok? ==>
                && step.value.output.AnswerText() == WireText(wires)
                && step.value.output.ClientToolCalls() == calls
                && step.value.output.Continuation() == ContinuationFrom(src.env, content)
                && (step.value.kind == ClientTools <==> calls != []))
  {
    ConformingAttempt(src, cut, wires);
    CollectDelivered(src.env.codec, FullTrace(src.env, Run(src.env, wires).value));
    ConformingStreamCollects(src.env, wires);
    ClashIff(src.env, wires);
    CallsAreSent(src.env, wires);
  }

  // ---------------------------------------------------------------------------
  // Which conditions are needed
  // ---------------------------------------------------------------------------

  lemma {:induction false} PutTwice(es: seq<Entry>, index: nat, block: Block)
    ensures Put(Put(es, index, block), index, block) == Put(es, index, block)
  {
    if es != [] && es[0].index < index {
      PutTwice(es[1..], index, block);
    }
  }

  /** Storing the streamed input a second time changes nothing. */
  lemma StopRawTwice(env: Env, block: Block)
    requires StopRaw(env, block).Some?
    ensures var raw := StopRaw(env, block).value;
            && StopRaw(env, block.(raw := raw)) == Some(raw)
            && (HasType(raw, "tool_use") <==> HasType(block.raw, "tool_use"))
  {
    StopShape(env, block);
    if !Json.IsBlank(block.inputJson) {
      SetTwice(block.raw, "input", env.codec.parse(block.inputJson).value);
    }
  }

  lemma SetTwice(raw: Value, key: string, next: Value)
    ensures raw.SetField(key, next).SetField(key, next) == raw.SetField(key, next)
  {
    if raw.Obj? {
      assert raw.fields[key := next][key := next] == raw.fields[key := next];
    }
  }

  /** A second stop of a stored block succeeds when the first did, leaves the state as it is and
      emits the same once more; and that is something exactly for a tool block of which no
      arguments were streamed, because the fallback emission is not recorded. */
  lemma RepeatedStopEmitsAgain(env: Env, st: StreamState, index: nat, block: Block)
    requires Lookup(st.blocks, index) == Some(block) && ApplyStop(env, st, index).result.Ok?
    ensures var once := ApplyStop(env, st, index);
            && ApplyStop(env, once.state, index) == once
            && (once.result.value.events != [] <==> HasType(block.raw, "tool_use") && !block.emittedClientDelta)
  {
    var stopped := block.(raw := StopRaw(env, block).value);
    StopRawTwice(env, block);
    LookupPut(st.blocks, index, stopped, index);
    PutTwice(st.blocks, index, stopped);
  }

  const HELLO: Value := Json.Obj(map["type" := Json.Str("text"), "text" := Json.Str("hello")])

  const NAMED_THOUGHT: Value :=
    Json.Obj(map["type" := Json.Str("thinking"), "thinking" := Json.Str("hm"), "id" := Json.Str("anthropic_text:0")])

  const CLASHING: seq<Wire> := [BlockStart(0, HELLO), BlockStop(0), BlockStart(1, NAMED_THOUGHT), BlockStop(1)]

  const TEXT_ENTRY := Entry(0, Block(HELLO, "", false))

  const THOUGHT_ENTRY := Entry(1, Block(NAMED_THOUGHT, "", false))

  lemma SampleFields()
    ensures HELLO.GetStr("type") == Some("text") && HELLO.GetStr("text") == Some("hello")
    ensures NAMED_THOUGHT.GetStr("type") == Some("thinking") && NAMED_THOUGHT.GetStr("id") == Some("anthropic_text:0")
    ensures NAMED_THOUGHT.GetStr("thinking") == Some("hm") && NAMED_THOUGHT.GetStr("status") == None
  {
    assert "type"[1] != "text"[1];
    assert |"type"| == 4 && |"thinking"| == 8 && |"id"| == 2 && |"status"| == 6;
  }

  lemma StartSample(env: Env, st: StreamState, index: nat, raw: Value)
    requires Lookup(st.blocks, index).None? && forall e :: e in st.blocks ==> e.index < index
    ensures ApplyOpen(env, st, BlockStart(index, raw)) ==
            Applied(st.(blocks := st.blocks + [Entry(index, Block(raw, "", false))],
                        emittedTextDelta := st.emittedTextDelta || StartText(raw) != ""),
                    Ok(Outcome(AsEvents(StartDeltas(index, raw)), false)))
  {
    PutLast(st.blocks, index, Block(raw, "", false));
  }

  lemma StopSample(env: Env, st: StreamState, front: seq<Entry>, e: Entry)
    requires st.blocks == front + [e] && forall f :: f in front ==> f.index < e.index
    requires e.block.inputJson == "" && !HasType(e.block.raw, "tool_use")
    ensures ApplyOpen(env, st, BlockStop(e.index)) == Applied(st, Ok(Outcome([], false)))
  {
    PutLast(front, e.index, e.block);
    assert StopRaw(env, e.block) == Some(e.block.raw);
  }

  lemma SamplePhases()
    ensures PhaseAfter(CLASHING) == Some(Between(2))
  {
    SampleFields();
    var w1, w2, w3 := [CLASHING[0]], [CLASHING[0], CLASHING[1]], [CLASHING[0], CLASHING[1], CLASHING[2]];
    assert [] + [CLASHING[0]] == w1 && w1 + [CLASHING[1]] == w2 && w2 + [CLASHING[2]] == w3
           && w3 + [CLASHING[3]] == CLASHING;
    PhaseSnoc([], Between(0), CLASHING[0]);
    PhaseSnoc(w1, Inside(0, Some("text")), CLASHING[1]);
    PhaseSnoc(w2, Between(1), CLASHING[2]);
    PhaseSnoc(w3, Inside(1, Some("thinking")), CLASHING[3]);
  }

  lemma SampleRun(env: Env)
    ensures Run(env, CLASHING) ==
            Ok(Ran(INITIAL.(blocks := [TEXT_ENTRY, THOUGHT_ENTRY], emittedTextDelta := true),
                   [DeltaEvent(TextDelta(TextId(0), "hello"))]))
  {
    SampleFields();
    var text := [DeltaEvent(TextDelta(TextId(0), "hello"))];
    var first := INITIAL.(blocks := [TEXT_ENTRY], emittedTextDelta := true);
    var both := INITIAL.(blocks := [TEXT_ENTRY, THOUGHT_ENTRY], emittedTextDelta := true);
    var w1, w2, w3 := [CLASHING[0]], [CLASHING[0], CLASHING[1]], [CLASHING[0], CLASHING[1], CLASHING[2]];
    assert [] + [CLASHING[0]] == w1 && w1 + [CLASHING[1]] == w2 && w2 + [CLASHING[2]] == w3
           && w3 + [CLASHING[3]] == CLASHING;
    RunSnoc(env, [], Ran(INITIAL, []), CLASHING[0]);
    StartSample(env, INITIAL, 0, HELLO);
    assert AsEvents(StartDeltas(0, HELLO)) == text && [] + text == text && text + [] == text
           && [] + [TEXT_ENTRY] == [TEXT_ENTRY];
    RunSnoc(env, w1, Ran(first, text), CLASHING[1]);
    StopSample(env, first, [], TEXT_ENTRY);
    RunSnoc(env, w2, Ran(first, text), CLASHING[2]);
    StartSample(env, first, 1, NAMED_THOUGHT);
    assert AsEvents(StartDeltas(1, NAMED_THOUGHT)) == [];
    assert [TEXT_ENTRY] + [THOUGHT_ENTRY] == [TEXT_ENTRY, THOUGHT_ENTRY];
    RunSnoc(env, w3, Ran(both, text), CLASHING[3]);
    StopSample(env, both, [TEXT_ENTRY], THOUGHT_ENTRY);
  }

  lemma SampleSummaries()
    ensures SummariesIn(HELLO) == []
    ensures SummariesIn(NAMED_THOUGHT) == [ReasoningSummary(Some("thinking"), "hm")]
    ensures !Json.IsBlank("hm")
  {
    SampleFields();
    assert |"text"| == 4 && |"reasoning"| == 9 && |"thinking"| == 8 && |"redacted_thinking"| == 17;
    assert "hm"[0] == 'h' && !Json.IsWhitespace('h');
  }

  lemma SampleReasoning(env: Env, model: string)
    ensures ReasoningItems(env, model, [HELLO, NAMED_THOUGHT]) ==
            [ReasoningItem(env.provider, Some(model), Some("anthropic_text:0"), None,
                           [ReasoningSummary(Some("thinking"), "hm")])]
  {
    SampleFields();
    SampleSummaries();
    var keep := (s: ReasoningSummary) => !Json.IsBlank(s.text);
    var said := ReasoningSummary(Some("thinking"), "hm");
    assert Init([HELLO]) == [] && Latest([HELLO]) == HELLO;
    assert ReasoningItems(env, model, [HELLO]) == [];
    assert keep(said) && [said][1..] == [];
    assert Filter([said], keep) == [said] + Filter([], keep) == [said];
    assert Init([HELLO, NAMED_THOUGHT]) == [HELLO] && Latest([HELLO, NAMED_THOUGHT]) == NAMED_THOUGHT;
    assert Filter(SummariesIn(NAMED_THOUGHT), keep) == [said];
  }

  lemma SampleFallback(env: Env, model: string)
    ensures ReasoningDeltas(ReasoningItems(env, model, [HELLO, NAMED_THOUGHT])) ==
            [ReasoningDelta("anthropic_text:0", env.provider, Some("thinking"), "hm")]
  {
    SampleReasoning(env, model);
    var said := ReasoningSummary(Some("thinking"), "hm");
    OneItem(ReasoningItem(env.provider, Some(model), Some("anthropic_text:0"), None, [said]), said);
  }

  lemma OneItem(item: ReasoningItem, said: ReasoningSummary)
    requires item.summary == [said] && said.text != "" && item.id.Some?
    ensures ReasoningDeltas([item]) == [ReasoningDelta(item.id.value, item.provider, said.kind, said.text)]
  {
    assert Init([said]) == [] && Latest([said]) == said && Init([item]) == [] && Latest([item]) == item;
    assert ItemDeltas(item.id.value, item.provider, [said]) ==
           [ReasoningDelta(item.id.value, item.provider, said.kind, said.text)];
  }

  lemma SampleEmitted()
    ensures DeltasOf([DeltaEvent(TextDelta(TextId(0), "hello"))], "anthropic_text:0") != []
  {
    var events := [DeltaEvent(TextDelta(TextId(0), "hello"))];
    assert Decimal.Print(0) == "0" && TextId(0) == "anthropic_text:0";
    assert Init(events) == [];
  }

  /** The clash happens: a conforming stream whose thinking block, streamed without deltas,
      carries the id of an emitted text item is refused by the collector. */
  lemma ClashHappens(env: Env)
    requires env.Lawful()
    ensures PhaseAfter(CLASHING) == Some(Between(2)) && Run(env, CLASHING).Ok?
    ensures Clash(env, Run(env, CLASHING).value) && NamesCollide(CLASHING)
    ensures Collect(env.codec, FullTrace(env, Run(env, CLASHING).value)).Err?
  {
    SampleClash(env);
    ClashIff(env, CLASHING);
    ConformingStreamCollects(env, CLASHING);
  }

  lemma SampleClash(env: Env)
    ensures PhaseAfter(CLASHING) == Some(Between(2)) && Run(env, CLASHING).Ok?
    ensures Clash(env, Run(env, CLASHING).value)
  {
    SamplePhases();
    SampleRun(env);
    var ran := Run(env, CLASHING).value;
    assert RawContent(ran.state.blocks) == [HELLO, NAMED_THOUGHT];
    SampleFallback(env, ModelOf(env, ran.state));
    SampleEmitted();
    assert ReasoningDelta("anthropic_text:0", env.provider, Some("thinking"), "hm")
      in FallbackReasoning(env, ran.state, [HELLO, NAMED_THOUGHT]);
  }
}
