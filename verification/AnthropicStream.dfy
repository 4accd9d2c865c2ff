/** The Anthropic Messages stream adapter of crates/chudbot-anthropic/src/llm.rs: one SSE
    event at a time updates the stored blocks and emits model-step events. */
module AnthropicStream {
  import opened Prelude
  import opened ModelStep
  import Decimal
  import Json

  type Value = Json.Value

  datatype DecodeReason =
    | BadEvent
    | BadUtf8(validUpTo: nat)
    | BadInput(index: nat)
    | IndexTooLarge(index: nat)
    | NoMessageStop
    | Reported(message: string)

  datatype AnthropicError =
    | Transport(message: string)
    | Api(status: nat, body: string)
    | Decode(reason: DecodeReason)
    | Reference(message: string)

  /** The sequence holds each of these keys once, and nothing else. */
  ghost predicate ListsOnce(order: seq<string>, keys: set<string>) { multiset(order) == multiset(keys) }

  /** What the adapter is given: the JSON codec, names, usage accounting, the platform's
      largest usize, and the iteration order of a hash map: any listing of its keys. */
  datatype Env = Env(
    codec: Json.Codec,
    provider: string,
    requestedModel: string,
    usageOf: (Value, string) -> Option<UsageRecord>,
    indexMax: nat,
    hashOrder: map<string, Value> -> seq<string>)
  {
    ghost predicate Lawful() {
      && codec.Lawful()
      && forall waiting: map<string, Value> :: ListsOnce(hashOrder(waiting), waiting.Keys)
    }
  }

  /** An SSE event with its strings decoded. */
  datatype TextEvent = TextEvent(event: Option<string>, data: string)

  // ---------------------------------------------------------------------------
  // State
  // ---------------------------------------------------------------------------

  datatype Block = Block(raw: Value, inputJson: string, emittedClientDelta: bool)

  /** One entry of the index-ordered block map. */
  datatype Entry = Entry(index: nat, block: Block)

  predicate Sorted(es: seq<Entry>) {
    forall i, j :: 0 <= i < j < |es| ==> es[i].index < es[j].index
  }

  function Lookup(es: seq<Entry>, index: nat): (r: Option<Block>)
    ensures r.Some? ==> Entry(index, r.value) in es
  {
    if es == [] then None
    else if es[0].index == index then Some(es[0].block)
    else Lookup(es[1..], index)
  }

  /** Insert or replace, keeping the order of indexes. */
  function Put(es: seq<Entry>, index: nat, block: Block): seq<Entry> {
    if es == [] || index < es[0].index then [Entry(index, block)] + es
    else if es[0].index == index then [Entry(index, block)] + es[1..]
    else [es[0]] + Put(es[1..], index, block)
  }

  /** Putting changes one index only and keeps the order. */
  lemma {:induction false} PutSorted(es: seq<Entry>, index: nat, block: Block)
    requires Sorted(es)
    ensures Sorted(Put(es, index, block))
    ensures forall e :: e in Put(es, index, block) ==> e.index == index || e in es
  {
    if es != [] && es[0].index < index {
      PutSorted(es[1..], index, block);
      var tail := Put(es[1..], index, block);
      forall k | 0 <= k < |tail|
        ensures es[0].index < tail[k].index
      {
        assert tail[k] in tail;
      }
    }
  }

  lemma {:induction false} LookupPut(es: seq<Entry>, index: nat, block: Block, other: nat)
    ensures Lookup(Put(es, index, block), other) == if other == index then Some(block) else Lookup(es, other)
  {
    if es != [] {
      LookupPut(es[1..], index, block, other);
    }
  }

  /** Behind all smaller indexes, putting means appending or replacing the last entry. */
  lemma {:induction false} PutLast(es: seq<Entry>, index: nat, block: Block)
    requires forall e :: e in es ==> e.index < index
    ensures Put(es, index, block) == es + [Entry(index, block)]
    ensures Lookup(es, index).None?
    ensures forall b :: Lookup(es + [Entry(index, b)], index) == Some(b)
    ensures forall b :: Put(es + [Entry(index, b)], index, block) == es + [Entry(index, block)]
  {
    if es != [] {
      PutLast(es[1..], index, block);
      assert es[0] in es;
      assert forall b :: (es + [Entry(index, b)])[1..] == es[1..] + [Entry(index, b)];
    } else {
      assert forall b :: es + [Entry(index, b)] == [Entry(index, b)];
    }
  }

  datatype StreamState = StreamState(
    modelId: Option<string>,
    stopReason: Option<string>,
    startUsage: Option<Value>,
    latestUsage: Option<Value>,
    blocks: seq<Entry>,
    emittedTextDelta: bool,
    emittedReasoningDelta: bool)

  const INITIAL := StreamState(None, None, None, None, [], false, false)

  datatype Outcome = Outcome(events: seq<Event>, finished: bool)

  const NOTHING := Outcome([], false)

  // ---------------------------------------------------------------------------
  // What an SSE event says
  // ---------------------------------------------------------------------------

  datatype Part =
    | TextPart(text: string)
    | InputPart(json: string)
    | ThinkingPart(thinking: string)
    | SignaturePart(signature: string)
    | OtherPart

  datatype Wire =
    | BadJson
    | MessageStart(model: Option<string>, usage: Option<Value>)
    | BlockStart(index: nat, raw: Value)
    | BlockDelta(index: nat, part: Part)
    | BlockStop(index: nat)
    | MessageDelta(stopReason: Option<string>, usage: Option<Value>)
    | MessageStop
    | ErrorEvent(value: Value)
    | HugeIndex(index: nat)
    | Ignored

  const U64_MAX: nat := 0xFFFF_FFFF_FFFF_FFFF

  const UNKNOWN_BLOCK: Value := Json.Obj(map["type" := Json.Str("unknown")])

  /** Value::as_u64. */
  function AsU64(v: Value): Option<nat> {
    if v.Int? && 0 <= v.n <= U64_MAX then Some(v.n) else None
  }

  function IndexField(v: Value): Option<nat> {
    match v.Get("index") case Some(i) => AsU64(i) case None => None
  }

  function NonEmpty(s: Option<string>): Option<string> { if s == Some("") then None else s }

  function NonNull(v: Option<Value>): Option<Value> { if v == Some(Json.Null) then None else v }

  function PartOf(delta: Value): Part {
    var kind := delta.GetStrOr("type", "");
    if kind == "text_delta" then
      match NonEmpty(delta.GetStr("text")) case Some(t) => TextPart(t) case None => OtherPart
    else if kind == "input_json_delta" then
      match NonEmpty(delta.GetStr("partial_json")) case Some(j) => InputPart(j) case None => OtherPart
    else if kind == "thinking_delta" then
      match NonEmpty(delta.GetStr("thinking")) case Some(t) => ThinkingPart(t) case None => OtherPart
    else if kind == "signature_delta" then
      match delta.GetStr("signature") case Some(s) => SignaturePart(s) case None => OtherPart
    else OtherPart
  }

  function TypeOf(event: TextEvent, value: Value): string {
    match value.GetStr("type")
    case Some(t) => t
    case None => match event.event case Some(name) => name case None => ""
  }

  function Classify(env: Env, event: TextEvent): Wire {
    match env.codec.parse(event.data)
    case None => BadJson
    case Some(value) =>
      var kind := TypeOf(event, value);
      if kind == "message_start" then
        (match value.Get("message")
         case None => MessageStart(None, None)
         case Some(m) => MessageStart(m.GetStr("model"), NonNull(m.Get("usage"))))
      else if kind == "message_delta" then
        MessageDelta(match value.Get("delta") case Some(d) => d.GetStr("stop_reason") case None => None,
                     NonNull(value.Get("usage")))
      else if kind == "message_stop" then MessageStop
      else if kind == "error" then ErrorEvent(value)
      else if kind !in {"content_block_start", "content_block_delta", "content_block_stop"} then Ignored
      else
        match IndexField(value)
        case None => Ignored
        case Some(index) =>
          if index > env.indexMax then HugeIndex(index)
          else if kind == "content_block_start" then
            BlockStart(index, match value.Get("content_block") case Some(raw) => raw case None => UNKNOWN_BLOCK)
          else if kind == "content_block_stop" then BlockStop(index)
          else match value.Get("delta") case Some(d) => BlockDelta(index, PartOf(d)) case None => Ignored
  }

  // ---------------------------------------------------------------------------
  // Provider errors
  // ---------------------------------------------------------------------------

  predicate StandsAt(s: string, i: nat, part: string) { i + |part| <= |s| && s[i..i + |part|] == part }

  predicate Contains(s: string, part: string) { exists i :: 0 <= i <= |s| && StandsAt(s, i, part) }

  function LowerChar(c: char): char { if 'A' <= c <= 'Z' then (c as int + 32) as char else c }

  function Lower(s: string): string { seq(|s|, i requires 0 <= i < |s| => LowerChar(s[i])) }

  function OrElse<T>(a: Option<T>, b: Option<T>): Option<T> { if a.Some? then a else b }

  function ErrorField(value: Value, first: string, second: string): Option<Value> {
    match value.Get("error") case Some(e) => OrElse(e.Get(first), e.Get(second)) case None => None
  }

  function AsStr(v: Option<Value>): Option<string> { match v case Some(x) => x.AsStr() case None => None }

  function ErrorMessage(value: Value): string {
    match OrElse(AsStr(ErrorField(value, "message", "type")), value.GetStr("message"))
    case Some(m) => m
    case None => "Anthropic stream returned an error event"
  }

  function StatusField(value: Value, field: string): Option<nat> {
    match OrElse(value.Get(field), ErrorField(value, field, field))
    case None => None
    case Some(v) => match AsU64(v) case Some(n) => if n <= 0xFFFF then Some(n) else None case None => None
  }

  function ErrorStatus(value: Value, message: string): Option<nat> {
    var explicit := OrElse(OrElse(StatusField(value, "status"), StatusField(value, "status_code")),
                           StatusField(value, "http_status"));
    if explicit.Some? then explicit
    else
      var code := AsStr(OrElse(ErrorField(value, "code", "type"), OrElse(value.Get("code"), value.Get("type"))));
      var marker := Lower((match code case Some(c) => c case None => "") + " " + message);
      if Contains(marker, "rate_limit") || Contains(marker, "rate limit") then Some(429)
      else if || Contains(marker, "temporarily unavailable") || Contains(marker, "temporary unavailable")
              || Contains(marker, "service_unavailable") || Contains(marker, "service unavailable")
              || Contains(marker, "overloaded")
      then Some(529)
      else None
  }

  function StreamErrorOf(value: Value): AnthropicError {
    var message := ErrorMessage(value);
    match ErrorStatus(value, message)
    case Some(status) => Api(status, message)
    case None => Decode(Reported(message))
  }

  // ---------------------------------------------------------------------------
  // One wire event
  // ---------------------------------------------------------------------------

  function TextId(index: nat): string { "anthropic_text:" + Decimal.Print(index) }

  function ToolId(index: nat): string { "anthropic_tool:" + Decimal.Print(index) }

  function ReasoningId(index: nat): string { "anthropic_reasoning:" + Decimal.Print(index) }

  const TERMINAL_TEXT_ID := "anthropic_text:terminal"

  predicate HasType(raw: Value, kind: string) { raw.GetStr("type") == Some(kind) }

  function ToolDelta(index: nat, raw: Value, arguments: string): Delta {
    ToolCallDelta(ToolId(index), raw.GetStrOr("id", ""), raw.GetStr("name"), arguments)
  }

  /** The text a new block already carries. */
  function StartText(raw: Value): string { if HasType(raw, "text") then raw.GetStrOr("text", "") else "" }

  function BlockAfter(block: Block, part: Part): Block {
    match part
    case TextPart(text) => block.(raw := block.raw.AppendStringField("text", text))
    case InputPart(json) =>
      block.(inputJson := block.inputJson + json,
             emittedClientDelta := block.emittedClientDelta || HasType(block.raw, "tool_use"))
    case ThinkingPart(thinking) => block.(raw := block.raw.AppendStringField("thinking", thinking))
    case SignaturePart(signature) => block.(raw := block.raw.SetField("signature", Json.Str(signature)))
    case OtherPart => block
  }

  function DeltasFor(env: Env, index: nat, block: Block, part: Part): seq<Delta> {
    match part
    case TextPart(text) => [TextDelta(TextId(index), text)]
    case InputPart(json) => if HasType(block.raw, "tool_use") then [ToolDelta(index, block.raw, json)] else []
    case ThinkingPart(thinking) => [ReasoningDelta(ReasoningId(index), env.provider, Some("thinking"), thinking)]
    case SignaturePart(_) => []
    case OtherPart => []
  }

  function AsEvents(ds: seq<Delta>): (es: seq<Event>)
    ensures |es| == |ds| && forall i :: 0 <= i < |ds| ==> es[i] == DeltaEvent(ds[i])
  {
    seq(|ds|, i requires 0 <= i < |ds| => DeltaEvent(ds[i]))
  }

  lemma AsEventsShort()
    ensures AsEvents([]) == []
    ensures forall d :: AsEvents([d]) == [DeltaEvent(d)]
  {}

  /** The stored input: the parsed JSON deltas, when there were any. */
  function StopRaw(env: Env, block: Block): Option<Value> {
    if Json.IsBlank(block.inputJson) then Some(block.raw)
    else
      match env.codec.parse(block.inputJson)
      case None => None
      case Some(input) => Some(block.raw.SetField("input", input))
  }

  /** A tool block that streamed no arguments emits its stored input at the stop. */
  function StopDeltas(env: Env, index: nat, raw: Value, emitted: bool): seq<Delta> {
    if HasType(raw, "tool_use") && !emitted then
      var input := match raw.Get("input") case Some(v) => v case None => Json.Obj(map[]);
      [ToolDelta(index, raw, env.codec.render(input))]
    else []
  }

  datatype Applied = Applied(state: StreamState, result: Result<Outcome, AnthropicError>)

  function BlockAt(es: seq<Entry>, index: nat): Block {
    match Lookup(es, index) case Some(b) => b case None => Block(UNKNOWN_BLOCK, "", false)
  }

  function StartDeltas(index: nat, raw: Value): seq<Delta> {
    if StartText(raw) == "" then [] else [TextDelta(TextId(index), StartText(raw))]
  }

  function AfterStart(st: StreamState, index: nat, raw: Value): StreamState {
    st.(blocks := Put(st.blocks, index, Block(raw, "", false)),
        emittedTextDelta := st.emittedTextDelta || StartText(raw) != "")
  }

  function AfterDelta(st: StreamState, index: nat, part: Part): StreamState {
    st.(blocks := Put(st.blocks, index, BlockAfter(BlockAt(st.blocks, index), part)),
        emittedTextDelta := st.emittedTextDelta || part.TextPart?,
        emittedReasoningDelta := st.emittedReasoningDelta || part.ThinkingPart?)
  }

  function ApplyStop(env: Env, st: StreamState, index: nat): Applied {
    match Lookup(st.blocks, index)
    case None => Applied(st, Ok(NOTHING))
    case Some(block) =>
      match StopRaw(env, block)
      case None => Applied(st, Err(Decode(BadInput(index))))
      case Some(raw) =>
        Applied(st.(blocks := Put(st.blocks, index, block.(raw := raw))),
                Ok(Outcome(AsEvents(StopDeltas(env, index, raw, block.emittedClientDelta)), false)))
  }

  /** One event other than message_stop. */
  function ApplyOpen(env: Env, st: StreamState, wire: Wire): Applied {
    match wire
    case BadJson => Applied(st, Err(Decode(BadEvent)))
    case MessageStart(model, usage) =>
      Applied(st.(modelId := OrElse(model, st.modelId), startUsage := OrElse(usage, st.startUsage)), Ok(NOTHING))
    case BlockStart(index, raw) =>
      Applied(AfterStart(st, index, raw), Ok(Outcome(AsEvents(StartDeltas(index, raw)), false)))
    case BlockDelta(index, part) =>
      Applied(AfterDelta(st, index, part),
              Ok(Outcome(AsEvents(DeltasFor(env, index, BlockAt(st.blocks, index), part)), false)))
    case BlockStop(index) => ApplyStop(env, st, index)
    case MessageDelta(stopReason, usage) =>
      Applied(st.(stopReason := OrElse(stopReason, st.stopReason), latestUsage := OrElse(usage, st.latestUsage)),
              Ok(NOTHING))
    case ErrorEvent(value) => Applied(st, Err(StreamErrorOf(value)))
    case HugeIndex(index) => Applied(st, Err(Decode(IndexTooLarge(index))))
    case MessageStop => Applied(st, Ok(NOTHING))
    case Ignored => Applied(st, Ok(NOTHING))
  }

  function Apply(env: Env, st: StreamState, wire: Wire): Applied {
    if wire.MessageStop? then Applied(st, Ok(Outcome(TerminalEvents(env, st), true))) else ApplyOpen(env, st, wire)
  }

  // ---------------------------------------------------------------------------
  // The terminal events
  // ---------------------------------------------------------------------------

  function RawContent(es: seq<Entry>): seq<Value> { seq(|es|, i requires 0 <= i < |es| => es[i].block.raw) }

  function RawText(raw: Value): string { if HasType(raw, "text") then raw.GetStrOr("text", "") else "" }

  function RawCall(raw: Value): ClientToolCall {
    ClientToolCall(raw.GetStrOr("id", ""), raw.GetStrOr("name", ""),
                   match raw.Get("input") case Some(v) => v case None => Json.Null)
  }

  /** All text of the text blocks. */
  function ContentText(blocks: seq<Value>): string {
    if blocks == [] then "" else ContentText(Init(blocks)) + RawText(Latest(blocks))
  }

  /** The client tool calls, in block order. */
  function ContentCalls(blocks: seq<Value>): seq<ClientToolCall> {
    if blocks == [] then []
    else ContentCalls(Init(blocks)) + if HasType(Latest(blocks), "tool_use") then [RawCall(Latest(blocks))] else []
  }

  function ContentGrounding(env: Env, blocks: seq<Value>): seq<GroundingMetadata> {
    if blocks == [] then []
    else
      var raw := Latest(blocks);
      ContentGrounding(env, Init(blocks))
      + match NonNull(raw.Get("citations"))
        case Some(c) => if HasType(raw, "text") then [GroundingMetadata(env.provider, c)] else []
        case None => []
  }

  /** Requests still waiting for their result, and the records made so far. */
  datatype ServerTools = ServerTools(waiting: map<string, Value>, uses: seq<ServerToolUse>)

  function PairedUse(env: Env, request: Value, response: Value): ServerToolUse {
    ServerToolUse(env.provider, request.GetStrOr("name", "web_search"),
                  OrElse(request.GetStr("id"), response.GetStr("tool_use_id")), response.GetStr("status"),
                  Json.Obj(map["request" := request, "response" := response]), [])
  }

  function OrphanUse(env: Env, response: Value): ServerToolUse {
    ServerToolUse(env.provider, "web_search", NonEmpty(Some(response.GetStrOr("tool_use_id", ""))),
                  response.GetStr("status"), response, [])
  }

  function RequestUse(env: Env, request: Value): ServerToolUse {
    ServerToolUse(env.provider, request.GetStrOr("name", "server_tool"), request.GetStr("id"),
                  request.GetStr("status"), request, [])
  }

  function ServerToolStep(env: Env, s: ServerTools, raw: Value): ServerTools {
    if HasType(raw, "server_tool_use") then s.(waiting := s.waiting[raw.GetStrOr("id", "") := raw])
    else if HasType(raw, "web_search_tool_result") then
      var id := raw.GetStrOr("tool_use_id", "");
      if id in s.waiting then ServerTools(s.waiting - {id}, s.uses + [PairedUse(env, s.waiting[id], raw)])
      else s.(uses := s.uses + [OrphanUse(env, raw)])
    else s
  }

  function ServerToolsIn(env: Env, blocks: seq<Value>): ServerTools {
    if blocks == [] then ServerTools(map[], [])
    else ServerToolStep(env, ServerToolsIn(env, Init(blocks)), Latest(blocks))
  }

  function RequestUses(env: Env, waiting: map<string, Value>, ids: seq<string>): seq<ServerToolUse> {
    if ids == [] then []
    else
      RequestUses(env, waiting, Init(ids))
      + if Latest(ids) in waiting then [RequestUse(env, waiting[Latest(ids)])] else []
  }

  /** Paired and orphaned results in block order, then the requests left without a result. */
  function ContentServerTools(env: Env, blocks: seq<Value>): seq<ServerToolUse> {
    var s := ServerToolsIn(env, blocks);
    s.uses + RequestUses(env, s.waiting, env.hashOrder(s.waiting))
  }

  function ContinuationFrom(env: Env, blocks: seq<Value>): Option<ProviderContinuation> {
    if blocks == [] then None else Some(ProviderContinuation(env.provider, Json.Arr(blocks)))
  }

  function KindOfContent(st: StreamState, blocks: seq<Value>): StepKind {
    if ContentCalls(blocks) != [] then ClientTools
    else if st.stopReason == Some("pause_turn") || ContentText(blocks) == "" then Continue
    else Final
  }

  /** Later usage fields overwrite the ones reported at the start. */
  function MergedUsage(st: StreamState): Option<Value> {
    var start := match st.startUsage case Some(u) => u case None => Json.Obj(map[]);
    var merged :=
      if st.latestUsage.Some? && start.Obj? && st.latestUsage.value.Obj?
      then Json.Obj(start.fields + st.latestUsage.value.fields) else start;
    if merged.Obj? && merged.fields != map[] then Some(merged) else None
  }

  // Reasoning summaries read off the stored blocks (crates/chudbot-api/src/reasoning.rs).

  function SummaryEntry(entry: Value): seq<ReasoningSummary> {
    if entry.Str? then [ReasoningSummary(None, entry.s)]
    else match entry.GetStr("text") case Some(t) => [ReasoningSummary(entry.GetStr("type"), t)] case None => []
  }

  function SummaryEntries(entries: seq<Value>): seq<ReasoningSummary> {
    if entries == [] then [] else SummaryEntries(Init(entries)) + SummaryEntry(Latest(entries))
  }

  function ThinkingSummary(raw: Value): seq<ReasoningSummary> {
    if raw.GetStr("thinking").Some? && !Json.IsBlank(raw.GetStr("thinking").value) then
      [ReasoningSummary(Some("thinking"), raw.GetStr("thinking").value)]
    else if raw.Get("signature").Some? then
      [ReasoningSummary(Some("thinking_omitted"), "Thinking content omitted by provider.")]
    else []
  }

  function SummariesIn(raw: Value): seq<ReasoningSummary> {
    if HasType(raw, "reasoning") then
      match raw.Get("summary")
      case Some(Arr(entries)) => SummaryEntries(entries)
      case Some(entry) => SummaryEntry(entry)
      case None => []
    else if HasType(raw, "thinking") then ThinkingSummary(raw)
    else if HasType(raw, "redacted_thinking") then
      [ReasoningSummary(Some("redacted_thinking"), "Thinking content redacted by provider.")]
    else []
  }

  function ReasoningItems(env: Env, model: string, blocks: seq<Value>): seq<ReasoningItem> {
    if blocks == [] then []
    else
      var raw := Latest(blocks);
      var summary := Filter(SummariesIn(raw), (s: ReasoningSummary) => !Json.IsBlank(s.text));
      ReasoningItems(env, model, Init(blocks))
      + if summary == [] then []
        else [ReasoningItem(env.provider, Some(model), raw.GetStr("id"), raw.GetStr("status"), summary)]
  }

  /** reasoning_items_to_delta_events, for one item and for all. */
  function ItemDeltas(itemId: string, provider: string, summary: seq<ReasoningSummary>): seq<Delta> {
    if summary == [] then []
    else
      var s := Latest(summary);
      ItemDeltas(itemId, provider, Init(summary))
      + if s.text == "" then [] else [ReasoningDelta(itemId, provider, s.kind, s.text)]
  }

  function ReasoningItemId(item: ReasoningItem, position: nat): string {
    match item.id case Some(id) => id case None => ReasoningId(position)
  }

  function ReasoningDeltas(items: seq<ReasoningItem>): seq<Delta> {
    if items == [] then []
    else
      var item := Latest(items);
      ReasoningDeltas(Init(items)) + ItemDeltas(ReasoningItemId(item, |items| - 1), item.provider, item.summary)
  }

  function ModelOf(env: Env, st: StreamState): string {
    match st.modelId case Some(m) => m case None => env.requestedModel
  }

  /** Text that no delta carried. */
  function FallbackText(st: StreamState, blocks: seq<Value>): seq<Delta> {
    if !st.emittedTextDelta && ContentText(blocks) != "" then [TextDelta(TERMINAL_TEXT_ID, ContentText(blocks))] else []
  }

  /** Reasoning that no delta carried. */
  function FallbackReasoning(env: Env, st: StreamState, blocks: seq<Value>): seq<Delta> {
    if st.emittedReasoningDelta then [] else ReasoningDeltas(ReasoningItems(env, ModelOf(env, st), blocks))
  }

  function ServerToolEvents(uses: seq<ServerToolUse>): seq<Event> {
    seq(|uses|, i requires 0 <= i < |uses| => ServerToolEvent(uses[i]))
  }

  function GroundingEvents(gs: seq<GroundingMetadata>): seq<Event> {
    seq(|gs|, i requires 0 <= i < |gs| => GroundingEvent(gs[i]))
  }

  function UsageEvents(env: Env, st: StreamState): seq<Event> {
    match MergedUsage(st)
    case None => []
    case Some(raw) => match env.usageOf(raw, ModelOf(env, st)) case Some(u) => [UsageEvent(u)] case None => []
  }

  /** Events behind the fallback deltas; Finished is the last. */
  function ClosingEvents(env: Env, st: StreamState, blocks: seq<Value>): seq<Event> {
    (match ContinuationFrom(env, blocks) case Some(c) => [ContinuationEvent(c)] case None => [])
    + ServerToolEvents(ContentServerTools(env, blocks))
    + GroundingEvents(ContentGrounding(env, blocks))
    + UsageEvents(env, st)
    + [Finished(KindOfContent(st, blocks), ModelOf(env, st))]
  }

  function TerminalEvents(env: Env, st: StreamState): seq<Event> {
    var blocks := RawContent(st.blocks);
    AsEvents(FallbackText(st, blocks)) + AsEvents(FallbackReasoning(env, st, blocks)) + ClosingEvents(env, st, blocks)
  }
}
