/** Model-step events and the collected step, after crates/chudbot-api/src/llm.rs. */
module ModelStep {
  import opened Prelude
  import Json

  datatype ProviderContinuation = ProviderContinuation(provider: string, data: Json.Value)

  datatype ClientToolCall = ClientToolCall(id: string, name: string, input: Json.Value)

  datatype UsageRecord = UsageRecord(provider: string, model: Option<string>, counts: Json.Value)

  datatype ServerToolUse = ServerToolUse(
    provider: string, name: string, id: Option<string>, status: Option<string>,
    raw: Json.Value, usage: seq<UsageRecord>)

  datatype GroundingMetadata = GroundingMetadata(provider: string, raw: Json.Value)

  datatype ReasoningSummary = ReasoningSummary(kind: Option<string>, text: string)

  datatype ReasoningItem = ReasoningItem(
    provider: string, model: Option<string>, id: Option<string>, status: Option<string>,
    summary: seq<ReasoningSummary>)

  datatype StepKind = Final | ClientTools | Continue

  datatype Delta =
    | TextDelta(itemId: string, text: string)
    | ReasoningDelta(itemId: string, provider: string, kind: Option<string>, text: string)
    | ToolCallDelta(itemId: string, id: string, name: Option<string>, arguments: string)

  datatype Event =
    | DeltaEvent(delta: Delta)
    | ContinuationEvent(continuation: ProviderContinuation)
    | ServerToolEvent(tool: ServerToolUse)
    | GroundingEvent(metadata: GroundingMetadata)
    | UsageEvent(usage: UsageRecord)
    | Finished(kind: StepKind, modelId: string)

  datatype OutputBlock =
    | TextBlock(text: string)
    | ToolCallBlock(call: ClientToolCall)
    | ContinuationBlock(continuation: ProviderContinuation)

  datatype Item =
    | BlockItem(block: OutputBlock)
    | ReasoningEntry(reasoning: ReasoningItem)
    | ServerToolEntry(tool: ServerToolUse)
    | GroundingEntry(metadata: GroundingMetadata)

  datatype Output = Output(modelId: string, items: seq<Item>, usage: seq<UsageRecord>)
  {
    /** Items the transcript keeps, in order. */
    function Blocks(): seq<OutputBlock> { BlocksOf(items) }

    /** Text blocks only. */
    function AnswerBlocks(): seq<OutputBlock> { Filter(Blocks(), (b: OutputBlock) => b.TextBlock?) }

    function ClientToolCalls(): seq<ClientToolCall> { CallsOf(items) }

    function AnswerText(): string { TextOf(items) }

    /** The last continuation. */
    function Continuation(): Option<ProviderContinuation> { ContinuationOf(items) }

    function ServerToolUses(): seq<ServerToolUse> { ServerToolsOf(items) }

    function Groundings(): seq<GroundingMetadata> { GroundingsOf(items) }
  }

  datatype Step = Step(kind: StepKind, output: Output)

  function BlocksOf(items: seq<Item>): seq<OutputBlock> {
    if items == [] then []
    else (if items[0].BlockItem? then [items[0].block] else []) + BlocksOf(items[1..])
  }

  /** What one item contributes. */
  function CallsIn(item: Item): seq<ClientToolCall> {
    if item.BlockItem? && item.block.ToolCallBlock? then [item.block.call] else []
  }

  function TextIn(item: Item): string { if item.BlockItem? && item.block.TextBlock? then item.block.text else "" }

  function CallsOf(items: seq<Item>): seq<ClientToolCall> {
    if items == [] then []
    else CallsIn(items[0]) + CallsOf(items[1..])
  }

  function TextOf(items: seq<Item>): string {
    if items == [] then ""
    else TextIn(items[0]) + TextOf(items[1..])
  }

  function ContinuationOf(items: seq<Item>): Option<ProviderContinuation> {
    if items == [] then None
    else
      var last := items[|items| - 1];
      if last.BlockItem? && last.block.ContinuationBlock? then Some(last.block.continuation)
      else ContinuationOf(items[..|items| - 1])
  }

  function ServerToolsOf(items: seq<Item>): seq<ServerToolUse> {
    if items == [] then []
    else (if items[0].ServerToolEntry? then [items[0].tool] else []) + ServerToolsOf(items[1..])
  }

  function GroundingsOf(items: seq<Item>): seq<GroundingMetadata> {
    if items == [] then []
    else (if items[0].GroundingEntry? then [items[0].metadata] else []) + GroundingsOf(items[1..])
  }
}
