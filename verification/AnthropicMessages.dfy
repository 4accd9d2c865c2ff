/** Rendering a transcript for the Anthropic Messages API: to_anthropic_messages of
    crates/chudbot-anthropic/src/llm.rs. */
module AnthropicMessages {
  import opened Prelude
  import opened Transcript
  import opened AnthropicStream
  import Decimal
  import Json

  /** `mediaSource` resolves a media handle or fails; `compact` prints JSON. */
  datatype Renderer = Renderer(
    provider: string, mediaSource: Media -> Result<Value, AnthropicError>, compact: Value -> string)

  // ---------------------------------------------------------------------------
  // The content of one turn
  // ---------------------------------------------------------------------------

  function ContinuationBlocks(provider: string, block: ContentBlock): seq<Value> {
    if block.Replay? && block.continuation.provider == provider then
      if block.continuation.data.Arr? then block.continuation.data.items else [block.continuation.data]
    else []
  }

  function ContinuationContent(provider: string, blocks: seq<ContentBlock>): seq<Value> {
    if blocks == [] then []
    else ContinuationContent(provider, Init(blocks)) + ContinuationBlocks(provider, Latest(blocks))
  }

  function TextValue(text: string): Value { Json.Obj(map["type" := Json.Str("text"), "text" := Json.Str(text)]) }

  function ToolResultValue(r: Renderer, result: ToolResult): Value {
    var content := match result.content case JsonContent(v) => r.compact(v) case TextContent(t) => t;
    var fields := map["type" := Json.Str("tool_result"), "tool_use_id" := Json.Str(result.toolUseId),
                      "content" := Json.Str(content)];
    Json.Obj(if result.isError then fields["is_error" := Json.Bool(true)] else fields)
  }

  function BlockValues(r: Renderer, block: ContentBlock): Result<seq<Value>, AnthropicError> {
    match block
    case Text(text) => Ok(if text == "" then [] else [TextValue(text)])
    case MediaBlock(media) =>
      (match r.mediaSource(media)
       case Err(e) => Err(e)
       case Ok(source) => Ok([Json.Obj(map["type" := Json.Str("image"), "source" := source])]))
    case ToolCall(call) =>
      Ok([Json.Obj(map["type" := Json.Str("tool_use"), "id" := Json.Str(call.id),
                       "name" := Json.Str(call.name), "input" := call.input])])
    case ToolAnswer(result) => Ok([ToolResultValue(r, result)])
    case Replay(_) => Ok([])
  }

  function FreshContent(r: Renderer, blocks: seq<ContentBlock>): Result<seq<Value>, AnthropicError> {
    if blocks == [] then Ok([])
    else
      match FreshContent(r, Init(blocks))
      case Err(e) => Err(e)
      case Ok(before) => match BlockValues(r, Latest(blocks)) case Err(e) => Err(e) case Ok(more) => Ok(before + more)
  }

  /** A continuation of this provider supersedes the reconstructed blocks. */
  function TurnContent(r: Renderer, turn: Turn): Result<seq<Value>, AnthropicError> {
    var replay := ContinuationContent(r.provider, turn.blocks);
    if replay != [] then Ok(replay) else FreshContent(r, turn.blocks)
  }

  method ProviderContinuationContent(provider: string, blocks: seq<ContentBlock>) returns (content: seq<Value>)
    ensures content == ContinuationContent(provider, blocks)
  {
    content := [];
    for k := 0 to |blocks|
      invariant content == ContinuationContent(provider, blocks[..k])
    {
      assert Init(blocks[..k + 1]) == blocks[..k];
      if blocks[k].Replay? && blocks[k].continuation.provider == provider {
        match blocks[k].continuation.data {
          case Arr(items) => content := content + items;
          case other => content := content + [other];
        }
      }
    }
    assert blocks[..|blocks|] == blocks;
  }

  lemma {:induction false} FreshFails(r: Renderer, blocks: seq<ContentBlock>, k: nat)
    requires k <= |blocks| && FreshContent(r, blocks[..k]).Err?
    ensures FreshContent(r, blocks) == FreshContent(r, blocks[..k])
    decreases |blocks| - k
  {
    if k == |blocks| {
      assert blocks[..k] == blocks;
    } else {
      assert Init(blocks[..k + 1]) == blocks[..k];
      FreshFails(r, blocks, k + 1);
    }
  }

  method AnthropicContentForTurn(r: Renderer, turn: Turn) returns (content: Result<seq<Value>, AnthropicError>)
    ensures content == TurnContent(r, turn)
  {
    var blocks := turn.blocks;
    var values := ProviderContinuationContent(r.provider, blocks);
    if values != [] {
      return Ok(values);
    }
    for k := 0 to |blocks|
      invariant FreshContent(r, blocks[..k]) == Ok(values)
    {
      assert Init(blocks[..k + 1]) == blocks[..k];
      var more := BlockValues(r, blocks[k]);
      if more.Err? {
        FreshFails(r, blocks, k + 1);
        return Err(more.error);
      }
      values := values + more.value;
    }
    assert blocks[..|blocks|] == blocks;
    return Ok(values);
  }

  // ---------------------------------------------------------------------------
  // The turns that are rendered
  // ---------------------------------------------------------------------------

  /** A turn with content. */
  datatype Piece = Piece(role: Role, content: seq<Value>)

  function Pieces(r: Renderer, turns: seq<Turn>): Result<seq<Piece>, AnthropicError> {
    if turns == [] then Ok([])
    else
      match Pieces(r, Init(turns))
      case Err(e) => Err(e)
      case Ok(before) =>
        match TurnContent(r, Latest(turns))
        case Err(e) => Err(e)
        case Ok(content) => Ok(if content == [] then before else before + [Piece(Latest(turns).role, content)])
  }

  lemma {:induction false} PiecesFail(r: Renderer, turns: seq<Turn>, k: nat)
    requires k <= |turns| && Pieces(r, turns[..k]).Err?
    ensures Pieces(r, turns) == Pieces(r, turns[..k])
    decreases |turns| - k
  {
    if k == |turns| {
      assert turns[..k] == turns;
    } else {
      assert Init(turns[..k + 1]) == turns[..k];
      PiecesFail(r, turns, k + 1);
    }
  }

  // ---------------------------------------------------------------------------
  // Messages
  // ---------------------------------------------------------------------------

  datatype MessageRole = UserMessage | AssistantMessage | SystemMessage

  datatype Message = Message(role: MessageRole, content: seq<Value>)

  predicate EndsWithServerToolUse(message: Message) {
    message.content != [] && Latest(message.content).GetStr("type") == Some("server_tool_use")
  }

  predicate CanAppendSystemMessage(messages: seq<Message>) {
    messages != [] &&
    match Latest(messages).role
    case UserMessage => true
    case AssistantMessage => EndsWithServerToolUse(Latest(messages))
    case SystemMessage => false
  }

  /** Messages so far, and system content not placed yet. */
  datatype Placed = Placed(messages: seq<Message>, pending: seq<Value>)

  function Notes(messages: seq<Message>, pending: seq<Value>): seq<Message> {
    if pending == [] then []
    else [Message(if CanAppendSystemMessage(messages) then SystemMessage else UserMessage, pending)]
  }

  function Flushed(p: Placed): Placed { Placed(p.messages + Notes(p.messages, p.pending), []) }

  function Place(native: bool, p: Placed, piece: Piece): Placed {
    match piece.role
    case System =>
      if native then p.(pending := p.pending + piece.content)
      else p.(messages := p.messages + [Message(UserMessage, piece.content)])
    case User => p.(messages := p.messages + [Message(UserMessage, piece.content)])
    case Assistant =>
      var q := if native then Flushed(p) else p;
      q.(messages := q.messages + [Message(AssistantMessage, piece.content)])
  }

  function PlaceAll(native: bool, pieces: seq<Piece>): Placed {
    if pieces == [] then Placed([], []) else Place(native, PlaceAll(native, Init(pieces)), Latest(pieces))
  }

  function Rendered(native: bool, pieces: seq<Piece>): seq<Message> {
    var p := PlaceAll(native, pieces);
    if native then Flushed(p).messages else p.messages
  }

  /** All content blocks, message by message. */
  function ContentOf(ms: seq<Message>): seq<Value> {
    if ms == [] then [] else ContentOf(Init(ms)) + Latest(ms).content
  }

  lemma ContentOfSnoc(ms: seq<Message>, m: Message)
    ensures ContentOf(ms + [m]) == ContentOf(ms) + m.content
  {
    assert Init(ms + [m]) == ms;
  }

  /** Pending content goes into one message behind the others, a system message exactly where one
      may stand and otherwise a user message; nothing stays pending, and no block is lost. */
  method FlushSystemContent(messages: seq<Message>, pending: seq<Value>)
    returns (messages': seq<Message>, pending': seq<Value>)
    ensures pending' == [] && ContentOf(messages') == ContentOf(messages) + pending
    ensures messages <= messages' && |messages'| == |messages| + if pending == [] then 0 else 1
    ensures messages' != messages ==>
              if CanAppendSystemMessage(messages) then Latest(messages').role.SystemMessage?
              else Latest(messages').role.UserMessage?
  {
    messages', pending' := messages, pending;
    if pending == [] {
      assert ContentOf(messages) + [] == ContentOf(messages);
      return;
    }
    pending' := [];
    if CanAppendSystemMessage(messages) {
      messages' := messages + [Message(SystemMessage, pending)];
    } else {
      messages' := messages + [Message(UserMessage, pending)];
    }
    ContentOfSnoc(messages, Latest(messages'));
  }

  /** That determines the result. */
  lemma FlushIsFlushed(messages: seq<Message>, pending: seq<Value>, messages': seq<Message>)
    requires ContentOf(messages') == ContentOf(messages) + pending
    requires messages <= messages' && |messages'| == |messages| + if pending == [] then 0 else 1
    requires messages' != messages ==>
               if CanAppendSystemMessage(messages) then Latest(messages').role.SystemMessage?
               else Latest(messages').role.UserMessage?
    ensures Placed(messages', []) == Flushed(Placed(messages, pending))
  {
    if pending == [] {
      assert messages' == messages && messages + [] == messages;
    } else {
      var last := Latest(messages');
      assert messages' == messages + [last];
      ContentOfSnoc(messages, last);
      assert last.content == ContentOf(messages')[|ContentOf(messages)|..];
    }
  }

  function RenderedOrError(r: Renderer, native: bool, turns: seq<Turn>): Result<seq<Message>, AnthropicError> {
    match Pieces(r, turns) case Err(e) => Err(e) case Ok(pieces) => Ok(Rendered(native, pieces))
  }

  /** The hoisted system text and the messages, or the first media error. */
  method ToAnthropicMessages(r: Renderer, model: string, turns: seq<Turn>)
    returns (system: Option<string>, rendered: Result<seq<Message>, AnthropicError>)
    ensures system == LeadingSystemText(turns)
    ensures rendered == RenderedOrError(r, SupportsNativeSystem(model), turns[LeadingSystemCount(turns)..])
  {
    system := LeadingSystemText(turns);
    var native := SupportsNativeSystem(model);
    var body := turns[LeadingSystemCount(turns)..];
    var messages, pending := [], [];
    ghost var pieces := [];
    for k := 0 to |body|
      invariant Pieces(r, body[..k]) == Ok(pieces)
      invariant PlaceAll(native, pieces) == Placed(messages, pending)
    {
      assert Init(body[..k + 1]) == body[..k];
      var content := AnthropicContentForTurn(r, body[k]);
      if content.Err? {
        PiecesFail(r, body, k + 1);
        return system, Err(content.error);
      }
      if content.value == [] {
        continue;
      }
      assert Init(pieces + [Piece(body[k].role, content.value)]) == pieces;
      pieces := pieces + [Piece(body[k].role, content.value)];
      match body[k].role {
        case System =>
          if native {
            pending := pending + content.value;
          } else {
            messages := messages + [Message(UserMessage, content.value)];
          }
        case User => messages := messages + [Message(UserMessage, content.value)];
        case Assistant =>
          if native {
            ghost var before, waiting := messages, pending;
            messages, pending := FlushSystemContent(messages, pending);
            FlushIsFlushed(before, waiting, messages);
          }
          messages := messages + [Message(AssistantMessage, content.value)];
      }
    }
    assert body[..|body|] == body;
    if native {
      ghost var before, waiting := messages, pending;
      messages, pending := FlushSystemContent(messages, pending);
      FlushIsFlushed(before, waiting, messages);
    }
    return system, Ok(messages);
  }

  // ---------------------------------------------------------------------------
  // Which models take system messages in the conversation
  // ---------------------------------------------------------------------------

  /** A suffix of the form -YYYYMMDD. */
  predicate IsDate(suffix: string) {
    |suffix| == 9 && suffix[0] == '-' && forall i :: 1 <= i < 9 ==> Decimal.IsDigit(suffix[i])
  }

  function StripDate(model: string): Option<string> {
    if |model| >= 9 && IsDate(model[|model| - 9..]) then Some(model[..|model| - 9]) else None
  }

  const NATIVE_NAMES: set<string> := {"claude-opus-4-8", "claude-opus-4.8", "opus-4-8", "opus-4.8"}

  predicate SupportsNativeSystem(model: string) {
    (match StripDate(model) case Some(name) => name case None => model) in NATIVE_NAMES
  }

  lemma NamesHaveNoDate(name: string)
    requires name in NATIVE_NAMES
    ensures StripDate(name).None?
  {
    if |name| >= 9 {
      assert |"opus-4-8"| == 8 && |"opus-4.8"| == 8;
      assert name[|name| - 8] == 'o';
    }
  }

  /** Exactly the four names, bare or with one date. */
  lemma NativeModels(model: string)
    ensures SupportsNativeSystem(model) <==>
            model in NATIVE_NAMES || exists name, date :: name in NATIVE_NAMES && IsDate(date) && model == name + date
  {
    if model in NATIVE_NAMES {
      NamesHaveNoDate(model);
    }
    forall name, date | name in NATIVE_NAMES && IsDate(date) && model == name + date
      ensures StripDate(model) == Some(name)
    {
      assert model[|model| - 9..] == date && model[..|model| - 9] == name;
    }
    if StripDate(model).Some? {
      assert model == StripDate(model).value + model[|model| - 9..];
    }
  }
}
