/** Tool calls and their results in rendered conversations: the Messages API wants each assistant
    message with tool calls directly followed by a user message with their results. */
module AnthropicToolTurns {
  import opened Prelude
  import opened ModelStep
  import opened Transcript
  import opened AnthropicStream
  import opened AnthropicMessages
  import opened Agent
  import opened AgentRuns
  import opened AgentLaws
  import Json

  // ---------------------------------------------------------------------------
  // Ids in rendered content
  // ---------------------------------------------------------------------------

  function UseId(v: Value): seq<string> { if HasType(v, "tool_use") then [v.GetStrOr("id", "")] else [] }

  function ResultId(v: Value): seq<string> { if HasType(v, "tool_result") then [v.GetStrOr("tool_use_id", "")] else [] }

  function UseIds(values: seq<Value>): seq<string> {
    if values == [] then [] else UseIds(Init(values)) + UseId(Latest(values))
  }

  function ResultIdsIn(values: seq<Value>): seq<string> {
    if values == [] then [] else ResultIdsIn(Init(values)) + ResultId(Latest(values))
  }

  lemma {:induction false} IdsAppend(a: seq<Value>, b: seq<Value>)
    ensures UseIds(a + b) == UseIds(a) + UseIds(b) && ResultIdsIn(a + b) == ResultIdsIn(a) + ResultIdsIn(b)
    decreases |b|
  {
    if b == [] {
      assert a + b == a;
    } else {
      assert Init(a + b) == a + Init(b) && Latest(a + b) == Latest(b);
      IdsAppend(a, Init(b));
      Assoc(UseIds(a), UseIds(Init(b)), UseId(Latest(b)));
      Assoc(ResultIdsIn(a), ResultIdsIn(Init(b)), ResultId(Latest(b)));
    }
  }

  lemma {:induction false} CallIdsSnoc(blocks: seq<ContentBlock>, block: ContentBlock)
    ensures CallIds(blocks + [block]) == CallIds(blocks) + CallIdIn(block)
  {
    if blocks == [] {
      assert [] + [block] == [block] && [block][1..] == [];
    } else {
      assert (blocks + [block])[0] == blocks[0] && (blocks + [block])[1..] == blocks[1..] + [block];
      CallIdsSnoc(blocks[1..], block);
      Assoc(CallIdIn(blocks[0]), CallIds(blocks[1..]), CallIdIn(block));
    }
  }

  lemma OneValue(v: Value)
    ensures UseIds([v]) == UseId(v) && ResultIdsIn([v]) == ResultId(v)
  {
    assert Init([v]) == [] && Latest([v]) == v;
  }

  function ResultIdOf(block: ContentBlock): seq<string> { if block.ToolAnswer? then [block.result.toolUseId] else [] }

  lemma ResultValueFields(r: Renderer, result: ToolResult)
    ensures var v := ToolResultValue(r, result);
            v.GetStr("type") == Some("tool_result") && v.GetStr("tool_use_id") == Some(result.toolUseId)
  {
    assert |"type"| == 4 && |"tool_use_id"| == 11 && |"content"| == 7 && |"is_error"| == 8;
  }

  lemma TextValueFields(text: string)
    ensures TextValue(text).GetStr("type") == Some("text")
  {
    assert "type"[1] != "text"[1];
  }

  lemma CallValueFields(r: Renderer, call: ClientToolCall)
    ensures BlockValues(r, ToolCall(call)).Ok? && |BlockValues(r, ToolCall(call)).value| == 1
    ensures var v := BlockValues(r, ToolCall(call)).value[0];
            v.GetStr("type") == Some("tool_use") && v.GetStr("id") == Some(call.id)
  {
    assert |"type"| == 4 && |"id"| == 2 && |"input"| == 5 && "name"[0] != "type"[0];
  }

  lemma ImageFields(source: Value)
    ensures Json.Obj(map["type" := Json.Str("image"), "source" := source]).GetStr("type") == Some("image")
  {
    assert |"type"| == 4 && |"source"| == 6;
  }

  lemma TypesDiffer()
    ensures "tool_use" != "tool_result" && "text" != "tool_use" && "text" != "tool_result"
    ensures "image" != "tool_use" && "image" != "tool_result"
  {
    assert |"tool_use"| == 8 && |"tool_result"| == 11 && |"text"| == 4 && |"image"| == 5;
  }

  lemma BlockIds(r: Renderer, block: ContentBlock)
    requires BlockValues(r, block).Ok?
    ensures UseIds(BlockValues(r, block).value) == CallIdIn(block)
    ensures ResultIdsIn(BlockValues(r, block).value) == ResultIdOf(block)
  {
    TypesDiffer();
    match block {
      case Text(text) =>
        TextValueFields(text);
        OneValue(TextValue(text));
      case MediaBlock(media) =>
        ImageFields(r.mediaSource(media).value);
        OneValue(BlockValues(r, block).value[0]);
      case ToolCall(call) =>
        CallValueFields(r, call);
        OneValue(BlockValues(r, block).value[0]);
      case ToolAnswer(result) =>
        ResultValueFields(r, result);
        OneValue(ToolResultValue(r, result));
      case Replay(_) =>
    }
  }

  lemma {:induction false} FreshIds(r: Renderer, blocks: seq<ContentBlock>)
    requires FreshContent(r, blocks).Ok?
    ensures UseIds(FreshContent(r, blocks).value) == CallIds(blocks)
    ensures ResultIdsIn(FreshContent(r, blocks).value) == ResultIds(blocks)
  {
    if blocks != [] {
      var front, last := Init(blocks), Latest(blocks);
      assert blocks == front + [last];
      FreshIds(r, front);
      BlockIds(r, last);
      CallIdsSnoc(front, last);
      IdsAppend(FreshContent(r, front).value, BlockValues(r, last).value);
    }
  }

  /** Replayed content names the same calls and results as the blocks it supersedes. */
  predicate FaithfulReplay(r: Renderer, turn: Turn) {
    var replay := ContinuationContent(r.provider, turn.blocks);
    replay != [] ==> UseIds(replay) == CallIds(turn.blocks) && ResultIdsIn(replay) == ResultIds(turn.blocks)
  }

  /** Stored Anthropic content does, when the calls are read off it. */
  lemma {:induction false} StoredCallIds(raw: seq<Value>)
    ensures UseIds(raw) == IdsOf(ContentCalls(raw))
  {
    if raw != [] {
      StoredCallIds(Init(raw));
      var last := if HasType(Latest(raw), "tool_use") then [RawCall(Latest(raw))] else [];
      AgentLaws.IdsAppend(ContentCalls(Init(raw)), last);
      assert IdsOf(last) == UseId(Latest(raw));
    }
  }

  lemma TurnIds(r: Renderer, turn: Turn)
    requires FaithfulReplay(r, turn) && TurnContent(r, turn).Ok?
    ensures UseIds(TurnContent(r, turn).value) == CallIds(turn.blocks)
    ensures ResultIdsIn(TurnContent(r, turn).value) == ResultIds(turn.blocks)
  {
    if ContinuationContent(r.provider, turn.blocks) == [] {
      FreshIds(r, turn.blocks);
    }
  }

  // ---------------------------------------------------------------------------
  // From turns to pieces
  // ---------------------------------------------------------------------------

  predicate Calls(piece: Piece) { piece.role == Assistant && UseIds(piece.content) != [] }

  predicate Answers(piece: Piece, ids: seq<string>) { piece.role == User && ResultIdsIn(piece.content) == ids }

  predicate TurnCalls(turn: Turn) { turn.role == Assistant && CallIds(turn.blocks) != [] }

  /** All calls but those of the last turn, or piece, are answered. */
  predicate TurnsSoFar(turns: seq<Turn>) {
    forall k :: 0 <= k < |turns| - 1 && TurnCalls(turns[k]) ==>
      turns[k + 1].role == User && ResultIds(turns[k + 1].blocks) == CallIds(turns[k].blocks)
  }

  predicate PiecesSoFar(pieces: seq<Piece>) {
    forall k :: 0 <= k < |pieces| - 1 && Calls(pieces[k]) ==> Answers(pieces[k + 1], UseIds(pieces[k].content))
  }

  lemma PiecesSoFarSnoc(pieces: seq<Piece>, piece: Piece)
    requires PiecesSoFar(pieces)
    requires pieces != [] && Calls(Latest(pieces)) ==> Answers(piece, UseIds(Latest(pieces).content))
    ensures PiecesSoFar(pieces + [piece])
  {}

  /** Dropping turns without content does not separate a call from its answer. */
  lemma {:induction false} PiecesFollow(r: Renderer, turns: seq<Turn>)
    requires TurnsSoFar(turns) && Pieces(r, turns).Ok? && forall t :: t in turns ==> FaithfulReplay(r, t)
    ensures var pieces := Pieces(r, turns).value;
            PiecesSoFar(pieces) && PieceWaits(pieces, turns)
  {
    if turns != [] {
      var front, last := Init(turns), Latest(turns);
      assert forall k :: 0 <= k < |front| ==> front[k] == turns[k];
      assert last in turns;
      PiecesFollow(r, front);
      TurnIds(r, last);
      var pieces, content := Pieces(r, front).value, TurnContent(r, last).value;
      WaitingIsAnswered(pieces, turns);
      if content != [] {
        PiecesSoFarSnoc(pieces, Piece(last.role, content));
      }
    }
  }

  /** The last piece waits for results only if the last turn does. */
  predicate PieceWaits(pieces: seq<Piece>, turns: seq<Turn>) {
    pieces != [] && Calls(Latest(pieces)) ==>
      && turns != [] && TurnCalls(Latest(turns))
      && CallIds(Latest(turns).blocks) == UseIds(Latest(pieces).content)
  }

  lemma WaitingIsAnswered(pieces: seq<Piece>, turns: seq<Turn>)
    requires turns != [] && TurnsSoFar(turns) && PieceWaits(pieces, Init(turns))
    ensures pieces != [] && Calls(Latest(pieces)) ==>
              && Latest(turns).role == User && ResultIds(Latest(turns).blocks) == UseIds(Latest(pieces).content) != []
  {
    if pieces != [] && Calls(Latest(pieces)) {
      assert Latest(Init(turns)) == turns[|turns| - 2];
    }
  }

  // ---------------------------------------------------------------------------
  // From pieces to messages
  // ---------------------------------------------------------------------------

  predicate MessageCalls(m: Message) { m.role.AssistantMessage? && UseIds(m.content) != [] }

  predicate MessageAnswers(m: Message, ids: seq<string>) { m.role.UserMessage? && ResultIdsIn(m.content) == ids }

  predicate MessagesSoFar(ms: seq<Message>) {
    forall k :: 0 <= k < |ms| - 1 && MessageCalls(ms[k]) ==> MessageAnswers(ms[k + 1], UseIds(ms[k].content))
  }

  /** Each assistant message with tool calls is directly followed by the user message with their
      results. */
  predicate MessagesAnswered(ms: seq<Message>) { MessagesSoFar(ms) && (ms != [] ==> !MessageCalls(Latest(ms))) }

  lemma MessagesSnoc(ms: seq<Message>, m: Message)
    requires MessagesSoFar(ms)
    requires ms != [] && MessageCalls(Latest(ms)) ==> MessageAnswers(m, UseIds(Latest(ms).content))
    ensures MessagesSoFar(ms + [m]) && Latest(ms + [m]) == m
  {}

  /** The last message waits for results only if the last piece does. */
  predicate Waits(ms: seq<Message>, pieces: seq<Piece>) {
    ms != [] && MessageCalls(Latest(ms)) ==>
      pieces != [] && Calls(Latest(pieces)) && Latest(pieces).content == Latest(ms).content
  }

  lemma FlushSoFar(p: Placed)
    requires MessagesSoFar(p.messages)
    requires p.messages != [] ==> !MessageCalls(Latest(p.messages))
    ensures MessagesSoFar(Flushed(p).messages)
    ensures Flushed(p).messages != [] ==> !MessageCalls(Latest(Flushed(p).messages))
  {
    if p.pending == [] {
      assert p.messages + [] == p.messages;
    } else {
      MessagesSnoc(p.messages, Notes(p.messages, p.pending)[0]);
    }
  }

  lemma PlaceFollows(native: bool, p: Placed, pieces: seq<Piece>, piece: Piece)
    requires MessagesSoFar(p.messages) && Waits(p.messages, pieces) && PiecesSoFar(pieces + [piece])
    ensures MessagesSoFar(Place(native, p, piece).messages) && Waits(Place(native, p, piece).messages, pieces + [piece])
  {
    var all := pieces + [piece];
    if p.messages != [] && MessageCalls(Latest(p.messages)) {
      assert all[|pieces| - 1] == Latest(pieces) && all[|pieces|] == piece;
      assert Answers(piece, UseIds(Latest(p.messages).content));
    }
    match piece.role {
      case User => MessagesSnoc(p.messages, Message(UserMessage, piece.content));
      case System =>
        if !native {
          MessagesSnoc(p.messages, Message(UserMessage, piece.content));
        }
      case Assistant =>
        FlushSoFar(p);
        var q := if native then Flushed(p) else p;
        MessagesSnoc(q.messages, Message(AssistantMessage, piece.content));
    }
  }

  lemma {:induction false} PlaceAllFollows(native: bool, pieces: seq<Piece>)
    requires PiecesSoFar(pieces)
    ensures MessagesSoFar(PlaceAll(native, pieces).messages) && Waits(PlaceAll(native, pieces).messages, pieces)
  {
    if pieces != [] {
      var front, last := Init(pieces), Latest(pieces);
      assert pieces == front + [last];
      assert forall k :: 0 <= k < |front| ==> front[k] == pieces[k];
      PlaceAllFollows(native, front);
      PlaceFollows(native, PlaceAll(native, front), front, last);
    }
  }

  /** When every assistant turn has its calls answered by the next turn, every rendered assistant
      message with tool calls is directly followed by the user message with exactly those results,
      wherever system content is placed. */
  lemma RenderedCallsAnswered(r: Renderer, native: bool, turns: seq<Turn>)
    requires CallsAnswered(turns) && Pieces(r, turns).Ok? && forall t :: t in turns ==> FaithfulReplay(r, t)
    ensures MessagesAnswered(RenderedOrError(r, native, turns).value)
  {
    var pieces := Pieces(r, turns).value;
    PiecesFollow(r, turns);
    assert pieces == [] || !Calls(Latest(pieces));
    PlaceAllFollows(native, pieces);
    FlushSoFar(PlaceAll(native, pieces));
  }

  /** So the transcript a run ends with renders to a conversation with every tool call answered,
      if it started as one and no step left calls behind. */
  lemma RunRendersAnswered<E>(cfg: Config, world: World<E>, turns: seq<Turn>, r: Renderer, native: bool)
    requires RunOf(cfg, world, turns).error.None? && CallsAnswered(Prepared(cfg.transcriptId, cfg.parts, turns))
    requires forall f :: f in History(cfg, world, 0, InitialState(cfg, turns)) ==> !LeavesCalls(f)
    ensures FinishesOnce(RunOf(cfg, world, turns).events)
    ensures var all := Latest(RunOf(cfg, world, turns).events).run.state.turns;
            var body := all[LeadingSystemCount(all)..];
            Pieces(r, body).Ok? && (forall t :: t in body ==> FaithfulReplay(r, t)) ==>
              MessagesAnswered(RenderedOrError(r, native, body).value)
  {
    RunIsAnswered(cfg, world, turns);
    var all := Latest(RunOf(cfg, world, turns).events).run.state.turns;
    var body := all[LeadingSystemCount(all)..];
    assert all == all[..LeadingSystemCount(all)] + body;
    AnsweredSuffix(all[..LeadingSystemCount(all)], body);
    if Pieces(r, body).Ok? && forall t :: t in body ==> FaithfulReplay(r, t) {
      RenderedCallsAnswered(r, native, body);
    }
  }

  lemma RunIsAnswered<E>(cfg: Config, world: World<E>, turns: seq<Turn>)
    requires RunOf(cfg, world, turns).error.None? && CallsAnswered(Prepared(cfg.transcriptId, cfg.parts, turns))
    requires forall f :: f in History(cfg, world, 0, InitialState(cfg, turns)) ==> !LeavesCalls(f)
    ensures FinishesOnce(RunOf(cfg, world, turns).events)
    ensures CallsAnswered(Latest(RunOf(cfg, world, turns).events).run.state.turns)
  {
    TranscriptProtocol(cfg, world, turns);
    var start := Prepared(cfg.transcriptId, cfg.parts, turns);
    var all := Latest(RunOf(cfg, world, turns).events).run.state.turns;
    assert all == start + all[|start|..];
    AnsweredAppend(start, all[|start|..]);
  }
}
