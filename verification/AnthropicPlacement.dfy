/** Where rendering puts content: placement rules, and what never moves or gets lost. */
module AnthropicPlacement {
  import opened Prelude
  import opened Transcript
  import opened AnthropicStream
  import opened AnthropicMessages

  // ---------------------------------------------------------------------------
  // Placement rules
  // ---------------------------------------------------------------------------

  /** A system message never comes first or behind another; it follows a user message or an
      assistant message that ends in a server tool use. */
  predicate FollowsWell(ms: seq<Message>, k: nat)
    requires k < |ms|
  {
    ms[k].role.SystemMessage? ==>
      && k > 0
      && (ms[k - 1].role.UserMessage? || (ms[k - 1].role.AssistantMessage? && EndsWithServerToolUse(ms[k - 1])))
  }

  /** It precedes an assistant message or the end. */
  predicate PrecedesWell(ms: seq<Message>, k: nat)
    requires k < |ms|
  {
    ms[k].role.SystemMessage? ==> k + 1 == |ms| || ms[k + 1].role.AssistantMessage?
  }

  predicate WellPlaced(ms: seq<Message>) {
    forall k :: 0 <= k < |ms| ==> FollowsWell(ms, k) && PrecedesWell(ms, k)
  }

  predicate EndsOpen(ms: seq<Message>) { ms == [] || !Latest(ms).role.SystemMessage? }

  lemma PushKeeps(ms: seq<Message>, m: Message)
    requires WellPlaced(ms)
    requires if m.role.SystemMessage? then CanAppendSystemMessage(ms) else m.role.AssistantMessage? || EndsOpen(ms)
    ensures WellPlaced(ms + [m])
  {
    var all := ms + [m];
    forall k | 0 <= k < |all|
      ensures FollowsWell(all, k) && PrecedesWell(all, k)
    {
      if k < |ms| {
        assert FollowsWell(ms, k) && PrecedesWell(ms, k);
      }
    }
  }

  lemma FlushKeeps(p: Placed)
    requires WellPlaced(p.messages) && EndsOpen(p.messages)
    ensures WellPlaced(Flushed(p).messages)
  {
    if p.pending != [] {
      PushKeeps(p.messages, Notes(p.messages, p.pending)[0]);
    } else {
      assert p.messages + [] == p.messages;
    }
  }

  lemma {:induction false} PlaceAllKeeps(native: bool, pieces: seq<Piece>)
    ensures WellPlaced(PlaceAll(native, pieces).messages) && EndsOpen(PlaceAll(native, pieces).messages)
    ensures !native ==> PlaceAll(native, pieces).pending == []
  {
    if pieces != [] {
      PlaceAllKeeps(native, Init(pieces));
      var p, piece := PlaceAll(native, Init(pieces)), Latest(pieces);
      match piece.role {
        case System => PushKeeps(p.messages, Message(UserMessage, piece.content));
        case User => PushKeeps(p.messages, Message(UserMessage, piece.content));
        case Assistant =>
          FlushKeeps(p);
          var q := if native then Flushed(p) else p;
          PushKeeps(q.messages, Message(AssistantMessage, piece.content));
      }
    }
  }

  lemma {:induction false} NoSystemWhenLowered(pieces: seq<Piece>)
    ensures forall m :: m in Rendered(false, pieces) ==> !m.role.SystemMessage?
  {
    if pieces != [] {
      NoSystemWhenLowered(Init(pieces));
    }
  }

  /** Every rendered transcript meets the placement rules; without native support there are no
      system messages at all. */
  lemma PlacementRules(native: bool, pieces: seq<Piece>)
    ensures WellPlaced(Rendered(native, pieces))
    ensures !native ==> forall m :: m in Rendered(native, pieces) ==> !m.role.SystemMessage?
  {
    PlaceAllKeeps(native, pieces);
    FlushKeeps(PlaceAll(native, pieces));
    NoSystemWhenLowered(pieces);
  }

  // ---------------------------------------------------------------------------
  // The layout between two assistant turns
  // ---------------------------------------------------------------------------

  /** Contents of the system pieces, and messages of the user pieces. */
  function SystemContent(pieces: seq<Piece>): seq<Value> {
    if pieces == [] then []
    else SystemContent(Init(pieces)) + if Latest(pieces).role == System then Latest(pieces).content else []
  }

  function UserMessages(pieces: seq<Piece>): seq<Message> {
    if pieces == [] then []
    else
      UserMessages(Init(pieces))
      + if Latest(pieces).role == User then [Message(UserMessage, Latest(pieces).content)] else []
  }

  predicate ClosedByAssistant(pieces: seq<Piece>) { pieces == [] || Latest(pieces).role == Assistant }

  lemma ClosedHasNoPending(pieces: seq<Piece>)
    requires ClosedByAssistant(pieces)
    ensures PlaceAll(true, pieces) == Placed(Rendered(true, pieces), [])
  {
    var p := PlaceAll(true, pieces);
    assert p.pending == [] && p.messages + [] == p.messages;
  }

  lemma {:induction false} StretchState(front: seq<Piece>, stretch: seq<Piece>)
    requires ClosedByAssistant(front) && forall p :: p in stretch ==> p.role != Assistant
    ensures PlaceAll(true, front + stretch) ==
            Placed(Rendered(true, front) + UserMessages(stretch), SystemContent(stretch))
    decreases |stretch|
  {
    if stretch == [] {
      assert front + stretch == front;
      ClosedHasNoPending(front);
      assert Rendered(true, front) + [] == Rendered(true, front);
    } else {
      assert Init(front + stretch) == front + Init(stretch) && Latest(front + stretch) == Latest(stretch);
      assert Latest(stretch) in stretch;
      StretchState(front, Init(stretch));
      if Latest(stretch).role == User {
        Assoc(Rendered(true, front), UserMessages(Init(stretch)), [Message(UserMessage, Latest(stretch).content)]);
        assert SystemContent(Init(stretch)) + [] == SystemContent(Init(stretch));
      } else {
        assert UserMessages(Init(stretch)) + [] == UserMessages(Init(stretch));
      }
    }
  }

  lemma AssistantCloses(native: bool, pieces: seq<Piece>, piece: Piece)
    requires piece.role == Assistant
    ensures PlaceAll(native, pieces + [piece]).messages ==
            Rendered(native, pieces) + [Message(AssistantMessage, piece.content)]
  {
    assert Init(pieces + [piece]) == pieces;
  }

  lemma StretchRendered(front: seq<Piece>, stretch: seq<Piece>)
    requires ClosedByAssistant(front) && forall p :: p in stretch ==> p.role != Assistant
    ensures var before := Rendered(true, front) + UserMessages(stretch);
            Rendered(true, front + stretch) == before + Notes(before, SystemContent(stretch))
  {
    StretchState(front, stretch);
    var before, pending := Rendered(true, front) + UserMessages(stretch), SystemContent(stretch);
    assert Flushed(Placed(before, pending)) == Placed(before + Notes(before, pending), []);
  }

  /** On native-system models, what stands between one assistant turn and the next is: the user
      messages in transcript order, then all system content in one message, as a system message
      wherever that is allowed. */
  lemma StretchLayout(front: seq<Piece>, stretch: seq<Piece>, piece: Piece)
    requires ClosedByAssistant(front) && forall p :: p in stretch ==> p.role != Assistant
    ensures var before := Rendered(true, front) + UserMessages(stretch);
            && Rendered(true, front + stretch) == before + Notes(before, SystemContent(stretch))
            && (piece.role == Assistant ==>
                  Rendered(true, front + stretch + [piece]) ==
                  before + Notes(before, SystemContent(stretch)) + [Message(AssistantMessage, piece.content)])
  {
    StretchRendered(front, stretch);
    if piece.role == Assistant {
      var all := front + stretch + [piece];
      AssistantCloses(true, front + stretch, piece);
      assert Latest(all) == piece;
      ClosedHasNoPending(all);
    }
  }

  // ---------------------------------------------------------------------------
  // Nothing crosses an assistant turn
  // ---------------------------------------------------------------------------

  function BlocksIn(pieces: seq<Piece>): seq<Value> {
    if pieces == [] then [] else BlocksIn(Init(pieces)) + Latest(pieces).content
  }

  lemma FlushedBlocks(p: Placed)
    ensures ContentOf(Flushed(p).messages) == ContentOf(p.messages) + p.pending
  {
    if p.pending == [] {
      assert p.messages + [] == p.messages;
      assert ContentOf(p.messages) + [] == ContentOf(p.messages);
    } else {
      ContentOfSnoc(p.messages, Notes(p.messages, p.pending)[0]);
    }
  }

  lemma PlaceConserves(native: bool, p: Placed, piece: Piece)
    ensures var q := Place(native, p, piece);
            if piece.role == System && native
            then ContentOf(q.messages) == ContentOf(p.messages) && q.pending == p.pending + piece.content
            else if piece.role == Assistant && native
            then ContentOf(q.messages) == ContentOf(p.messages) + p.pending + piece.content && q.pending == []
            else ContentOf(q.messages) == ContentOf(p.messages) + piece.content && q.pending == p.pending
  {
    match piece.role {
      case System => ContentOfSnoc(p.messages, Message(UserMessage, piece.content));
      case User => ContentOfSnoc(p.messages, Message(UserMessage, piece.content));
      case Assistant =>
        FlushedBlocks(p);
        ContentOfSnoc((if native then Flushed(p) else p).messages, Message(AssistantMessage, piece.content));
    }
  }

  /** Messages and pending content together hold the content seen so far; in transcript order
      when nothing waits. */
  lemma {:induction false} PlaceAllConserves(native: bool, pieces: seq<Piece>)
    ensures var p := PlaceAll(native, pieces);
            && multiset(ContentOf(p.messages)) + multiset(p.pending) == multiset(BlocksIn(pieces))
            && (!native ==> ContentOf(p.messages) == BlocksIn(pieces) && p.pending == [])
  {
    if pieces != [] {
      PlaceAllConserves(native, Init(pieces));
      PlaceConserves(native, PlaceAll(native, Init(pieces)), Latest(pieces));
    }
  }

  /** Rendering keeps every content block exactly once; without native support, in order. */
  lemma RenderingConserves(native: bool, pieces: seq<Piece>)
    ensures multiset(ContentOf(Rendered(native, pieces))) == multiset(BlocksIn(pieces))
    ensures !native ==> ContentOf(Rendered(native, pieces)) == BlocksIn(pieces)
  {
    PlaceAllConserves(native, pieces);
    FlushedBlocks(PlaceAll(native, pieces));
  }

  function AssistantPieces(pieces: seq<Piece>): seq<seq<Value>> {
    if pieces == [] then []
    else AssistantPieces(Init(pieces)) + if Latest(pieces).role == Assistant then [Latest(pieces).content] else []
  }

  function AssistantContents(ms: seq<Message>): seq<seq<Value>> {
    if ms == [] then []
    else AssistantContents(Init(ms)) + if Latest(ms).role.AssistantMessage? then [Latest(ms).content] else []
  }

  lemma AssistantSnoc(ms: seq<Message>, m: Message)
    ensures AssistantContents(ms + [m]) == AssistantContents(ms) + if m.role.AssistantMessage? then [m.content] else []
  {
    assert Init(ms + [m]) == ms;
  }

  lemma FlushedAssistants(p: Placed)
    ensures AssistantContents(Flushed(p).messages) == AssistantContents(p.messages)
  {
    if p.pending == [] {
      assert p.messages + [] == p.messages;
    } else {
      AssistantSnoc(p.messages, Notes(p.messages, p.pending)[0]);
    }
  }

  /** The assistant messages are the assistant turns, in order. */
  lemma {:induction false} AssistantsInOrder(native: bool, pieces: seq<Piece>)
    ensures AssistantContents(PlaceAll(native, pieces).messages) == AssistantPieces(pieces)
    ensures AssistantContents(Rendered(native, pieces)) == AssistantPieces(pieces)
  {
    FlushedAssistants(PlaceAll(native, pieces));
    if pieces != [] {
      AssistantsInOrder(native, Init(pieces));
      var p, piece := PlaceAll(native, Init(pieces)), Latest(pieces);
      match piece.role {
        case System => AssistantSnoc(p.messages, Message(UserMessage, piece.content));
        case User => AssistantSnoc(p.messages, Message(UserMessage, piece.content));
        case Assistant =>
          FlushedAssistants(p);
          var q := if native then Flushed(p) else p;
          AssistantSnoc(q.messages, Message(AssistantMessage, piece.content));
      }
    }
  }

  lemma {:induction false} MessagesGrow(native: bool, pieces: seq<Piece>, i: nat)
    requires i <= |pieces|
    ensures PlaceAll(native, pieces[..i]).messages <= PlaceAll(native, pieces).messages <= Rendered(native, pieces)
    decreases |pieces|
  {
    if i == |pieces| {
      assert pieces[..i] == pieces;
    } else {
      MessagesGrow(native, Init(pieces), i);
      assert Init(pieces)[..i] == pieces[..i];
    }
  }

  lemma PrefixOfLonger<T>(a: seq<T>, x: T, b: seq<T>)
    requires a + [x] <= b
    ensures |a| < |b| && b[|a|] == x && b[..|a|] == a
  {
    assert (a + [x])[|a|] == x;
  }

  /** Before the message of an assistant turn stands exactly the content that stood before the
      turn, and as many assistant messages. */
  lemma NothingCrosses(native: bool, pieces: seq<Piece>, i: nat) returns (j: nat)
    requires i < |pieces| && pieces[i].role == Assistant
    ensures var ms := Rendered(native, pieces);
            && j < |ms| && ms[j] == Message(AssistantMessage, pieces[i].content)
            && multiset(ContentOf(ms[..j])) == multiset(BlocksIn(pieces[..i]))
            && AssistantContents(ms[..j]) == AssistantPieces(pieces[..i])
  {
    var before := Rendered(native, pieces[..i]);
    assert pieces[..i + 1] == pieces[..i] + [pieces[i]];
    AssistantCloses(native, pieces[..i], pieces[i]);
    MessagesGrow(native, pieces, i + 1);
    PrefixOfLonger(before, Message(AssistantMessage, pieces[i].content), Rendered(native, pieces));
    RenderingConserves(native, pieces[..i]);
    AssistantsInOrder(native, pieces[..i]);
    j := |before|;
  }

  // ---------------------------------------------------------------------------
  // No text is lost
  // ---------------------------------------------------------------------------

  function TextOfValue(v: Value): seq<string> {
    if v.GetStr("type") == Some("text") && v.GetStr("text").Some? then [v.GetStr("text").value] else []
  }

  function TextsIn(values: seq<Value>): seq<string> {
    if values == [] then [] else TextsIn(Init(values)) + TextOfValue(Latest(values))
  }

  lemma {:induction false} TextsInAppend(a: seq<Value>, b: seq<Value>)
    ensures TextsIn(a + b) == TextsIn(a) + TextsIn(b)
    decreases |b|
  {
    if b == [] {
      assert a + b == a;
    } else {
      assert Init(a + b) == a + Init(b) && Latest(a + b) == Latest(b);
      TextsInAppend(a, Init(b));
    }
  }

  lemma BlockValueTexts(r: Renderer, block: ContentBlock)
    requires BlockValues(r, block).Ok?
    ensures TextsIn(BlockValues(r, block).value) == if block.Text? && block.text != "" then [block.text] else []
  {
    var values := BlockValues(r, block).value;
    assert "type"[1] != "text"[1];
    assert |"type"| == 4 && |"text"| == 4 && |"image"| == 5 && |"tool_use"| == 8 && |"tool_result"| == 11;
    assert |"source"| == 6 && |"id"| == 2 && "name"[0] != "type"[0] && |"input"| == 5;
    assert |"tool_use_id"| == 11 && |"content"| == 7 && |"is_error"| == 8;
    if values != [] {
      assert Init(values) == [] && Latest(values) == values[0];
    }
  }

  lemma {:induction false} FreshTexts(r: Renderer, blocks: seq<ContentBlock>)
    requires FreshContent(r, blocks).Ok?
    ensures TextsIn(FreshContent(r, blocks).value) == TextsOfBlocks(blocks)
  {
    if blocks != [] {
      FreshTexts(r, Init(blocks));
      BlockValueTexts(r, Latest(blocks));
      TextsInAppend(FreshContent(r, Init(blocks)).value, BlockValues(r, Latest(blocks)).value);
    }
  }

  /** No turn replays content of this provider. */
  predicate NothingReplayed(r: Renderer, turns: seq<Turn>) {
    forall t :: t in turns ==> ContinuationContent(r.provider, t.blocks) == []
  }

  lemma {:induction false} PieceTexts(r: Renderer, turns: seq<Turn>)
    requires NothingReplayed(r, turns) && Pieces(r, turns).Ok?
    ensures TextsIn(BlocksIn(Pieces(r, turns).value)) == Texts(turns)
  {
    if turns != [] {
      var turn, before := Latest(turns), Pieces(r, Init(turns)).value;
      assert turn in turns;
      PieceTexts(r, Init(turns));
      FreshTexts(r, turn.blocks);
      var content := TurnContent(r, turn).value;
      if content != [] {
        assert Init(before + [Piece(turn.role, content)]) == before;
        TextsInAppend(BlocksIn(before), content);
      } else {
        assert TextsIn([]) == [] && Texts(Init(turns)) + [] == Texts(Init(turns));
      }
    }
  }

  lemma PlaceTexts(native: bool, p: Placed, piece: Piece)
    ensures var q := Place(native, p, piece);
            multiset(TextsIn(ContentOf(q.messages))) + multiset(TextsIn(q.pending)) ==
            multiset(TextsIn(ContentOf(p.messages))) + multiset(TextsIn(p.pending)) + multiset(TextsIn(piece.content))
  {
    PlaceConserves(native, p, piece);
    var done := ContentOf(p.messages);
    TextsInAppend(p.pending, piece.content);
    TextsInAppend(done, p.pending);
    TextsInAppend(done + p.pending, piece.content);
    TextsInAppend(done, piece.content);
  }

  lemma {:induction false} TextsConserved(native: bool, pieces: seq<Piece>)
    ensures var p := PlaceAll(native, pieces);
            multiset(TextsIn(ContentOf(p.messages))) + multiset(TextsIn(p.pending)) ==
            multiset(TextsIn(BlocksIn(pieces)))
  {
    if pieces != [] {
      TextsConserved(native, Init(pieces));
      PlaceTexts(native, PlaceAll(native, Init(pieces)), Latest(pieces));
      TextsInAppend(BlocksIn(Init(pieces)), Latest(pieces).content);
    }
  }

  lemma RenderedTexts(native: bool, pieces: seq<Piece>)
    ensures multiset(TextsIn(ContentOf(Rendered(native, pieces)))) == multiset(TextsIn(BlocksIn(pieces)))
  {
    var p := PlaceAll(native, pieces);
    TextsConserved(native, pieces);
    PlaceAllKeeps(native, pieces);
    FlushedBlocks(p);
    TextsInAppend(ContentOf(p.messages), p.pending);
  }

  /** Hoisted text and rendered messages hold every non-empty text block of the transcript
      exactly once; without native support, in transcript order. */
  lemma NoTextIsLost(r: Renderer, native: bool, turns: seq<Turn>)
    requires var body := turns[LeadingSystemCount(turns)..]; NothingReplayed(r, body) && Pieces(r, body).Ok?
    ensures var hoisted := Texts(turns[..LeadingSystemCount(turns)]);
            var rendered := TextsIn(ContentOf(RenderedOrError(r, native, turns[LeadingSystemCount(turns)..]).value));
            && LeadingSystemText(turns) == (if hoisted == [] then None else Some(Join(hoisted, "\n\n")))
            && multiset(hoisted) + multiset(rendered) == multiset(Texts(turns))
            && (!native ==> hoisted + rendered == Texts(turns))
  {
    var n := LeadingSystemCount(turns);
    var body := turns[n..];
    var pieces := Pieces(r, body).value;
    assert turns == turns[..n] + body;
    TextsAppend(turns[..n], body);
    PieceTexts(r, body);
    RenderingConserves(native, pieces);
    RenderedTexts(native, pieces);
    SystemTextIff(turns);
  }
}
