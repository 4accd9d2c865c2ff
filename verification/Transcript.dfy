/** The model-facing conversation of crates/chudbot-api/src/transcript.rs. */
module Transcript {
  import opened Prelude
  import opened ModelStep
  import Json

  datatype ToolContent = JsonContent(value: Json.Value) | TextContent(text: string)

  datatype ToolResult = ToolResult(toolUseId: string, content: ToolContent, isError: bool)

  /** A handle to media, named by its uri. */
  type Media = string

  datatype ContentBlock =
    | Text(text: string)
    | MediaBlock(media: Media)
    | ToolCall(call: ClientToolCall)
    | ToolAnswer(result: ToolResult)
    | Replay(continuation: ProviderContinuation)

  datatype Role = User | Assistant | System

  datatype Turn = Turn(role: Role, blocks: seq<ContentBlock>, metadata: Json.Value)

  predicate IsAgentInstruction(turn: Turn) { turn.metadata.Get("agent_instructions") == Some(Json.Bool(true)) }

  predicate IsMarked(turn: Turn) { turn.role == System && IsAgentInstruction(turn) }

  function MarkedPrefix(turns: seq<Turn>): (n: nat)
    ensures n <= |turns|
  {
    if turns == [] || !IsMarked(turns[0]) then 0 else 1 + MarkedPrefix(turns[1..])
  }

  /** How many turns a provider with one top-level system field hoists. */
  function LeadingSystemCount(turns: seq<Turn>): (n: nat)
    ensures n <= |turns|
  {
    if turns == [] || turns[0].role != System then 0
    else if IsAgentInstruction(turns[0]) then MarkedPrefix(turns)
    else 1
  }

  /** The non-empty texts of one turn and of several, in order. */
  function TextsOfBlocks(blocks: seq<ContentBlock>): seq<string> {
    if blocks == [] then []
    else
      TextsOfBlocks(Init(blocks))
      + if Latest(blocks).Text? && Latest(blocks).text != "" then [Latest(blocks).text] else []
  }

  function Texts(turns: seq<Turn>): seq<string> {
    if turns == [] then [] else Texts(Init(turns)) + TextsOfBlocks(Latest(turns).blocks)
  }

  function Join(parts: seq<string>, separator: string): string {
    if parts == [] then ""
    else if |parts| == 1 then parts[0]
    else parts[0] + separator + Join(parts[1..], separator)
  }

  function LeadingSystemText(turns: seq<Turn>): Option<string> {
    var text := Join(Texts(turns[..LeadingSystemCount(turns)]), "\n\n");
    if text == "" then None else Some(text)
  }

  // ---------------------------------------------------------------------------
  // What is hoisted
  // ---------------------------------------------------------------------------

  lemma {:induction false} MarkedPrefixIsMaximal(turns: seq<Turn>)
    ensures forall i :: 0 <= i < MarkedPrefix(turns) ==> IsMarked(turns[i])
    ensures MarkedPrefix(turns) < |turns| ==> !IsMarked(turns[MarkedPrefix(turns)])
  {
    if turns != [] && IsMarked(turns[0]) {
      MarkedPrefixIsMaximal(turns[1..]);
    }
  }

  /** The hoisted part is the maximal prefix of marked system turns, or else just an unmarked
      first system turn. */
  lemma HoistedPart(turns: seq<Turn>, n: nat)
    ensures n == LeadingSystemCount(turns) <==>
            if turns != [] && turns[0].role == System && !IsMarked(turns[0]) then n == 1
            else
              && n <= |turns|
              && (forall i :: 0 <= i < n ==> IsMarked(turns[i]))
              && (n < |turns| ==> !IsMarked(turns[n]))
  {
    MarkedPrefixIsMaximal(turns);
    var m := MarkedPrefix(turns);
    if n < m {
      assert IsMarked(turns[n]);
    }
  }

  lemma {:induction false} TextsAppend(a: seq<Turn>, b: seq<Turn>)
    ensures Texts(a + b) == Texts(a) + Texts(b)
    decreases |b|
  {
    if b == [] {
      assert a + b == a;
    } else {
      assert Init(a + b) == a + Init(b) && Latest(a + b) == Latest(b);
      TextsAppend(a, Init(b));
      Assoc(Texts(a), Texts(Init(b)), TextsOfBlocks(Latest(b).blocks));
    }
  }

  lemma {:induction false} TextsAreNonEmpty(turns: seq<Turn>)
    ensures forall t :: t in Texts(turns) ==> t != ""
  {
    if turns != [] {
      TextsAreNonEmpty(Init(turns));
      BlockTextsAreNonEmpty(Latest(turns).blocks);
    }
  }

  lemma {:induction false} BlockTextsAreNonEmpty(blocks: seq<ContentBlock>)
    ensures forall t :: t in TextsOfBlocks(blocks) ==> t != ""
  {
    if blocks != [] {
      BlockTextsAreNonEmpty(Init(blocks));
    }
  }

  /** There is a system text exactly when a hoisted turn has one. */
  lemma SystemTextIff(turns: seq<Turn>)
    ensures LeadingSystemText(turns).Some? <==> Texts(turns[..LeadingSystemCount(turns)]) != []
  {
    var texts := Texts(turns[..LeadingSystemCount(turns)]);
    TextsAreNonEmpty(turns[..LeadingSystemCount(turns)]);
    if texts != [] {
      assert texts[0] in texts;
      assert |Join(texts, "\n\n")| >= |texts[0]| > 0;
    }
  }
}
