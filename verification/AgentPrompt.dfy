/** The prompt that a run puts in front of an unmarked transcript, and what providers make of it. */
module AgentPrompt {
  import opened Prelude
  import opened Transcript
  import opened Agent

  // ---------------------------------------------------------------------------
  // The order of the parts
  // ---------------------------------------------------------------------------

  predicate Ordered(parts: seq<PromptPart>) {
    forall i, j :: 0 <= i < j < |parts| ==> parts[i].ordinal <= parts[j].ordinal
  }

  function WithOrdinal(parts: seq<PromptPart>, ordinal: int): seq<PromptPart> {
    Filter(parts, (p: PromptPart) => p.ordinal == ordinal)
  }

  lemma {:induction false} InsertKeeps(sorted: seq<PromptPart>, part: PromptPart)
    ensures multiset(InsertPart(sorted, part)) == multiset(sorted) + multiset{part}
    ensures forall p :: p in InsertPart(sorted, part) ==> p in sorted || p == part
  {
    if sorted != [] && Latest(sorted).ordinal > part.ordinal {
      InsertKeeps(Init(sorted), part);
      assert sorted == Init(sorted) + [Latest(sorted)];
    }
  }

  lemma {:induction false} InsertOrdered(sorted: seq<PromptPart>, part: PromptPart)
    requires Ordered(sorted)
    ensures Ordered(InsertPart(sorted, part))
  {
    if sorted != [] && Latest(sorted).ordinal > part.ordinal {
      InsertOrdered(Init(sorted), part);
      InsertKeeps(Init(sorted), part);
      var front := InsertPart(Init(sorted), part);
      forall i | 0 <= i < |front|
        ensures front[i].ordinal <= Latest(sorted).ordinal
      {
        assert front[i] in front;
      }
    }
  }

  lemma WithOrdinalAppend(a: seq<PromptPart>, p: PromptPart, ordinal: int)
    ensures WithOrdinal(a + [p], ordinal) == WithOrdinal(a, ordinal) + if p.ordinal == ordinal then [p] else []
  {
    var keep := (q: PromptPart) => q.ordinal == ordinal;
    FilterAppend(a, [p], keep);
    assert [p][1..] == [];
    assert Filter([p], keep) == (if keep(p) then [p] else []) + Filter([], keep);
  }

  lemma {:induction false} InsertStable(sorted: seq<PromptPart>, part: PromptPart, ordinal: int)
    ensures WithOrdinal(InsertPart(sorted, part), ordinal) == WithOrdinal(sorted + [part], ordinal)
  {
    if sorted != [] && Latest(sorted).ordinal > part.ordinal {
      var front, last := Init(sorted), Latest(sorted);
      InsertStable(front, part, ordinal);
      assert sorted == front + [last];
      WithOrdinalAppend(InsertPart(front, part), last, ordinal);
      WithOrdinalAppend(front, part, ordinal);
      WithOrdinalAppend(sorted, part, ordinal);
      WithOrdinalAppend(front, last, ordinal);
    }
  }

  /** Parts are sorted by ordinal, none lost or repeated, and parts of one ordinal keep their
      configured order. */
  lemma {:induction false} SortLaw(parts: seq<PromptPart>, ordinal: int)
    ensures Ordered(SortParts(parts)) && multiset(SortParts(parts)) == multiset(parts)
    ensures WithOrdinal(SortParts(parts), ordinal) == WithOrdinal(parts, ordinal)
  {
    if parts != [] {
      var front, last := Init(parts), Latest(parts);
      assert parts == front + [last];
      SortLaw(front, ordinal);
      InsertKeeps(SortParts(front), last);
      InsertOrdered(SortParts(front), last);
      InsertStable(SortParts(front), last, ordinal);
      WithOrdinalAppend(SortParts(front), last, ordinal);
      WithOrdinalAppend(front, last, ordinal);
    }
  }

  // ---------------------------------------------------------------------------
  // The prompt turns
  // ---------------------------------------------------------------------------

  lemma PartIsMarked(id: Option<string>, part: PromptPart)
    ensures IsMarked(PartTurn(id, part))
  {
    assert |"agent_instructions"| == 18 && |"agent_instruction_part"| == 22 && |"id"| == 2;
    assert |"agent_instruction_part_key"| == 26 && |"agent_instruction_part_ordinal"| == 30;
  }

  function PartTexts(parts: seq<PromptPart>): seq<string> {
    if parts == [] then [] else PartTexts(Init(parts)) + if Latest(parts).text == "" then [] else [Latest(parts).text]
  }

  lemma {:induction false} PartTurnsMarked(id: Option<string>, parts: seq<PromptPart>)
    ensures forall t :: t in PartTurns(id, parts) ==> IsMarked(t)
  {
    if parts != [] {
      PartTurnsMarked(id, Init(parts));
      PartIsMarked(id, Latest(parts));
    }
  }

  lemma TextsSnoc(turns: seq<Turn>, turn: Turn, text: string)
    requires turn.blocks == [Text(text)] && text != ""
    ensures Texts(turns + [turn]) == Texts(turns) + [text]
  {
    assert Init(turns + [turn]) == turns && Latest(turns + [turn]) == turn;
    assert Init([Text(text)]) == [] && Latest([Text(text)]) == Text(text);
    assert TextsOfBlocks([Text(text)]) == TextsOfBlocks([]) + [text];
  }

  lemma {:induction false} PartTurnsTexts(id: Option<string>, parts: seq<PromptPart>)
    ensures Texts(PartTurns(id, parts)) == PartTexts(parts)
  {
    if parts != [] {
      PartTurnsTexts(id, Init(parts));
      var front, turn := PartTurns(id, Init(parts)), PartTurn(id, Latest(parts));
      if Latest(parts).text != "" {
        TextsSnoc(front, turn, Latest(parts).text);
      } else {
        assert front + [] == front && PartTexts(Init(parts)) + [] == PartTexts(Init(parts));
      }
    }
  }

  /** A transcript whose instructions are persisted is left alone, whatever prompt the agent has
      now; and preparing a second time changes nothing. */
  lemma PreparedIsStable(id: Option<string>, parts: seq<PromptPart>, turns: seq<Turn>, now: seq<PromptPart>)
    ensures var prepared := Prepared(id, parts, turns);
            && Prepared(id, parts, prepared) == prepared
            && ((exists t :: t in prepared && IsMarked(t)) ==> Prepared(id, now, prepared) == prepared)
  {
    var prompt := PartTurns(id, SortParts(parts));
    PartTurnsMarked(id, SortParts(parts));
    if !(exists t :: t in turns && IsMarked(t)) {
      if prompt == [] {
        assert prompt + turns == turns;
      } else {
        assert prompt[0] in prompt + turns;
      }
    }
  }

  /** Providers hoist exactly the prompt turns out of a freshly prepared transcript, and the
      hoisted text is the non-empty parts in order. */
  lemma PreparedIsHoisted(id: Option<string>, parts: seq<PromptPart>, turns: seq<Turn>)
    requires forall t :: t in turns ==> !IsMarked(t)
    requires PartTexts(SortParts(parts)) != []
    ensures var prepared := Prepared(id, parts, turns); var prompt := PartTurns(id, SortParts(parts));
            && prepared == prompt + turns
            && LeadingSystemCount(prepared) == |prompt|
            && LeadingSystemText(prepared) == Some(Join(PartTexts(SortParts(parts)), "\n\n"))
  {
    var prompt := PartTurns(id, SortParts(parts));
    var prepared := prompt + turns;
    PartTurnsMarked(id, SortParts(parts));
    PartTurnsTexts(id, SortParts(parts));
    assert prompt != [];
    HoistedPart(prepared, |prompt|);
    assert prepared[..|prompt|] == prompt;
    SystemTextIff(prepared);
  }
}
