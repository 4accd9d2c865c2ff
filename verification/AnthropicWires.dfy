/** What a conforming stream stores and emits, read off the events the server sent. */
module AnthropicWires {
  import opened Prelude
  import opened ModelStep
  import opened AnthropicStream
  import opened AnthropicRun
  import Json

  // ---------------------------------------------------------------------------
  // Reading the wires
  // ---------------------------------------------------------------------------

  /** A block start: index and initial content. */
  datatype Start = Start(index: nat, raw: Value)

  function Started(wires: seq<Wire>): seq<Start> {
    if wires == [] then []
    else
      Started(Init(wires))
      + if Latest(wires).BlockStart? then [Start(Latest(wires).index, Latest(wires).raw)] else []
  }

  function SentBy(w: Wire, index: nat): string {
    if w.BlockDelta? && w.index == index && w.part.InputPart? then w.part.json else ""
  }

  /** The argument text sent for a block. */
  function Sent(wires: seq<Wire>, index: nat): string {
    if wires == [] then "" else Sent(Init(wires), index) + SentBy(Latest(wires), index)
  }

  predicate SendsText(w: Wire, index: nat) {
    || (w.BlockStart? && w.index == index && StartText(w.raw) != "")
    || (w.BlockDelta? && w.index == index && w.part.TextPart?)
  }

  predicate SendsSignature(w: Wire, index: nat) { w.BlockDelta? && w.index == index && w.part.SignaturePart? }

  predicate SendsThinking(w: Wire) { w.BlockDelta? && w.part.ThinkingPart? }

  /** Some event sends text for a block, a signature for a block, or thinking. */
  predicate TextSent(wires: seq<Wire>, index: nat) {
    wires != [] && (TextSent(Init(wires), index) || SendsText(Latest(wires), index))
  }

  predicate SignatureSent(wires: seq<Wire>, index: nat) {
    wires != [] && (SignatureSent(Init(wires), index) || SendsSignature(Latest(wires), index))
  }

  predicate ThinkingSent(wires: seq<Wire>) {
    wires != [] && (ThinkingSent(Init(wires)) || SendsThinking(Latest(wires)))
  }

  // ---------------------------------------------------------------------------
  // A stored block against its start
  // ---------------------------------------------------------------------------

  predicate SameNaming(a: Value, b: Value) {
    && (a.Obj? <==> b.Obj?)
    && a.GetStr("type") == b.GetStr("type") && a.GetStr("id") == b.GetStr("id") && a.GetStr("name") == b.GetStr("name")
    && a.Get("summary") == b.Get("summary")
  }

  predicate Mirrors(wires: seq<Wire>, e: Entry, s: Start) {
    && e.index == s.index && SameNaming(e.block.raw, s.raw)
    && e.block.inputJson == Sent(wires, s.index)
    && (!ThinkingSent(wires) ==> e.block.raw.Get("thinking") == s.raw.Get("thinking"))
    && (e.block.raw.Get("signature").Some? <==>
          s.raw.Get("signature").Some? || (s.raw.Obj? && SignatureSent(wires, s.index)))
  }

  /** The stored input of a tool block: what its arguments parse to, once it has stopped. */
  predicate InputStored(env: Env, wires: seq<Wire>, e: Entry, closed: bool) {
    HasType(e.block.raw, "tool_use") ==>
      e.block.raw.Get("input") ==
      if closed && !Json.IsBlank(Sent(wires, e.index)) then env.codec.parse(Sent(wires, e.index)) else Some(Json.EMPTY)
  }

  predicate Closed(es: seq<Entry>, phase: Phase, k: nat) { phase.Between? || k + 1 < |es| }

  predicate Reflects(env: Env, wires: seq<Wire>, es: seq<Entry>, phase: Phase) {
    && |es| == |Started(wires)|
    && forall k :: 0 <= k < |es| ==>
         Mirrors(wires, es[k], Started(wires)[k]) && InputStored(env, wires, es[k], Closed(es, phase, k))
  }

  /** Deltas sent so far concern indices below the bound. */
  predicate Reached(w: Wire, bound: nat) { w.BlockDelta? ==> w.index < bound }

  function BoundOf(phase: Phase): nat { match phase case Between(next) => next case Inside(index, _) => index + 1 }

  lemma {:induction false} DeltasReached(wires: seq<Wire>)
    requires PhaseAfter(wires).Some?
    ensures forall w :: w in wires ==> Reached(w, BoundOf(PhaseAfter(wires).value))
  {
    if wires != [] {
      DeltasReached(Init(wires));
      assert wires == Init(wires) + [Latest(wires)];
    }
  }

  lemma {:induction false} NothingSentBeyond(wires: seq<Wire>, index: nat)
    requires forall w :: w in wires ==> Reached(w, index)
    ensures Sent(wires, index) == "" && !SignatureSent(wires, index)
  {
    if wires != [] {
      assert Latest(wires) in wires && forall w :: w in Init(wires) ==> w in wires;
      NothingSentBeyond(Init(wires), index);
    }
  }

  // ---------------------------------------------------------------------------
  // One more event
  // ---------------------------------------------------------------------------

  lemma SentSnoc(wires: seq<Wire>, w: Wire, index: nat)
    ensures Sent(wires + [w], index) == Sent(wires, index) + SentBy(w, index)
    ensures SignatureSent(wires + [w], index) <==> SignatureSent(wires, index) || SendsSignature(w, index)
    ensures TextSent(wires + [w], index) <==> TextSent(wires, index) || SendsText(w, index)
    ensures ThinkingSent(wires + [w]) <==> ThinkingSent(wires) || SendsThinking(w)
    ensures Started(wires + [w]) == Started(wires) + if w.BlockStart? then [Start(w.index, w.raw)] else []
  {
    assert Init(wires + [w]) == wires && Latest(wires + [w]) == w;
  }

  /** An event about another block changes nothing for this one. */
  lemma OthersMirror(env: Env, wires: seq<Wire>, w: Wire, e: Entry, s: Start, closed: bool)
    requires Mirrors(wires, e, s) && InputStored(env, wires, e, closed)
    requires w.BlockDelta? ==> w.index != s.index
    ensures Mirrors(wires + [w], e, s) && InputStored(env, wires + [w], e, closed)
  {
    SentSnoc(wires, w, s.index);
    assert Sent(wires, s.index) + "" == Sent(wires, s.index);
  }

  lemma StartMirrors(env: Env, wires: seq<Wire>, index: nat, raw: Value)
    requires forall w :: w in wires ==> Reached(w, index)
    requires GoodStart(raw)
    ensures var w := BlockStart(index, raw); var e := Entry(index, Block(raw, "", false));
            Mirrors(wires + [w], e, Start(index, raw)) && InputStored(env, wires + [w], e, false)
  {
    NothingSentBeyond(wires, index);
    SentSnoc(wires, BlockStart(index, raw), index);
  }

  lemma PartKeepsNaming(block: Block, part: Part)
    ensures var after := BlockAfter(block, part);
            && SameNaming(after.raw, block.raw) && after.raw.Get("input") == block.raw.Get("input")
            && (!part.ThinkingPart? ==> after.raw.Get("thinking") == block.raw.Get("thinking"))
            && (after.raw.Get("signature").Some? <==>
                  block.raw.Get("signature").Some? || (block.raw.Obj? && part.SignaturePart?))
  {
    BlockAfterShape(block, part);
    assert "summary" !in {"text", "thinking", "signature"} by {
      assert |"summary"| == 7 && |"text"| == 4 && |"thinking"| == 8 && |"signature"| == 9;
    }
    assert "thinking" !in {"text", "signature"} && "signature" !in {"text", "thinking"} by {
      assert |"text"| == 4 && |"thinking"| == 8 && |"signature"| == 9;
    }
  }

  lemma DeltaMirrors(env: Env, wires: seq<Wire>, e: Entry, s: Start, part: Part)
    requires Mirrors(wires, e, s) && InputStored(env, wires, e, false)
    ensures var w := BlockDelta(s.index, part); var next := Entry(e.index, BlockAfter(e.block, part));
            Mirrors(wires + [w], next, s) && InputStored(env, wires + [w], next, false)
  {
    PartKeepsNaming(e.block, part);
    SentSnoc(wires, BlockDelta(s.index, part), s.index);
    assert Sent(wires, s.index) + "" == Sent(wires, s.index);
  }

  lemma StopKeepsNaming(env: Env, block: Block)
    requires StopRaw(env, block).Some?
    ensures var raw := StopRaw(env, block).value;
            && SameNaming(raw, block.raw)
            && raw.Get("thinking") == block.raw.Get("thinking") && raw.Get("signature") == block.raw.Get("signature")
            && (block.raw.Obj? ==>
                  (raw.Get("input") ==
                   if Json.IsBlank(block.inputJson) then block.raw.Get("input") else env.codec.parse(block.inputJson)))
  {
    StopShape(env, block);
    assert "input" !in {"summary", "thinking", "signature"} by {
      assert |"input"| == 5 && |"summary"| == 7 && |"thinking"| == 8 && |"signature"| == 9;
    }
  }

  lemma StopMirrors(env: Env, wires: seq<Wire>, e: Entry, s: Start)
    requires Mirrors(wires, e, s) && InputStored(env, wires, e, false) && StopRaw(env, e.block).Some?
    ensures var w := BlockStop(s.index); var next := Entry(e.index, e.block.(raw := StopRaw(env, e.block).value));
            Mirrors(wires + [w], next, s) && InputStored(env, wires + [w], next, true)
  {
    StopKeepsNaming(env, e.block);
    SentSnoc(wires, BlockStop(s.index), s.index);
    assert Sent(wires, s.index) + "" == Sent(wires, s.index);
  }

  // ---------------------------------------------------------------------------
  // All stored blocks
  // ---------------------------------------------------------------------------

  /** How an event changes the stored blocks of a conforming run. */
  lemma BlocksChange(env: Env, st: StreamState, phase: Phase, w: Wire)
    requires LastIsOpen(st.blocks, phase) && PhaseStep(phase, w).Some? && ApplyOpen(env, st, w).result.Ok?
    ensures var es, next := st.blocks, ApplyOpen(env, st, w).state.blocks;
            match w {
              case BlockStart(index, raw) => next == es + [Entry(index, Block(raw, "", false))]
              case BlockDelta(index, part) =>
                && es != [] && Latest(es).index == index
                && next == Init(es) + [Entry(index, BlockAfter(Latest(es).block, part))]
              case BlockStop(index) =>
                && es != [] && Latest(es).index == index && StopRaw(env, Latest(es).block).Some?
                && next == Init(es) + [Entry(index, Latest(es).block.(raw := StopRaw(env, Latest(es).block).value))]
              case _ => next == es
            }
  {
    match w {
      case BlockStart(index, raw) => PutLast(st.blocks, index, Block(raw, "", false));
      case BlockDelta(index, part) => LastEntry(st.blocks, BlockAfter(Latest(st.blocks).block, part));
      case BlockStop(index) =>
        LastEntry(st.blocks, Latest(st.blocks).block);
        LastEntry(st.blocks, Latest(st.blocks).block.(raw := StopRaw(env, Latest(st.blocks).block).value));
      case _ =>
    }
  }

  lemma FrontReflects(env: Env, wires: seq<Wire>, es: seq<Entry>, phase: Phase, w: Wire, k: nat)
    requires Reflects(env, wires, es, phase) && k < |es| && (w.BlockDelta? ==> w.index != es[k].index)
    ensures Mirrors(wires + [w], es[k], Started(wires)[k]) && InputStored(env, wires + [w], es[k], Closed(es, phase, k))
    ensures k < |Started(wires + [w])| && Started(wires + [w])[k] == Started(wires)[k]
  {
    OthersMirror(env, wires, w, es[k], Started(wires)[k], Closed(es, phase, k));
    SentSnoc(wires, w, 0);
  }

  lemma StartReflects(env: Env, wires: seq<Wire>, es: seq<Entry>, phase: Phase, index: nat, raw: Value)
    requires Reflects(env, wires, es, phase) && phase.Between? && GoodStart(raw)
    requires forall w :: w in wires ==> Reached(w, index)
    ensures Reflects(env, wires + [BlockStart(index, raw)], es + [Entry(index, Block(raw, "", false))],
                     Inside(index, raw.GetStr("type")))
  {
    var w := BlockStart(index, raw);
    StartMirrors(env, wires, index, raw);
    SentSnoc(wires, w, index);
    forall k | 0 <= k < |es|
      ensures Mirrors(wires + [w], es[k], Started(wires + [w])[k]) && InputStored(env, wires + [w], es[k], true)
    {
      FrontReflects(env, wires, es, phase, w, k);
    }
  }

  /** The last block is replaced; the others are about other indices. */
  lemma LastReflects(env: Env, wires: seq<Wire>, es: seq<Entry>, phase: Phase, w: Wire, next: Entry, after: Phase)
    requires Reflects(env, wires, es, phase) && es != [] && !w.BlockStart? && phase.Inside?
    requires w.BlockDelta? ==> Below(Init(es), w.index)
    requires Mirrors(wires + [w], next, Latest(Started(wires)))
    requires InputStored(env, wires + [w], next, after.Between?)
    ensures Reflects(env, wires + [w], Init(es) + [next], after)
  {
    SentSnoc(wires, w, 0);
    assert Started(wires + [w]) == Started(wires);
    var all := Init(es) + [next];
    forall k | 0 <= k < |all|
      ensures Mirrors(wires + [w], all[k], Started(wires)[k])
              && InputStored(env, wires + [w], all[k], Closed(all, after, k))
    {
      if k < |es| - 1 {
        assert es[k] in Init(es);
        FrontReflects(env, wires, es, phase, w, k);
      }
    }
  }

  lemma OtherReflects(env: Env, wires: seq<Wire>, es: seq<Entry>, phase: Phase, w: Wire)
    requires Reflects(env, wires, es, phase) && !w.BlockStart? && !w.BlockDelta?
    ensures Reflects(env, wires + [w], es, phase)
  {
    SentSnoc(wires, w, 0);
    assert Started(wires + [w]) == Started(wires);
    forall k | 0 <= k < |es|
      ensures Mirrors(wires + [w], es[k], Started(wires)[k])
              && InputStored(env, wires + [w], es[k], Closed(es, phase, k))
    {
      FrontReflects(env, wires, es, phase, w, k);
    }
  }

  lemma StepReflects(env: Env, wires: seq<Wire>, st: StreamState, phase: Phase, w: Wire)
    requires Reflects(env, wires, st.blocks, phase) && LastIsOpen(st.blocks, phase)
    requires forall v :: v in wires ==> Reached(v, BoundOf(phase))
    requires PhaseStep(phase, w).Some? && ApplyOpen(env, st, w).result.Ok?
    ensures Reflects(env, wires + [w], ApplyOpen(env, st, w).state.blocks, PhaseStep(phase, w).value)
  {
    var es := st.blocks;
    BlocksChange(env, st, phase, w);
    match w {
      case BlockStart(index, raw) => StartReflects(env, wires, es, phase, index, raw);
      case BlockDelta(index, part) =>
        DeltaMirrors(env, wires, Latest(es), Latest(Started(wires)), part);
        LastReflects(env, wires, es, phase, w, Entry(index, BlockAfter(Latest(es).block, part)), phase);
      case BlockStop(index) =>
        StopMirrors(env, wires, Latest(es), Latest(Started(wires)));
        LastReflects(env, wires, es, phase, w,
                     Entry(index, Latest(es).block.(raw := StopRaw(env, Latest(es).block).value)),
                     Between(index + 1));
      case _ => OtherReflects(env, wires, es, phase, w);
    }
  }

  /** Along every conforming run the stored blocks are the started ones, with what was sent for
      them. */
  lemma {:induction false} RunReflects(env: Env, wires: seq<Wire>)
    requires PhaseAfter(wires).Some? && Run(env, wires).Ok?
    ensures Reflects(env, wires, Run(env, wires).value.state.blocks, PhaseAfter(wires).value)
    decreases |wires|
  {
    if wires != [] {
      var before, w := Init(wires), Latest(wires);
      LastStep(env, wires);
      RunReflects(env, before);
      RunFlags(env, before);
      DeltasReached(before);
      StepReflects(env, before, Run(env, before).value.state, PhaseAfter(before).value, w);
    }
  }

  // ---------------------------------------------------------------------------
  // Tool calls, read off the wires
  // ---------------------------------------------------------------------------

  /** A tool block's call: its id and name, and what its arguments parse to. */
  function CallSent(env: Env, wires: seq<Wire>, s: Start): ClientToolCall {
    var arguments := Sent(wires, s.index);
    ClientToolCall(
      s.raw.GetStrOr("id", ""), s.raw.GetStrOr("name", ""),
      if Json.IsBlank(arguments) then Json.EMPTY
      else match env.codec.parse(arguments) case Some(v) => v case None => Json.Null)
  }

  function CallsSent(env: Env, wires: seq<Wire>, starts: seq<Start>): seq<ClientToolCall> {
    if starts == [] then []
    else
      CallsSent(env, wires, Init(starts))
      + if HasType(Latest(starts).raw, "tool_use") then [CallSent(env, wires, Latest(starts))] else []
  }

  lemma {:induction false} StoredCalls(env: Env, wires: seq<Wire>, es: seq<Entry>, starts: seq<Start>)
    requires |es| == |starts|
    requires forall k :: 0 <= k < |es| ==> Mirrors(wires, es[k], starts[k]) && InputStored(env, wires, es[k], true)
    ensures ContentCalls(RawContent(es)) == CallsSent(env, wires, starts)
    decreases |es|
  {
    if es != [] {
      StoredCalls(env, wires, Init(es), Init(starts));
      var e, s := Latest(es), Latest(starts);
      assert Mirrors(wires, es[|es| - 1], starts[|es| - 1]);
      assert Init(RawContent(es)) == RawContent(Init(es)) && Latest(RawContent(es)) == e.block.raw;
      assert HasType(s.raw, "tool_use") ==> RawCall(e.block.raw) == CallSent(env, wires, s);
    }
  }

  /** The stored calls are those the server sent: every tool block in order, with its arguments. */
  lemma CallsAreSent(env: Env, wires: seq<Wire>)
    requires PhaseAfter(wires).Some? && PhaseAfter(wires).value.Between? && Run(env, wires).Ok?
    ensures ContentCalls(RawContent(Run(env, wires).value.state.blocks)) == CallsSent(env, wires, Started(wires))
  {
    RunReflects(env, wires);
    StoredCalls(env, wires, Run(env, wires).value.state.blocks, Started(wires));
  }
}
