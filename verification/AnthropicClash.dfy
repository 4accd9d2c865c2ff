/** When a conforming stream is refused by the collector, read off the events the server sent. */
module AnthropicClash {
  import opened Prelude
  import opened ModelStep
  import opened Collector
  import opened TraceLemmas
  import opened AnthropicStream
  import opened AnthropicRun
  import opened AnthropicConformance
  import opened AnthropicWires
  import Json

  // ---------------------------------------------------------------------------
  // What the server sent
  // ---------------------------------------------------------------------------

  /** The start of a block, with the signature sent for it behind. */
  function Signed(wires: seq<Wire>, s: Start): Value {
    if SignatureSent(wires, s.index) then s.raw.SetField("signature", Json.Null) else s.raw
  }

  predicate HasSummary(raw: Value) { exists r :: r in SummariesIn(raw) && !Json.IsBlank(r.text) }

  /** The server started a block under which items of this id are emitted: a text block for
      which text was sent, or a tool block. */
  predicate Emits(wires: seq<Wire>, t: Start, id: string) {
    || (HasType(t.raw, "text") && TextSent(wires, t.index) && id == TextId(t.index))
    || (HasType(t.raw, "tool_use") && id == ToolId(t.index))
  }

  ghost predicate Taken(wires: seq<Wire>, id: string) { exists t :: t in Started(wires) && Emits(wires, t, id) }

  /** A block with a summary was sent under this id. */
  ghost predicate NamedBySent(wires: seq<Wire>, id: string) {
    exists s :: s in Started(wires) && HasSummary(Signed(wires, s)) && s.raw.GetStr("id") == Some(id)
  }

  /** No thinking was streamed, and a block with a summary is named like an emitted item. */
  ghost predicate NamesCollide(wires: seq<Wire>) {
    !ThinkingSent(wires) && exists id :: NamedBySent(wires, id) && Taken(wires, id)
  }

  // ---------------------------------------------------------------------------
  // Which events were emitted
  // ---------------------------------------------------------------------------

  /** The deltas of one event for a text item. */
  predicate TextStep(env: Env, st: StreamState, w: Wire, index: nat)
    requires ApplyOpen(env, st, w).result.Ok?
  {
    DeltasOf(ApplyOpen(env, st, w).result.value.events, TextId(index)) != [] <==> SendsText(w, index)
  }

  lemma OneDelta(ds: seq<Delta>, id: string)
    requires |ds| <= 1
    ensures DeltasOf(AsEvents(ds), id) == if ds != [] && ds[0].itemId == id then ds else []
  {
    if ds != [] {
      assert Init(AsEvents(ds)) == [] && Latest(AsEvents(ds)) == DeltaEvent(ds[0]);
    }
  }

  lemma TextIds(i: nat, index: nat)
    ensures TextId(i) == TextId(index) ==> i == index
    ensures ToolId(i) != TextId(index) && ReasoningId(i) != TextId(index)
  {
    IdsInjective(i, index);
    IdsInjective(index, i);
  }

  lemma StartTextStep(index: nat, i: nat, raw: Value)
    ensures DeltasOf(AsEvents(StartDeltas(i, raw)), TextId(index)) != [] <==> SendsText(BlockStart(i, raw), index)
  {
    OneDelta(StartDeltas(i, raw), TextId(index));
    TextIds(i, index);
  }

  lemma DeltaTextStep(env: Env, block: Block, index: nat, i: nat, part: Part)
    ensures DeltasOf(AsEvents(DeltasFor(env, i, block, part)), TextId(index)) != [] <==>
            SendsText(BlockDelta(i, part), index)
  {
    OneDelta(DeltasFor(env, i, block, part), TextId(index));
    TextIds(i, index);
  }

  lemma StopTextStep(env: Env, index: nat, i: nat, raw: Value, emitted: bool)
    ensures DeltasOf(AsEvents(StopDeltas(env, i, raw, emitted)), TextId(index)) == []
  {
    OneDelta(StopDeltas(env, i, raw, emitted), TextId(index));
    TextIds(i, index);
  }

  lemma TextSteps(env: Env, st: StreamState, w: Wire, index: nat)
    requires ApplyOpen(env, st, w).result.Ok?
    ensures TextStep(env, st, w, index)
  {
    match w {
      case BlockStart(i, raw) => StartTextStep(index, i, raw);
      case BlockDelta(i, part) => DeltaTextStep(env, BlockAt(st.blocks, i), index, i, part);
      case BlockStop(i) =>
        if Lookup(st.blocks, i).Some? {
          var block := Lookup(st.blocks, i).value;
          StopTextStep(env, index, i, StopRaw(env, block).value, block.emittedClientDelta);
        }
      case _ =>
    }
  }

  lemma EmittedStep(env: Env, ran: Ran, w: Wire, index: nat)
    requires ApplyOpen(env, ran.state, w).result.Ok?
    ensures var applied := ApplyOpen(env, ran.state, w);
            && (DeltasOf(ran.events + applied.result.value.events, TextId(index)) != [] <==>
                  DeltasOf(ran.events, TextId(index)) != [] || SendsText(w, index))
            && (applied.state.emittedReasoningDelta <==> ran.state.emittedReasoningDelta || SendsThinking(w))
  {
    TextSteps(env, ran.state, w, index);
    DeltasOfAppend(ran.events, ApplyOpen(env, ran.state, w).result.value.events, TextId(index));
  }

  /** A text item was emitted exactly when text was sent for its block; reasoning exactly when
      thinking was. */
  lemma {:induction false} EmittedIsSent(env: Env, wires: seq<Wire>, index: nat)
    requires PhaseAfter(wires).Some? && Run(env, wires).Ok?
    ensures DeltasOf(Run(env, wires).value.events, TextId(index)) != [] <==> TextSent(wires, index)
    ensures Run(env, wires).value.state.emittedReasoningDelta <==> ThinkingSent(wires)
    decreases |wires|
  {
    if wires != [] {
      var before, w := Init(wires), Latest(wires);
      LastStep(env, wires);
      EmittedIsSent(env, before, index);
      EmittedStep(env, Run(env, before).value, w, index);
    }
  }

  predicate Quiet(events: seq<Event>) { forall v :: v in events && v.DeltaEvent? ==> !v.delta.ReasoningDelta? }

  /** What is known of a run whose blocks have all stopped and which sent no thinking. */
  lemma RunFront(env: Env, wires: seq<Wire>)
    requires env.Lawful() && !ThinkingSent(wires)
    requires PhaseAfter(wires).Some? && PhaseAfter(wires).value.Between? && Run(env, wires).Ok?
    ensures Front(env, Run(env, wires).value.state.blocks, Run(env, wires).value.events)
    ensures Quiet(Run(env, wires).value.events)
  {
    var dss, open := RunKeeps(env, wires);
    RunFlags(env, wires);
    StoppedIsFront(env, Run(env, wires).value.state.blocks, dss);
    AsEventsAppend(Emitted(dss), [], []);
    EmittedIsSent(env, wires, 0);
  }

  /** The ids under which something was emitted are those of text blocks with text and of tool
      blocks. */
  lemma EmittedItems(env: Env, wires: seq<Wire>, id: string)
    requires env.Lawful() && !ThinkingSent(wires)
    requires PhaseAfter(wires).Some? && PhaseAfter(wires).value.Between? && Run(env, wires).Ok?
    ensures DeltasOf(Run(env, wires).value.events, id) != [] <==> Taken(wires, id)
  {
    var ran := Run(env, wires).value;
    RunFront(env, wires);
    RunReflects(env, wires);
    if DeltasOf(ran.events, id) != [] {
      EmittedIsTaken(env, wires, ran, PhaseAfter(wires).value, id);
    }
    if Taken(wires, id) {
      TakenIsEmitted(env, wires, ran, PhaseAfter(wires).value, id);
    }
  }

  lemma EmittedIsTaken(env: Env, wires: seq<Wire>, ran: Ran, phase: Phase, id: string)
    requires PhaseAfter(wires).Some? && Run(env, wires) == Ok(ran)
    requires Front(env, ran.state.blocks, ran.events) && Quiet(ran.events)
    requires Reflects(env, wires, ran.state.blocks, phase) && DeltasOf(ran.events, id) != []
    ensures Taken(wires, id)
  {
    var k := NamedBy(env, ran.state.blocks, ran.events, id);
    BlockEmits(env, wires, ran, ran.state.blocks[k], Started(wires)[k], id);
    assert Started(wires)[k] in Started(wires);
  }

  lemma TakenIsEmitted(env: Env, wires: seq<Wire>, ran: Ran, phase: Phase, id: string)
    requires PhaseAfter(wires).Some? && Run(env, wires) == Ok(ran)
    requires Front(env, ran.state.blocks, ran.events) && Quiet(ran.events)
    requires Reflects(env, wires, ran.state.blocks, phase) && Taken(wires, id)
    ensures DeltasOf(ran.events, id) != []
  {
    var t :| t in Started(wires) && Emits(wires, t, id);
    var k :| 0 <= k < |Started(wires)| && Started(wires)[k] == t;
    FrontBlock(env, ran.state.blocks, ran.events, k);
    BlockEmits(env, wires, ran, ran.state.blocks[k], t, id);
  }

  lemma FrontBlock(env: Env, es: seq<Entry>, events: seq<Event>, k: nat)
    requires Front(env, es, events) && k < |es|
    ensures BlockOk(env, es[k], DeltasAt(es[k], events), true)
  {}

  lemma NamedBy(env: Env, es: seq<Entry>, events: seq<Event>, id: string) returns (k: nat)
    requires Front(env, es, events) && DeltasOf(events, id) != []
    ensures k < |es| && ItemIdOf(es[k]) == Some(id) && BlockOk(env, es[k], DeltasAt(es[k], events), true)
  {
    k :| k < |es| && ItemIdOf(es[k]) == Some(id);
  }

  /** One stored block of a run without thinking. */
  lemma BlockEmits(env: Env, wires: seq<Wire>, ran: Ran, e: Entry, s: Start, id: string)
    requires PhaseAfter(wires).Some? && Run(env, wires) == Ok(ran)
    requires Mirrors(wires, e, s) && BlockOk(env, e, DeltasAt(e, ran.events), true)
    requires Quiet(ran.events)
    ensures ItemIdOf(e) == Some(id) && DeltasOf(ran.events, id) != [] ==> Emits(wires, s, id)
    ensures Emits(wires, s, id) ==> DeltasOf(ran.events, id) != []
  {
    EmittedIsSent(env, wires, s.index);
    TypesExclude(e.block.raw);
    DeltasComeFrom(ran.events, id);
    var ds := DeltasOf(ran.events, id);
    assert ds != [] ==> ds[0] in ds;
  }

  // ---------------------------------------------------------------------------
  // Which ids the fallback uses
  // ---------------------------------------------------------------------------

  lemma {:induction false} ItemDeltasIds(itemId: string, provider: string, summary: seq<ReasoningSummary>)
    ensures forall d :: d in ItemDeltas(itemId, provider, summary) ==> d.itemId == itemId
    ensures (exists r :: r in summary && r.text != "") ==> ItemDeltas(itemId, provider, summary) != []
  {
    if summary != [] {
      ItemDeltasIds(itemId, provider, Init(summary));
      assert forall r :: r in summary ==> r in Init(summary) || r == Latest(summary);
    }
  }

  /** `id` is the id of one of the items. */
  ghost predicate Used(items: seq<ReasoningItem>, id: string) {
    exists k: nat :: k < |items| && ReasoningItemId(items[k], k) == id
  }

  predicate Spoken(item: ReasoningItem) { exists r :: r in item.summary && r.text != "" }

  ghost predicate UsesId(ds: seq<Delta>, id: string) { exists d :: d in ds && d.itemId == id }

  lemma UsedSnoc(items: seq<ReasoningItem>, item: ReasoningItem, id: string)
    ensures Used(items + [item], id) <==> Used(items, id) || ReasoningItemId(item, |items|) == id
  {
    var all := items + [item];
    if Used(items, id) {
      var k: nat :| k < |items| && ReasoningItemId(items[k], k) == id;
      assert all[k] == items[k];
    }
    assert all[|items|] == item;
  }

  lemma {:induction false} DeltasUse(items: seq<ReasoningItem>, id: string)
    requires AllSpeak(items)
    ensures UsesId(ReasoningDeltas(items), id) <==> Used(items, id)
  {
    if items != [] {
      var item := Latest(items);
      assert item == items[|items| - 1] && items == Init(items) + [item];
      DeltasUse(Init(items), id);
      UsedSnoc(Init(items), item, id);
      var own := ItemDeltas(ReasoningItemId(item, |items| - 1), item.provider, item.summary);
      ItemDeltasIds(ReasoningItemId(item, |items| - 1), item.provider, item.summary);
      assert own[0] in own && ReasoningDeltas(items) == ReasoningDeltas(Init(items)) + own;
    }
  }

  /** A stored block whose summary becomes an item with this id of its own. */
  predicate Names(raw: Value, id: string) { HasSummary(raw) && raw.GetStr("id") == Some(id) }

  lemma {:induction false} SummaryKept(rs: seq<ReasoningSummary>, r: ReasoningSummary)
    requires r in rs && !Json.IsBlank(r.text)
    ensures r in Filter(rs, (s: ReasoningSummary) => !Json.IsBlank(s.text))
  {
    if r != rs[0] {
      SummaryKept(rs[1..], r);
    }
  }

  /** The item of one block, if it has one. */
  lemma BlockItem(env: Env, model: string, before: seq<Value>, raw: Value) returns (item: ReasoningItem)
    ensures !HasSummary(raw) ==> ReasoningItems(env, model, before + [raw]) == ReasoningItems(env, model, before)
    ensures HasSummary(raw) ==>
              && item.id == raw.GetStr("id") && Spoken(item)
              && ReasoningItems(env, model, before + [raw]) == ReasoningItems(env, model, before) + [item]
  {
    var keep := (s: ReasoningSummary) => !Json.IsBlank(s.text);
    var summary := Filter(SummariesIn(raw), keep);
    assert Init(before + [raw]) == before && Latest(before + [raw]) == raw;
    assert summary != [] ==> summary[0] in summary;
    item := ReasoningItem(env.provider, Some(model), raw.GetStr("id"), raw.GetStr("status"), summary);
    if HasSummary(raw) {
      var r :| r in SummariesIn(raw) && !Json.IsBlank(r.text);
      SummaryKept(SummariesIn(raw), r);
      assert Spoken(item);
    }
  }

  ghost predicate NamedIn(blocks: seq<Value>, id: string) { exists raw :: raw in blocks && Names(raw, id) }

  ghost predicate IsPosition(id: string) { exists position: nat :: id == ReasoningId(position) }

  predicate AllSpeak(items: seq<ReasoningItem>) { forall k :: 0 <= k < |items| ==> Spoken(items[k]) }

  lemma NamesSnoc(before: seq<Value>, raw: Value, id: string)
    ensures NamedIn(before + [raw], id) <==> NamedIn(before, id) || Names(raw, id)
  {
    assert forall r :: r in before + [raw] <==> r in before || r == raw;
  }

  /** A position is the id of no emitted item. */
  lemma PositionsAreFree(wires: seq<Wire>, id: string)
    requires Taken(wires, id)
    ensures !IsPosition(id)
  {
    var t :| t in Started(wires) && Emits(wires, t, id);
    forall position: nat
      ensures id != ReasoningId(position)
    {
      IdsInjective(t.index, position);
    }
  }

  /** Every item speaks, and the ids used are those of the blocks, or positions. */
  lemma {:induction false} ItemsUse(env: Env, model: string, blocks: seq<Value>, id: string)
    ensures AllSpeak(ReasoningItems(env, model, blocks))
    ensures NamedIn(blocks, id) ==> Used(ReasoningItems(env, model, blocks), id)
    ensures Used(ReasoningItems(env, model, blocks), id) ==> NamedIn(blocks, id) || IsPosition(id)
  {
    if blocks != [] {
      var before, raw := Init(blocks), Latest(blocks);
      assert blocks == before + [raw];
      ItemsUse(env, model, before, id);
      NamesSnoc(before, raw, id);
      var item := BlockItem(env, model, before, raw);
      OneMoreItem(ReasoningItems(env, model, before), item, id);
    }
  }

  lemma OneMoreItem(items: seq<ReasoningItem>, item: ReasoningItem, id: string)
    ensures AllSpeak(items) && Spoken(item) ==> AllSpeak(items + [item])
    ensures Used(items, id) || item.id == Some(id) ==> Used(items + [item], id)
    ensures Used(items + [item], id) ==> Used(items, id) || item.id == Some(id) || IsPosition(id)
  {
    UsedSnoc(items, item, id);
  }

  lemma FallbackIds(env: Env, st: StreamState, blocks: seq<Value>, id: string)
    ensures NamedIn(blocks, id) && !st.emittedReasoningDelta ==>
              UsesId(FallbackReasoning(env, st, blocks), id)
    ensures UsesId(FallbackReasoning(env, st, blocks), id) ==>
              !st.emittedReasoningDelta && (NamedIn(blocks, id) || IsPosition(id))
  {
    ItemsUse(env, ModelOf(env, st), blocks, id);
    DeltasUse(ReasoningItems(env, ModelOf(env, st), blocks), id);
  }

  // ---------------------------------------------------------------------------
  // The theorem
  // ---------------------------------------------------------------------------

  /** The fields a summary is read off. */
  predicate SameSummary(a: Value, b: Value) {
    && a.GetStr("type") == b.GetStr("type") && a.Get("summary") == b.Get("summary")
    && a.GetStr("thinking") == b.GetStr("thinking")
    && (a.Get("signature").Some? <==> b.Get("signature").Some?)
  }

  lemma SameSummaries(a: Value, b: Value)
    requires SameSummary(a, b)
    ensures SummariesIn(a) == SummariesIn(b)
  {}

  lemma SignedKeeps(wires: seq<Wire>, s: Start)
    ensures var sent := Signed(wires, s);
            && sent.GetStr("type") == s.raw.GetStr("type") && sent.Get("summary") == s.raw.Get("summary")
            && sent.GetStr("thinking") == s.raw.GetStr("thinking")
            && (sent.Get("signature").Some? <==>
                  s.raw.Get("signature").Some? || (s.raw.Obj? && SignatureSent(wires, s.index)))
  {
    assert "signature" !in {"type", "summary", "thinking"} by {
      assert |"signature"| == 9 && |"type"| == 4 && |"summary"| == 7 && |"thinking"| == 8;
    }
  }

  /** A stored block has the summary and the id of what was sent. */
  lemma StoredNames(wires: seq<Wire>, e: Entry, s: Start, id: string)
    requires Mirrors(wires, e, s) && !ThinkingSent(wires)
    ensures Names(e.block.raw, id) <==> HasSummary(Signed(wires, s)) && s.raw.GetStr("id") == Some(id)
  {
    SignedKeeps(wires, s);
    SameSummaries(e.block.raw, Signed(wires, s));
  }

  /** Stored blocks name an id exactly when started ones do. */
  lemma NamedAsSent(env: Env, wires: seq<Wire>, es: seq<Entry>, phase: Phase, id: string)
    requires Reflects(env, wires, es, phase) && !ThinkingSent(wires)
    ensures NamedIn(RawContent(es), id) <==> NamedBySent(wires, id)
  {
    var content, starts := RawContent(es), Started(wires);
    if NamedIn(content, id) {
      var raw :| raw in content && Names(raw, id);
      var k :| 0 <= k < |content| && content[k] == raw;
      StoredNames(wires, es[k], starts[k], id);
      assert starts[k] in starts;
    }
    if NamedBySent(wires, id) {
      var s :| s in starts && HasSummary(Signed(wires, s)) && s.raw.GetStr("id") == Some(id);
      var k :| 0 <= k < |starts| && starts[k] == s;
      StoredNames(wires, es[k], s, id);
      assert content[k] == es[k].block.raw && content[k] in content;
    }
  }

  /** For every conforming stream the adapter gets through, ids clash exactly when no thinking
      was streamed and some block with a summary carries the id of an emitted item. */
  lemma ClashIff(env: Env, wires: seq<Wire>)
    requires env.Lawful()
    requires PhaseAfter(wires).Some? && PhaseAfter(wires).value.Between? && Run(env, wires).Ok?
    ensures Clash(env, Run(env, wires).value) <==> NamesCollide(wires)
  {
    var ran := Run(env, wires).value;
    var es, content := ran.state.blocks, RawContent(ran.state.blocks);
    EmittedIsSent(env, wires, 0);
    RunReflects(env, wires);
    if Clash(env, ran) {
      var d :| d in FallbackReasoning(env, ran.state, content) && DeltasOf(ran.events, d.itemId) != [];
      assert UsesId(FallbackReasoning(env, ran.state, content), d.itemId);
      FallbackIds(env, ran.state, content, d.itemId);
      EmittedItems(env, wires, d.itemId);
      PositionsAreFree(wires, d.itemId);
      NamedAsSent(env, wires, es, PhaseAfter(wires).value, d.itemId);
    }
    if NamesCollide(wires) {
      var id :| NamedBySent(wires, id) && Taken(wires, id);
      NamedAsSent(env, wires, es, PhaseAfter(wires).value, id);
      FallbackIds(env, ran.state, content, id);
      EmittedItems(env, wires, id);
    }
  }

  predicate StartsWith(s: string, prefix: string) { |prefix| <= |s| && s[..|prefix|] == prefix }

  /** No block is named with the adapter's own prefixes. */
  predicate PlainNames(wires: seq<Wire>) {
    forall s :: s in Started(wires) && s.raw.GetStr("id").Some? ==>
      && !StartsWith(s.raw.GetStr("id").value, "anthropic_text:")
      && !StartsWith(s.raw.GetStr("id").value, "anthropic_tool:")
  }

  /** Then, whatever else was sent, collection succeeds. */
  lemma PlainNamesCollect(env: Env, wires: seq<Wire>)
    requires env.Lawful() && PlainNames(wires)
    requires PhaseAfter(wires).Some? && PhaseAfter(wires).value.Between? && Run(env, wires).Ok?
    ensures Collect(env.codec, FullTrace(env, Run(env, wires).value)).Ok?
  {
    ClashIff(env, wires);
    ConformingStreamCollects(env, wires);
    if NamesCollide(wires) {
      var id :| NamedBySent(wires, id) && Taken(wires, id);
      TakenPrefix(wires, id);
      assert false;
    }
  }

  lemma TakenPrefix(wires: seq<Wire>, id: string)
    requires Taken(wires, id)
    ensures StartsWith(id, "anthropic_text:") || StartsWith(id, "anthropic_tool:")
  {
    var t :| t in Started(wires) && Emits(wires, t, id);
    assert TextId(t.index)[..15] == "anthropic_text:" && ToolId(t.index)[..15] == "anthropic_tool:";
  }
}
