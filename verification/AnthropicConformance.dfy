/** Collecting what the adapter emits for a conforming stream gives back the stored blocks. */
module AnthropicConformance {
  import opened Prelude
  import opened ModelStep
  import opened Collector
  import opened CollectorSpec
  import opened TraceLemmas
  import opened AnthropicStream
  import opened AnthropicRun
  import Json

  // ---------------------------------------------------------------------------
  // The deltas of one block collect to its raw form
  // ---------------------------------------------------------------------------

  predicate ReasoningOf(ds: seq<Delta>, provider: string) {
    forall d :: d in ds ==> d.ReasoningDelta? && d.provider == provider
  }

  lemma ReasoningConsistent(codec: Json.Codec, ds: seq<Delta>, provider: string)
    requires ReasoningOf(ds, provider)
    ensures Consistent(ds) && Complete(codec, ds)
  {
    assert forall i :: 0 <= i < |ds| ==> ds[i] in ds;
  }

  lemma TextConsistent(codec: Json.Codec, ds: seq<Delta>)
    requires forall d :: d in ds ==> d.TextDelta?
    ensures Consistent(ds) && Complete(codec, ds)
  {
    assert forall i :: 0 <= i < |ds| ==> ds[i] in ds;
  }

  lemma ToolConsistent(env: Env, e: Entry, ds: seq<Delta>)
    requires HasType(e.block.raw, "tool_use") && ToolBlockOk(env, e, ds, true)
    ensures Consistent(ds) && Complete(env.codec, ds)
  {
    var name := e.block.raw.GetStr("name").value;
    assert forall i :: 0 <= i < |ds| ==> ds[i] in ds;
    assert ds[0] in ds && Names(ds[0], name);
    assert forall i, n :: 0 <= i < |ds| && Names(ds[i], n) ==> n == name;
  }

  lemma BlockConsistent(env: Env, e: Entry, ds: seq<Delta>)
    requires BlockOk(env, e, ds, true)
    ensures Consistent(ds) && Complete(env.codec, ds)
  {
    if HasType(e.block.raw, "text") {
      TextConsistent(env.codec, ds);
    } else if HasType(e.block.raw, "tool_use") {
      ToolConsistent(env, e, ds);
    } else {
      ReasoningConsistent(env.codec, ds, env.provider);
    }
  }

  lemma {:induction false} NameOfConstant(ds: seq<Delta>, name: string)
    requires ds != [] && forall d :: d in ds ==> d.ToolCallDelta? && d.name == Some(name)
    ensures NameOf(ds) == Some(name)
  {
    assert Latest(ds) in ds;
    if |ds| > 1 {
      assert forall d :: d in Init(ds) ==> d in ds;
      NameOfConstant(Init(ds), name);
    } else {
      assert Init(ds) == [];
    }
  }

  lemma ToolItem(env: Env, e: Entry, ds: seq<Delta>, modelId: string)
    requires HasType(e.block.raw, "tool_use") && ToolBlockOk(env, e, ds, true)
    ensures ItemOf(env.codec, ds, modelId) == BlockItem(ToolCallBlock(RawCall(e.block.raw)))
  {
    assert Latest(ds) in ds;
    NameOfConstant(ds, e.block.raw.GetStr("name").value);
  }

  /** What the collected items of a block contribute to text and calls. */
  lemma BlockItems(env: Env, e: Entry, ds: seq<Delta>, modelId: string)
    requires BlockOk(env, e, ds, true)
    ensures var items := if ds == [] then [] else [ItemOf(env.codec, ds, modelId)];
            && TextOf(items) == RawText(e.block.raw)
            && CallsOf(items) == if HasType(e.block.raw, "tool_use") then [RawCall(e.block.raw)] else []
  {
    TypesExclude(e.block.raw);
    if ds != [] {
      assert Latest(ds) in ds;
      if HasType(e.block.raw, "tool_use") {
        ToolItem(env, e, ds, modelId);
      }
      var item := ItemOf(env.codec, ds, modelId);
      assert [item][1..] == [];
      if item.BlockItem? && item.block.TextBlock? {
        assert TextOf([item]) == item.block.text + "" == item.block.text;
      }
    }
  }

  // ---------------------------------------------------------------------------
  // The terminal events
  // ---------------------------------------------------------------------------

  lemma {:induction false} ItemDeltasKind(itemId: string, provider: string, summary: seq<ReasoningSummary>)
    ensures ReasoningOf(ItemDeltas(itemId, provider, summary), provider)
  {
    if summary != [] {
      ItemDeltasKind(itemId, provider, Init(summary));
    }
  }

  lemma {:induction false} ReasoningDeltasKind(items: seq<ReasoningItem>, provider: string)
    requires forall i :: i in items ==> i.provider == provider
    ensures ReasoningOf(ReasoningDeltas(items), provider)
  {
    if items != [] {
      assert Latest(items) in items;
      assert forall i :: i in Init(items) ==> i in items;
      ReasoningDeltasKind(Init(items), provider);
      ItemDeltasKind(ReasoningItemId(Latest(items), |items| - 1), provider, Latest(items).summary);
    }
  }

  lemma {:induction false} ReasoningItemsProvider(env: Env, model: string, blocks: seq<Value>)
    ensures forall i :: i in ReasoningItems(env, model, blocks) ==> i.provider == env.provider
  {
    if blocks != [] {
      ReasoningItemsProvider(env, model, Init(blocks));
    }
  }

  lemma FallbackKind(env: Env, st: StreamState, blocks: seq<Value>)
    ensures ReasoningOf(FallbackReasoning(env, st, blocks), env.provider)
  {
    ReasoningItemsProvider(env, ModelOf(env, st), blocks);
    if !st.emittedReasoningDelta {
      ReasoningDeltasKind(ReasoningItems(env, ModelOf(env, st), blocks), env.provider);
    }
  }

  predicate PlainEvents(trace: seq<Event>) {
    forall e :: e in trace ==> !e.DeltaEvent? && !e.Finished? && !e.ContinuationEvent?
  }

  lemma {:induction false} PlainHasNoDeltas(trace: seq<Event>, id: string)
    requires forall e :: e in trace ==> !e.DeltaEvent?
    ensures DeltasOf(trace, id) == []
  {
    if trace != [] {
      PlainHasNoDeltas(Init(trace), id);
      assert Latest(trace) in trace;
    }
  }

  lemma {:induction false} DeltasComeFrom(trace: seq<Event>, id: string)
    ensures forall d :: d in DeltasOf(trace, id) ==> DeltaEvent(d) in trace && d.itemId == id
    ensures forall d :: DeltaEvent(d) in trace && d.itemId == id ==> d in DeltasOf(trace, id)
  {
    if trace != [] {
      DeltasComeFrom(Init(trace), id);
      assert trace == Init(trace) + [Latest(trace)];
    }
  }

  lemma ClosingShape(env: Env, st: StreamState, content: seq<Value>) returns (plain: seq<Event>)
    ensures PlainEvents(plain)
    ensures ClosingEvents(env, st, content) ==
            (match ContinuationFrom(env, content) case Some(c) => [ContinuationEvent(c)] case None => [])
            + plain + [Finished(KindOfContent(st, content), ModelOf(env, st))]
  {
    var cont := match ContinuationFrom(env, content) case Some(c) => [ContinuationEvent(c)] case None => [];
    var tools := ServerToolEvents(ContentServerTools(env, content));
    var ground := GroundingEvents(ContentGrounding(env, content));
    var usage, end := UsageEvents(env, st), [Finished(KindOfContent(st, content), ModelOf(env, st))];
    plain := tools + ground + usage;
    ClosingRegroup(cont, tools, ground, usage, end);
  }

  /** Everything after the block deltas: reasoning fallback, continuation, plain events, Finished. */
  lemma TerminalShape(env: Env, st: StreamState) returns (plain: seq<Event>)
    requires FallbackText(st, RawContent(st.blocks)) == []
    ensures PlainEvents(plain)
    ensures var content := RawContent(st.blocks);
            TerminalEvents(env, st) ==
            AsEvents(FallbackReasoning(env, st, content))
            + (match ContinuationFrom(env, content) case Some(c) => [ContinuationEvent(c)] case None => [])
            + plain + [Finished(KindOfContent(st, content), ModelOf(env, st))]
  {
    var content := RawContent(st.blocks);
    plain := ClosingShape(env, st, content);
    AsEventsShort();
    TerminalRegroup(AsEvents(FallbackReasoning(env, st, content)),
                    match ContinuationFrom(env, content) case Some(c) => [ContinuationEvent(c)] case None => [],
                    plain, [Finished(KindOfContent(st, content), ModelOf(env, st))]);
  }

  lemma ClosingRegroup<T>(b: seq<T>, c: seq<T>, d: seq<T>, e: seq<T>, f: seq<T>)
    ensures b + c + d + e + f == b + (c + d + e) + f
  {}

  lemma TerminalRegroup<T>(a: seq<T>, b: seq<T>, c: seq<T>, f: seq<T>)
    ensures [] + a + (b + c + f) == a + b + c + f
  {}

  // ---------------------------------------------------------------------------
  // Id clashes
  // ---------------------------------------------------------------------------

  /** A fallback reasoning item uses the id of an item that was already emitted. */
  ghost predicate Clash(env: Env, ran: Ran) {
    exists d :: d in FallbackReasoning(env, ran.state, RawContent(ran.state.blocks))
                && DeltasOf(ran.events, d.itemId) != []
  }

  /** Block deltas, reasoning fallback, the rest. */
  function FullTrace(env: Env, ran: Ran): seq<Event> { ran.events + TerminalEvents(env, ran.state) }

  /** A trace put together from block deltas, fallback deltas, at most one continuation, plain
      events and Finished. */
  function Assembled(events: seq<Event>, fallback: seq<Delta>, cont: Option<ProviderContinuation>, plain: seq<Event>,
                     end: Event): seq<Event>
  {
    events + AsEvents(fallback) + (match cont case Some(c) => [ContinuationEvent(c)] case None => []) + plain + [end]
  }

  lemma AssembledDeltas(events: seq<Event>, fallback: seq<Delta>, cont: Option<ProviderContinuation>,
                        plain: seq<Event>, end: Event, id: string)
    requires PlainEvents(plain) && end.Finished?
    ensures DeltasOf(Assembled(events, fallback, cont, plain, end), id) ==
            DeltasOf(events, id) + DeltasOf(AsEvents(fallback), id)
  {
    var c := match cont case Some(c) => [ContinuationEvent(c)] case None => [];
    var front, rest := events + AsEvents(fallback), c + plain + [end];
    Assoc(front + c, plain, [end]);
    Assoc(front, c, plain + [end]);
    Assoc(c, plain, [end]);
    DeltasOfAppend(front, rest, id);
    DeltasOfAppend(events, AsEvents(fallback), id);
    PlainHasNoDeltas(rest, id);
  }

  lemma AssembledEnd(events: seq<Event>, fallback: seq<Delta>, cont: Option<ProviderContinuation>, plain: seq<Event>,
                     end: Event)
    requires PlainEvents(plain) && end.Finished? && forall e :: e in events ==> e.DeltaEvent?
    ensures var full := Assembled(events, fallback, cont, plain, end);
            FinishedLast(full) && Latest(full) == end && LastContinuation(full) == cont
  {
    var c := match cont case Some(c) => [ContinuationEvent(c)] case None => [];
    var front, full := events + AsEvents(fallback), Assembled(events, fallback, cont, plain, end);
    assert Init(full) == front + c + plain;
    assert full == front + c + (plain + [end]);
    LastContinuationAppend(front + c, plain + [end]);
    NoContinuation(plain + [end]);
    LastContinuationAppend(front, c);
    NoContinuation(front);
    if cont.Some? {
      assert Latest(c) == ContinuationEvent(cont.value);
    }
  }

  /** The emitted trace has that form. */
  lemma FullIsAssembled(env: Env, ran: Ran) returns (plain: seq<Event>)
    requires FallbackText(ran.state, RawContent(ran.state.blocks)) == []
    ensures PlainEvents(plain)
    ensures var content := RawContent(ran.state.blocks);
            FullTrace(env, ran) ==
            Assembled(ran.events, FallbackReasoning(env, ran.state, content), ContinuationFrom(env, content), plain,
                      Finished(KindOfContent(ran.state, content), ModelOf(env, ran.state)))
  {
    var content := RawContent(ran.state.blocks);
    plain := TerminalShape(env, ran.state);
    Regroup(ran.events, AsEvents(FallbackReasoning(env, ran.state, content)),
            match ContinuationFrom(env, content) case Some(c) => [ContinuationEvent(c)] case None => [],
            plain, [Finished(KindOfContent(ran.state, content), ModelOf(env, ran.state))]);
  }

  lemma Regroup<T>(a: seq<T>, b: seq<T>, c: seq<T>, d: seq<T>, e: seq<T>)
    ensures a + (b + c + d + e) == a + b + c + d + e
  {}

  // ---------------------------------------------------------------------------
  // Consistency of the whole trace
  // ---------------------------------------------------------------------------

  predicate Disjoint(events: seq<Event>, fallback: seq<Delta>) {
    forall d :: d in fallback ==> DeltasOf(events, d.itemId) == []
  }

  lemma FallbackPart(fallback: seq<Delta>, provider: string, id: string)
    requires ReasoningOf(fallback, provider)
    ensures ReasoningOf(DeltasOf(AsEvents(fallback), id), provider)
    ensures DeltasOf(AsEvents(fallback), id) != [] <==> exists d :: d in fallback && d.itemId == id
  {
    var es, ds := AsEvents(fallback), DeltasOf(AsEvents(fallback), id);
    DeltasComeFrom(es, id);
    forall d | d in ds
      ensures d in fallback
    {
      var i :| 0 <= i < |es| && es[i] == DeltaEvent(d);
      assert fallback[i] == d;
    }
    forall d | d in fallback && d.itemId == id
      ensures d in ds
    {
      var i :| 0 <= i < |fallback| && fallback[i] == d;
      assert es[i] == DeltaEvent(d);
    }
    if ds != [] {
      assert ds[0] in ds;
    }
  }

  ghost predicate ItemsGood(codec: Json.Codec, events: seq<Event>) {
    forall id :: Consistent(DeltasOf(events, id)) && Complete(codec, DeltasOf(events, id))
  }

  lemma FrontIsGood(env: Env, es: seq<Entry>, events: seq<Event>)
    requires Front(env, es, events)
    ensures ItemsGood(env.codec, events)
  {
    forall id
      ensures Consistent(DeltasOf(events, id)) && Complete(env.codec, DeltasOf(events, id))
    {
      if DeltasOf(events, id) == [] {
        TextConsistent(env.codec, []);
      } else {
        var k :| 0 <= k < |es| && ItemIdOf(es[k]) == Some(id);
        BlockConsistent(env, es[k], DeltasAt(es[k], events));
      }
    }
  }

  lemma DisjointBehind(events: seq<Event>, fallback: seq<Delta>, provider: string, id: string)
    requires ReasoningOf(fallback, provider) && Disjoint(events, fallback) && DeltasOf(events, id) != []
    ensures DeltasOf(AsEvents(fallback), id) == []
  {
    FallbackPart(fallback, provider, id);
  }

  /** One item id of the whole trace, when the fallback uses none of the emitted ids. */
  lemma DisjointItem(codec: Json.Codec, provider: string, events: seq<Event>, fallback: seq<Delta>, id: string)
    requires ItemsGood(codec, events) && ReasoningOf(fallback, provider) && Disjoint(events, fallback)
    ensures var ds := DeltasOf(events, id) + DeltasOf(AsEvents(fallback), id);
            && Consistent(ds) && Complete(codec, ds)
            && (DeltasOf(events, id) != [] ==> ds == DeltasOf(events, id))
  {
    var mine, other := DeltasOf(events, id), DeltasOf(AsEvents(fallback), id);
    if mine == [] {
      FallbackPart(fallback, provider, id);
      ReasoningConsistent(codec, other, provider);
      assert mine + other == other;
    } else {
      DisjointBehind(events, fallback, provider, id);
      assert mine + other == mine;
    }
  }

  /** A clash mixes reasoning deltas with another kind. */
  lemma ClashItem(events: seq<Event>, fallback: seq<Delta>, provider: string, d: Delta)
    requires ReasoningOf(fallback, provider) && d in fallback && DeltasOf(events, d.itemId) != []
    requires forall e :: e in events && e.DeltaEvent? ==> !e.delta.ReasoningDelta?
    ensures !Consistent(DeltasOf(events, d.itemId) + DeltasOf(AsEvents(fallback), d.itemId))
  {
    var mine, other := DeltasOf(events, d.itemId), DeltasOf(AsEvents(fallback), d.itemId);
    FallbackPart(fallback, provider, d.itemId);
    DeltasComeFrom(events, d.itemId);
    var all := mine + other;
    assert mine[0] in mine && other[0] in other;
    assert all[0] == mine[0] && all[|mine|] == other[0];
    assert KindOf(all[0]) != KindOf(all[|mine|]);
  }

  // ---------------------------------------------------------------------------
  // Text and calls of the collected step
  // ---------------------------------------------------------------------------

  function EntryPlace(e: Entry, events: seq<Event>): seq<Place> {
    match ItemIdOf(e)
    case Some(id) => if DeltasOf(events, id) != [] then [ItemPlace(id)] else []
    case None => []
  }

  lemma EntryItem(env: Env, e: Entry, events: seq<Event>, full: seq<Event>, modelId: string)
    requires BlockOk(env, e, DeltasAt(e, events), true)
    requires forall id :: DeltasOf(events, id) != [] ==> DeltasOf(full, id) == DeltasOf(events, id)
    ensures var items := ItemsAt(env.codec, full, EntryPlace(e, events), modelId);
            && TextOf(items) == RawText(e.block.raw)
            && CallsOf(items) == if HasType(e.block.raw, "tool_use") then [RawCall(e.block.raw)] else []
  {
    BlockItems(env, e, DeltasAt(e, events), modelId);
    OnePlace(env.codec, full, EntryPlace(e, events), modelId);
  }

  lemma {:induction false} EntryItems(env: Env, es: seq<Entry>, events: seq<Event>, full: seq<Event>, modelId: string)
    requires forall k :: 0 <= k < |es| ==> BlockOk(env, es[k], DeltasAt(es[k], events), true)
    requires forall id :: DeltasOf(events, id) != [] ==> DeltasOf(full, id) == DeltasOf(events, id)
    ensures TextOf(ItemsAt(env.codec, full, EntryPlaces(es, events), modelId)) == ContentText(RawContent(es))
    ensures CallsOf(ItemsAt(env.codec, full, EntryPlaces(es, events), modelId)) == ContentCalls(RawContent(es))
    decreases |es|
  {
    if es != [] {
      EntryItems(env, Init(es), events, full, modelId);
      assert es[|es| - 1] == Latest(es);
      EntryItem(env, Latest(es), events, full, modelId);
      EntryPlacesSnoc(es, events);
      PlacesSay(env.codec, full, EntryPlaces(Init(es), events), EntryPlace(Latest(es), events), modelId);
      RawContentSnoc(es);
    }
  }

  lemma EntryPlacesSnoc(es: seq<Entry>, events: seq<Event>)
    requires es != []
    ensures EntryPlaces(es, events) == EntryPlaces(Init(es), events) + EntryPlace(Latest(es), events)
  {}

  lemma RawContentSnoc(es: seq<Entry>)
    requires es != []
    ensures var raw := Latest(es).block.raw;
            && ContentText(RawContent(es)) == ContentText(RawContent(Init(es))) + RawText(raw)
            && ContentCalls(RawContent(es)) ==
               ContentCalls(RawContent(Init(es))) + if HasType(raw, "tool_use") then [RawCall(raw)] else []
  {
    assert Init(RawContent(es)) == RawContent(Init(es)) && Latest(RawContent(es)) == Latest(es).block.raw;
  }

  /** Text and calls of items at places one behind the other. */
  lemma PlacesSay(codec: Json.Codec, full: seq<Event>, a: seq<Place>, b: seq<Place>, modelId: string)
    ensures TextOf(ItemsAt(codec, full, a + b, modelId)) ==
            TextOf(ItemsAt(codec, full, a, modelId)) + TextOf(ItemsAt(codec, full, b, modelId))
    ensures CallsOf(ItemsAt(codec, full, a + b, modelId)) ==
            CallsOf(ItemsAt(codec, full, a, modelId)) + CallsOf(ItemsAt(codec, full, b, modelId))
  {
    ItemsAtAppend(codec, full, a, b, modelId);
    TextOfAppend(ItemsAt(codec, full, a, modelId), ItemsAt(codec, full, b, modelId));
  }

  lemma OnePlace(codec: Json.Codec, full: seq<Event>, places: seq<Place>, modelId: string)
    requires |places| <= 1 && forall p :: p in places ==> p.ItemPlace? && DeltasOf(full, p.id) != []
    ensures ItemsAt(codec, full, places, modelId) ==
            if places == [] then [] else [ItemOf(codec, DeltasOf(full, places[0].id), modelId)]
  {
    if places != [] {
      assert Init(places) == [] && Latest(places) == places[0];
    }
  }

  lemma TailPlacesSilent(events: seq<Event>, fallback: seq<Delta>, provider: string, full: seq<Event>, rest: seq<Event>)
    requires ReasoningOf(fallback, provider) && full == events + rest
    requires forall id :: DeltasOf(full, id) == DeltasOf(events, id) + DeltasOf(AsEvents(fallback), id)
    ensures |PlacesOf(events)| <= |PlacesOf(full)| && PlacesOf(full)[..|PlacesOf(events)|] == PlacesOf(events)
    ensures forall p :: p in PlacesOf(full)[|PlacesOf(events)|..] ==> SilentPlace(full, p)
  {
    PlacesExtend(events, rest);
    ReadyPlacesSilent(full);
    var n := |PlacesOf(events)|;
    forall k | n <= k < |PlacesOf(full)|
      ensures SilentPlace(full, PlacesOf(full)[k])
    {
      var p := PlacesOf(full)[k];
      if p.ItemPlace? {
        var other := DeltasOf(AsEvents(fallback), p.id);
        FallbackPart(fallback, provider, p.id);
        assert [] + other == other;
        assert other != [] ==> Latest(other) in other;
      }
    }
  }

  lemma EmittedItemsKept(codec: Json.Codec, provider: string, events: seq<Event>, fallback: seq<Delta>,
                         full: seq<Event>)
    requires ItemsGood(codec, events) && ReasoningOf(fallback, provider) && Disjoint(events, fallback)
    requires forall id :: DeltasOf(full, id) == DeltasOf(events, id) + DeltasOf(AsEvents(fallback), id)
    ensures forall id :: DeltasOf(events, id) != [] ==> DeltasOf(full, id) == DeltasOf(events, id)
  {
    forall id | DeltasOf(events, id) != []
      ensures DeltasOf(full, id) == DeltasOf(events, id)
    {
      DisjointItem(codec, provider, events, fallback, id);
    }
  }

  /** Only the places of the first part yield text and calls. */
  lemma TailSaysNothing(codec: Json.Codec, full: seq<Event>, n: nat, modelId: string)
    requires n <= |PlacesOf(full)| && forall p :: p in PlacesOf(full)[n..] ==> SilentPlace(full, p)
    ensures TextOf(ItemsAt(codec, full, PlacesOf(full), modelId)) ==
            TextOf(ItemsAt(codec, full, PlacesOf(full)[..n], modelId))
    ensures CallsOf(ItemsAt(codec, full, PlacesOf(full), modelId)) ==
            CallsOf(ItemsAt(codec, full, PlacesOf(full)[..n], modelId))
  {
    var places := PlacesOf(full);
    assert places == places[..n] + places[n..];
    PlacesSay(codec, full, places[..n], places[n..], modelId);
    SilentPlacesSayNothing(codec, full, places[n..], modelId);
  }

  /** Answer text and tool calls of the collected step are those of the stored blocks. */
  lemma CollectedContent(env: Env, es: seq<Entry>, events: seq<Event>, fallback: seq<Delta>, full: seq<Event>,
                         rest: seq<Event>)
    requires Front(env, es, events) && ReasoningOf(fallback, env.provider) && Disjoint(events, fallback)
    requires full == events + rest && FinishedLast(full)
    requires forall id :: DeltasOf(full, id) == DeltasOf(events, id) + DeltasOf(AsEvents(fallback), id)
    ensures var output := StepOf(env.codec, full).output;
            && output.AnswerText() == ContentText(RawContent(es))
            && output.ClientToolCalls() == ContentCalls(RawContent(es))
  {
    var m := Latest(full).modelId;
    TailPlacesSilent(events, fallback, env.provider, full, rest);
    TailSaysNothing(env.codec, full, |PlacesOf(events)|, m);
    FrontIsGood(env, es, events);
    EmittedItemsKept(env.codec, env.provider, events, fallback, full);
    EntryItems(env, es, events, full, m);
  }

  // ---------------------------------------------------------------------------
  // The theorem
  // ---------------------------------------------------------------------------

  /** For every conforming stream the adapter gets through: the text fallback stays silent;
      collecting the emitted events succeeds exactly when no fallback reasoning item takes the
      id of an emitted item; and the collected step then says what the stored blocks say. */
  lemma ConformingStreamCollects(env: Env, wires: seq<Wire>)
    requires env.Lawful()
    requires PhaseAfter(wires).Some? && PhaseAfter(wires).value.Between? && Run(env, wires).Ok?
    ensures var ran := Run(env, wires).value;
            var content := RawContent(ran.state.blocks);
            var step := Collect(env.codec, FullTrace(env, ran));
            && FallbackText(ran.state, content) == []
            && (step.Ok? <==> !Clash(env, ran))
            && (step.Ok? ==>
                && step.value.output.AnswerText() == ContentText(content) == WireText(wires)
                && step.value.output.ClientToolCalls() == ContentCalls(content)
                && step.value.output.Continuation() == ContinuationFrom(env, content)
                && step.value.output.modelId == ModelOf(env, ran.state)
                && (step.value.kind == ClientTools <==> step.value.output.ClientToolCalls() != []))
  {
    var ran := Run(env, wires).value;
    var dss, open := RunKeeps(env, wires);
    RunFlags(env, wires);
    StoppedIsFront(env, ran.state.blocks, dss);
    AsEventsAppend(Emitted(dss), [], []);
    FullTraceCollects(env, ran);
  }

  /** The same, from what a run has established. */
  lemma FullTraceCollects(env: Env, ran: Ran)
    requires Front(env, ran.state.blocks, ran.events) && FlagsOk(ran.state, ran.events)
    ensures var content := RawContent(ran.state.blocks);
            var step := Collect(env.codec, FullTrace(env, ran));
            && (step.Ok? <==> !Clash(env, ran))
            && (step.Ok? ==>
                && step.value.output.AnswerText() == ContentText(content)
                && step.value.output.ClientToolCalls() == ContentCalls(content)
                && step.value.output.Continuation() == ContinuationFrom(env, content)
                && step.value.output.modelId == ModelOf(env, ran.state)
                && step.value.kind == KindOfContent(ran.state, content))
  {
    var content := RawContent(ran.state.blocks);
    var fallback, full := FallbackReasoning(env, ran.state, content), FullTrace(env, ran);
    var end := Finished(KindOfContent(ran.state, content), ModelOf(env, ran.state));
    FallbackKind(env, ran.state, content);
    FrontIsGood(env, ran.state.blocks, ran.events);
    var plain := FullIsAssembled(env, ran);
    AssembledEnd(ran.events, fallback, ContinuationFrom(env, content), plain, end);
    forall id
      ensures DeltasOf(full, id) == DeltasOf(ran.events, id) + DeltasOf(AsEvents(fallback), id)
    {
      AssembledDeltas(ran.events, fallback, ContinuationFrom(env, content), plain, end, id);
    }
    CollectIff(env.codec, full);
    if Clash(env, ran) {
      ClashRefused(env, ran.events, fallback, full);
    } else {
      NoClashAccepted(env.codec, env.provider, ran.events, fallback, full);
      CollectedContent(env, ran.state.blocks, ran.events, fallback, full, TerminalEvents(env, ran.state));
      CollectedContinuation(env.codec, full);
    }
  }

  lemma ClashRefused(env: Env, events: seq<Event>, fallback: seq<Delta>, full: seq<Event>)
    requires ReasoningOf(fallback, env.provider) && !Disjoint(events, fallback)
    requires forall e :: e in events && e.DeltaEvent? ==> !e.delta.ReasoningDelta?
    requires forall id :: DeltasOf(full, id) == DeltasOf(events, id) + DeltasOf(AsEvents(fallback), id)
    ensures !ItemsConsistent(full)
  {
    var d :| d in fallback && DeltasOf(events, d.itemId) != [];
    ClashItem(events, fallback, env.provider, d);
    assert !Consistent(DeltasOf(full, d.itemId));
  }

  lemma NoClashAccepted(codec: Json.Codec, provider: string, events: seq<Event>, fallback: seq<Delta>, full: seq<Event>)
    requires ItemsGood(codec, events) && ReasoningOf(fallback, provider) && Disjoint(events, fallback)
    requires forall id :: DeltasOf(full, id) == DeltasOf(events, id) + DeltasOf(AsEvents(fallback), id)
    ensures ItemsConsistent(full) && ItemsComplete(codec, full)
  {
    forall id
      ensures Consistent(DeltasOf(full, id)) && Complete(codec, DeltasOf(full, id))
    {
      DisjointItem(codec, provider, events, fallback, id);
    }
  }
}
