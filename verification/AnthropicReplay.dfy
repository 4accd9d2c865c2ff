/** What a step of the Anthropic adapter keeps for replay. */
module AnthropicReplay {
  import opened Prelude
  import opened ModelStep
  import opened Collector
  import opened CollectorSpec
  import opened AnthropicStream
  import opened AnthropicRun
  import opened AnthropicConformance
  import opened AnthropicWires
  import opened AnthropicPipeline
  import opened AnthropicToolTurns
  import opened AgentLaws
  import TraceLemmas
  import Json

  // ---------------------------------------------------------------------------
  // All continuations of a step
  // ---------------------------------------------------------------------------

  function ReplayIn(item: Item): seq<ProviderContinuation> {
    if item.BlockItem? && item.block.ContinuationBlock? then [item.block.continuation] else []
  }

  function ReplaysOf(items: seq<Item>): seq<ProviderContinuation> {
    if items == [] then [] else ReplaysOf(Init(items)) + ReplayIn(Latest(items))
  }

  function ReplayAt(p: Place): seq<ProviderContinuation> { if p.ReadyPlace? then ReplayIn(p.item) else [] }

  function ReplaysAt(places: seq<Place>): seq<ProviderContinuation> {
    if places == [] then [] else ReplaysAt(Init(places)) + ReplayAt(Latest(places))
  }

  function ReplayOfEvent(e: Event): seq<ProviderContinuation> { if e.ContinuationEvent? then [e.continuation] else [] }

  function ReplaysIn(trace: seq<Event>): seq<ProviderContinuation> {
    if trace == [] then [] else ReplaysIn(Init(trace)) + ReplayOfEvent(Latest(trace))
  }

  lemma PlaceReplays(e: Event)
    ensures ReplayAt(PlaceFor(e)) == ReplayOfEvent(e)
  {}

  /** The last event opens at most one place. */
  lemma LastPlace(trace: seq<Event>)
    requires trace != []
    ensures ReplaysAt(PlacesOf(trace)) == ReplaysAt(PlacesOf(Init(trace))) + ReplayOfEvent(Latest(trace))
  {
    var before, place := PlacesOf(Init(trace)), PlaceFor(Latest(trace));
    PlaceOpens(trace);
    PlaceReplays(Latest(trace));
    if PlacesOf(trace) == before + [place] {
      assert Init(before + [place]) == before;
    } else {
      assert ReplaysAt(before) + [] == ReplaysAt(before);
    }
  }

  lemma {:induction false} PlacesReplay(trace: seq<Event>)
    ensures ReplaysAt(PlacesOf(trace)) == ReplaysIn(trace)
  {
    if trace != [] {
      PlacesReplay(Init(trace));
      LastPlace(trace);
    }
  }

  /** What the last place yields. */
  lemma LastItem(codec: Json.Codec, trace: seq<Event>, places: seq<Place>, modelId: string)
    requires places != []
    ensures ReplaysOf(ItemsAt(codec, trace, places, modelId)) ==
            ReplaysOf(ItemsAt(codec, trace, Init(places), modelId)) + ReplayAt(Latest(places))
  {
    var before, items := ItemsAt(codec, trace, Init(places), modelId), ItemsAt(codec, trace, places, modelId);
    TraceLemmas.OneItemAtMost(codec, trace, places, modelId);
    if items != before {
      assert Init(items) == before;
    } else {
      assert ReplaysOf(before) + [] == ReplaysOf(before);
    }
  }

  lemma {:induction false} ItemsReplay(codec: Json.Codec, trace: seq<Event>, places: seq<Place>, modelId: string)
    ensures ReplaysOf(ItemsAt(codec, trace, places, modelId)) == ReplaysAt(places)
  {
    if places != [] {
      ItemsReplay(codec, trace, Init(places), modelId);
      LastItem(codec, trace, places, modelId);
    }
  }

  /** A collected step holds the continuations of its events, in order. */
  lemma StepReplays(codec: Json.Codec, trace: seq<Event>)
    requires FinishedLast(trace)
    ensures ReplaysOf(StepOf(codec, trace).output.items) == ReplaysIn(trace)
  {
    PlacesReplay(trace);
    ItemsReplay(codec, trace, PlacesOf(trace), Latest(trace).modelId);
  }

  lemma {:induction false} ReplaysInAppend(a: seq<Event>, b: seq<Event>)
    ensures ReplaysIn(a + b) == ReplaysIn(a) + ReplaysIn(b)
    decreases |b|
  {
    if b == [] {
      assert a + b == a;
    } else {
      assert Init(a + b) == a + Init(b) && Latest(a + b) == Latest(b);
      ReplaysInAppend(a, Init(b));
      Assoc(ReplaysIn(a), ReplaysIn(Init(b)), ReplayOfEvent(Latest(b)));
    }
  }

  lemma {:induction false} NoReplays(trace: seq<Event>)
    requires forall e :: e in trace ==> !e.ContinuationEvent?
    ensures ReplaysIn(trace) == []
  {
    if trace != [] {
      assert Latest(trace) in trace;
      NoReplays(Init(trace));
    }
  }

  function OptionalReplay(cont: Option<ProviderContinuation>): seq<ProviderContinuation> {
    match cont case Some(c) => [c] case None => []
  }

  lemma AssembledReplays(events: seq<Event>, fallback: seq<Delta>, cont: Option<ProviderContinuation>,
                         plain: seq<Event>, end: Event)
    requires PlainEvents(plain) && end.Finished? && forall e :: e in events ==> e.DeltaEvent?
    ensures ReplaysIn(Assembled(events, fallback, cont, plain, end)) == OptionalReplay(cont)
  {
    var c := match cont case Some(c) => [ContinuationEvent(c)] case None => [];
    var front, rest := events + AsEvents(fallback), plain + [end];
    Assoc(front + c, plain, [end]);
    ReplaysInAppend(front + c, rest);
    ReplaysInAppend(front, c);
    NoReplays(front);
    NoReplays(rest);
    assert cont.Some? ==> Init(c) == [] && Latest(c) == ContinuationEvent(cont.value);
  }

  // ---------------------------------------------------------------------------
  // A step of the adapter
  // ---------------------------------------------------------------------------

  /** No block was started that is a tool result. */
  predicate NoResultsSent(wires: seq<Wire>) { forall s :: s in Started(wires) ==> !HasType(s.raw, "tool_result") }

  /** A step to be replayed: calls make it a ClientTools step, and its only continuation names
      exactly these calls. */
  ghost predicate Replayable(provider: string, step: Step) {
    && (step.kind == ClientTools <==> step.output.ClientToolCalls() != [])
    && exists content ::
         && ReplaysOf(step.output.items) == ReplayList(provider, content)
         && UseIds(content) == IdsOf(step.output.ClientToolCalls()) && ResultIdsIn(content) == []
  }

  function ReplayList(provider: string, content: seq<Value>): seq<ProviderContinuation> {
    if content == [] then [] else [ProviderContinuation(provider, Json.Arr(content))]
  }

  lemma {:induction false} NoResultIds(content: seq<Value>)
    requires forall v :: v in content ==> !HasType(v, "tool_result")
    ensures ResultIdsIn(content) == []
  {
    if content != [] {
      assert Latest(content) in content;
      NoResultIds(Init(content));
    }
  }

  /** Stored blocks are no tool results when none was sent. */
  lemma StoredResults(env: Env, wires: seq<Wire>)
    requires Conforms(env, wires) && NoResultsSent(wires)
    ensures ResultIdsIn(RawContent(Run(env, wires).value.state.blocks)) == []
  {
    var es := Run(env, wires).value.state.blocks;
    var content := RawContent(es);
    RunReflects(env, wires);
    forall v | v in content
      ensures !HasType(v, "tool_result")
    {
      var k :| 0 <= k < |content| && content[k] == v;
      assert Mirrors(wires, es[k], Started(wires)[k]) && Started(wires)[k] in Started(wires);
    }
    NoResultIds(content);
  }

  lemma FullReplays(env: Env, wires: seq<Wire>)
    requires env.Lawful() && Conforms(env, wires)
    ensures ReplaysIn(FullTrace(env, Run(env, wires).value)) ==
            ReplayList(env.provider, RawContent(Run(env, wires).value.state.blocks))
  {
    var ran := Run(env, wires).value;
    var content := RawContent(ran.state.blocks);
    ConformingStreamCollects(env, wires);
    RunFlags(env, wires);
    var plain := FullIsAssembled(env, ran);
    AssembledReplays(ran.events, FallbackReasoning(env, ran.state, content), ContinuationFrom(env, content), plain,
                     Finished(KindOfContent(ran.state, content), ModelOf(env, ran.state)));
  }

  /** Whatever a conforming stream is collected to can be replayed. */
  lemma ConformingStepReplays(env: Env, wires: seq<Wire>, step: Step)
    requires env.Lawful() && Conforms(env, wires) && NoResultsSent(wires)
    requires Collect(env.codec, FullTrace(env, Run(env, wires).value)) == Ok(step)
    ensures Replayable(env.provider, step)
  {
    var ran := Run(env, wires).value;
    var content := RawContent(ran.state.blocks);
    ConformingStreamCollects(env, wires);
    CollectIff(env.codec, FullTrace(env, ran));
    StepReplays(env.codec, FullTrace(env, ran));
    FullReplays(env, wires);
    StoredCallIds(content);
    StoredResults(env, wires);
  }
}
