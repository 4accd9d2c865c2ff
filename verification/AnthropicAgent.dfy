/** The agent with the Anthropic adapter as its backend: every conversation it leads to renders
    with all tool calls answered. */
module AnthropicAgent {
  import opened Prelude
  import opened ModelStep
  import opened Transcript
  import opened Collector
  import opened AnthropicStream
  import opened AnthropicAttempt
  import opened AnthropicChunking
  import opened AnthropicPipeline
  import opened AnthropicMessages
  import opened AnthropicToolTurns
  import opened AnthropicReplay
  import opened AgentTools
  import opened Agent
  import opened AgentRuns
  import opened AgentLaws
  import Json

  // ---------------------------------------------------------------------------
  // The turns such a step adds
  // ---------------------------------------------------------------------------

  function Contents(provider: string, replays: seq<ProviderContinuation>): seq<Value> {
    if replays == [] then []
    else Contents(provider, Init(replays)) + ContinuationBlocks(provider, Replay(Latest(replays)))
  }

  lemma BlocksSnoc(blocks: seq<OutputBlock>, b: OutputBlock)
    ensures Blocks(blocks + [b]) == Blocks(blocks) + [BlockOf(b)]
  {}

  lemma {:induction false} BlocksOfSnoc(items: seq<Item>, item: Item)
    ensures BlocksOf(items + [item]) == BlocksOf(items) + if item.BlockItem? then [item.block] else []
  {
    if items == [] {
      assert [] + [item] == [item] && [item][1..] == [];
    } else {
      assert (items + [item])[0] == items[0] && (items + [item])[1..] == items[1..] + [item];
      BlocksOfSnoc(items[1..], item);
    }
  }

  /** A turn made of a step replays the step's continuations. */
  lemma {:induction false} TurnReplays(provider: string, items: seq<Item>)
    ensures ContinuationContent(provider, Blocks(BlocksOf(items))) == Contents(provider, ReplaysOf(items))
  {
    if items != [] {
      var front, item := Init(items), Latest(items);
      assert items == front + [item];
      TurnReplays(provider, front);
      BlocksOfSnoc(front, item);
      LastContent(provider, front, item);
    }
  }

  lemma LastContent(provider: string, front: seq<Item>, item: Item)
    requires ContinuationContent(provider, Blocks(BlocksOf(front))) == Contents(provider, ReplaysOf(front))
    requires BlocksOf(front + [item]) == BlocksOf(front) + if item.BlockItem? then [item.block] else []
    ensures ContinuationContent(provider, Blocks(BlocksOf(front + [item]))) ==
            Contents(provider, ReplaysOf(front + [item]))
  {
    var blocks := Blocks(BlocksOf(front));
    assert Init(front + [item]) == front;
    if item.BlockItem? {
      BlocksSnoc(BlocksOf(front), item.block);
      assert Init(blocks + [BlockOf(item.block)]) == blocks;
      if item.block.ContinuationBlock? {
        var c := item.block.continuation;
        assert Init(ReplaysOf(front) + [c]) == ReplaysOf(front);
      } else {
        assert ReplaysOf(front) + [] == ReplaysOf(front);
      }
    } else {
      assert BlocksOf(front) + [] == BlocksOf(front) && ReplaysOf(front) + [] == ReplaysOf(front);
    }
  }

  lemma {:induction false} NoReplayContent(provider: string, blocks: seq<ContentBlock>)
    requires forall b :: b in blocks ==> !b.Replay?
    ensures ContinuationContent(provider, blocks) == []
  {
    if blocks != [] {
      assert Latest(blocks) in blocks;
      NoReplayContent(provider, Init(blocks));
    }
  }

  lemma {:induction false} OutputHasNoResults(blocks: seq<ContentBlock>)
    requires forall b :: b in blocks ==> !b.ToolAnswer?
    ensures ResultIds(blocks) == []
  {
    if blocks != [] {
      assert Latest(blocks) in blocks;
      OutputHasNoResults(Init(blocks));
    }
  }

  lemma {:induction false} ResultBlocksNoReplay(outcomes: seq<ToolOutcome>)
    ensures forall b :: b in ResultBlocks(outcomes) ==> !b.Replay?
  {
    if outcomes != [] {
      ResultBlocksNoReplay(Init(outcomes));
    }
  }

  /** The assistant turn that keeps a whole step. */
  lemma WholeTurnFaithful(r: Renderer, step: Step)
    requires Replayable(r.provider, step)
    ensures FaithfulReplay(r, Turn(Assistant, Blocks(step.output.Blocks()), Json.Null))
  {
    var items := step.output.items;
    var content :| && ReplaysOf(items) == ReplayList(r.provider, content)
                   && UseIds(content) == IdsOf(step.output.ClientToolCalls()) && ResultIdsIn(content) == [];
    TurnReplays(r.provider, items);
    OneReplay(r.provider, content);
    OutputCallIds(items);
    OutputHasNoResults(Blocks(BlocksOf(items)));
  }

  lemma OneReplay(provider: string, content: seq<Value>)
    ensures Contents(provider, ReplayList(provider, content)) == content
  {
    if content != [] {
      var c := ProviderContinuation(provider, Json.Arr(content));
      assert Init([c]) == [] && Latest([c]) == c;
    }
  }

  lemma AnswerHasNoReplay(output: Output)
    ensures forall b :: b in Blocks(output.AnswerBlocks()) ==> !b.Replay?
  {
    var kept := output.AnswerBlocks();
    forall b | b in Blocks(kept)
      ensures !b.Replay?
    {
      var i :| 0 <= i < |kept| && Blocks(kept)[i] == b;
      assert kept[i] in kept;
    }
  }

  /** Every turn a step adds is replayed faithfully. */
  lemma TurnsFaithful(r: Renderer, f: Folded)
    requires Replayable(r.provider, f.step)
    ensures forall t :: t in StepTurns(f) ==> FaithfulReplay(r, t)
  {
    WholeTurnFaithful(r, f.step);
    AnswerHasNoReplay(f.step.output);
    PlainTurnFaithful(r, Turn(Assistant, Blocks(f.step.output.AnswerBlocks()), Json.Null));
    ResultBlocksNoReplay(f.outcomes);
    PlainTurnFaithful(r, Turn(User, ResultBlocks(f.outcomes), Json.Null));
  }

  lemma PlainTurnFaithful(r: Renderer, turn: Turn)
    requires forall b :: b in turn.blocks ==> !b.Replay?
    ensures FaithfulReplay(r, turn)
  {
    NoReplayContent(r.provider, turn.blocks);
  }

  // ---------------------------------------------------------------------------
  // What the agent hears
  // ---------------------------------------------------------------------------

  /** The events that arrive. */
  function Said<E>(signals: seq<Signal<E>>): seq<Event> {
    if signals == [] then [] else Said(Init(signals)) + SaidBy(Latest(signals))
  }

  function SaidBy<E>(signal: Signal<E>): seq<Event> {
    if signal.Arrives? && signal.item.Ok? then [signal.item.value] else []
  }

  /** One signal behind accepted events. */
  lemma OneHeard<E>(timeoutSeconds: nat, events: seq<Event>, signal: Signal<E>)
    requires FirstError(events).None? && HearOne(timeoutSeconds, events, signal).end.None?
    ensures HearOne(timeoutSeconds, events, signal).events == events + SaidBy(signal)
    ensures FirstError(events + SaidBy(signal)).None? && (signal.Arrives? ==> signal.item.Ok?)
  {
    if signal.Arrives? {
      ErrorSnoc(events, signal.item.value);
    } else {
      assert events + [] == events;
    }
  }

  ghost predicate Unbroken<E>(signals: seq<Signal<E>>) { forall s :: s in signals && s.Arrives? ==> s.item.Ok? }

  /** Heard to the end, a stream was unbroken, and the reducer accepted all its events. */
  lemma {:induction false} HeardAll<E>(timeoutSeconds: nat, signals: seq<Signal<E>>)
    requires Hear(timeoutSeconds, signals).end.None?
    ensures Hear(timeoutSeconds, signals).events == Said(signals) && Unbroken(signals)
    ensures FirstError(Said(signals)).None?
  {
    if signals != [] {
      var front, signal := Init(signals), Latest(signals);
      assert signals == front + [signal];
      HeardAll(timeoutSeconds, front);
      OneHeard(timeoutSeconds, Said(front), signal);
    }
  }

  lemma GatheredIsCollected<E>(cfg: Config, signals: seq<Signal<E>>, step: Step)
    requires EndOf(cfg, Hear(cfg.timeoutSeconds, signals)) == Gathered(step)
    ensures Unbroken(signals) && Collect(cfg.codec, Said(signals)) == Ok(step)
  {
    var heard := Hear(cfg.timeoutSeconds, signals);
    if heard.end.Some? {
      HearNeverGathers(cfg.timeoutSeconds, signals);
    }
    HeardAll(cfg.timeoutSeconds, signals);
  }

  lemma {:induction false} HearNeverGathers<E>(timeoutSeconds: nat, signals: seq<Signal<E>>)
    ensures Hear(timeoutSeconds, signals).end.Some? ==> !Hear(timeoutSeconds, signals).end.value.Gathered?
  {
    if signals != [] {
      HearNeverGathers(timeoutSeconds, Init(signals));
    }
  }

  /** When unbroken, the stream is what an attempt of the adapter yields for some cut of a
      conforming body without tool results. */
  ghost predicate SpeaksAnthropic<E>(src: Source, signals: seq<Signal<E>>) {
    Unbroken(signals) ==>
      exists cut, wires ::
        && Carries(src, Flatten(cut), wires) && NoResultsSent(wires)
        && Said(signals) == Attempt(src, OkChunks(cut)).events
  }

  /** A backend that does so in every step. */
  ghost predicate AnthropicBackend<E>(src: Source, world: World<E>) {
    forall n: nat, turns :: SpeaksAnthropic(src, world.stream(n, turns))
  }

  lemma GatheredReplays<E>(cfg: Config, src: Source, signals: seq<Signal<E>>, step: Step)
    requires src.env.Lawful() && cfg.codec == src.env.codec && SpeaksAnthropic(src, signals)
    requires EndOf(cfg, Hear(cfg.timeoutSeconds, signals)) == Gathered(step)
    ensures Replayable(src.env.provider, step)
  {
    GatheredIsCollected(cfg, signals, step);
    var cut, wires :| && Carries(src, Flatten(cut), wires) && NoResultsSent(wires)
                      && Said(signals) == Attempt(src, OkChunks(cut)).events;
    ConformingAttempt(src, cut, wires);
    ConformingStepReplays(src.env, wires, step);
  }

  // ---------------------------------------------------------------------------
  // Whole runs
  // ---------------------------------------------------------------------------

  lemma {:induction false} HistoryReplays<E>(cfg: Config, src: Source, world: World<E>, n: nat, st: RunState)
    requires src.env.Lawful() && cfg.codec == src.env.codec && AnthropicBackend(src, world)
    ensures AllReplay(src.env.provider, History(cfg, world, n, st))
    decreases cfg.maxIterations - n
  {
    if n < cfg.maxIterations {
      var end := EndOf(cfg, Hear(cfg.timeoutSeconds, world.stream(n, st.turns)));
      if end.Gathered? {
        WorldReplays(cfg, src, world, n, st.turns, end.step);
        var f := FoldedOf(cfg, world, n, end.step);
        var next := After(cfg, st, n, f);
        if !end.step.kind.Final? {
          HistoryReplays(cfg, src, world, n + 1, next);
        }
        AllReplayCons(src.env.provider, f, if end.step.kind.Final? then [] else History(cfg, world, n + 1, next));
      }
    }
  }

  ghost predicate AllReplay(provider: string, h: seq<Folded>) { forall f :: f in h ==> Replayable(provider, f.step) }

  lemma AllReplayCons(provider: string, f: Folded, h: seq<Folded>)
    requires Replayable(provider, f.step) && AllReplay(provider, h)
    ensures AllReplay(provider, [f] + h)
  {}

  lemma WorldReplays<E>(cfg: Config, src: Source, world: World<E>, n: nat, turns: seq<Turn>, step: Step)
    requires src.env.Lawful() && cfg.codec == src.env.codec && AnthropicBackend(src, world)
    requires EndOf(cfg, Hear(cfg.timeoutSeconds, world.stream(n, turns))) == Gathered(step)
    ensures Replayable(src.env.provider, step)
  {
    GatheredReplays(cfg, src, world.stream(n, turns), step);
  }

  lemma {:induction false} HistoryFaithful(r: Renderer, h: seq<Folded>)
    requires AllReplay(r.provider, h)
    ensures forall t :: t in TurnsOf(h) ==> FaithfulReplay(r, t)
  {
    if h != [] {
      assert h[0] in h && forall f :: f in h[1..] ==> f in h;
      TurnsFaithful(r, h[0]);
      HistoryFaithful(r, h[1..]);
    }
  }

  /** An agent whose backend is the Anthropic adapter on conforming bodies: when the transcript it
      starts from has its calls answered and replays faithfully, the one the run ends with renders
      to a conversation in which every assistant message with tool calls is directly followed by
      the user message with their results. */
  lemma ConversationAnswered<E>(cfg: Config, src: Source, world: World<E>, turns: seq<Turn>, r: Renderer, native: bool)
    requires src.env.Lawful() && cfg.codec == src.env.codec && r.provider == src.env.provider
    requires AnthropicBackend(src, world) && RunOf(cfg, world, turns).error.None?
    requires CallsAnswered(Prepared(cfg.transcriptId, cfg.parts, turns))
    requires forall t :: t in Prepared(cfg.transcriptId, cfg.parts, turns) ==> FaithfulReplay(r, t)
    ensures FinishesOnce(RunOf(cfg, world, turns).events)
    ensures var all := Latest(RunOf(cfg, world, turns).events).run.state.turns;
            var body := all[LeadingSystemCount(all)..];
            Pieces(r, body).Ok? ==> MessagesAnswered(RenderedOrError(r, native, body).value)
  {
    var h := History(cfg, world, 0, InitialState(cfg, turns));
    HistoryReplays(cfg, src, world, 0, InitialState(cfg, turns));
    HistoryFaithful(r, h);
    RunLaw(cfg, world, turns);
    RunRendersAnswered(cfg, world, turns, r, native);
    var all := Latest(RunOf(cfg, world, turns).events).run.state.turns;
    forall t | t in all[LeadingSystemCount(all)..]
      ensures FaithfulReplay(r, t)
    {
      assert t in all;
    }
  }
}
