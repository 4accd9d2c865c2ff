/** Calls and the turns that answer them, in every run. */
module AgentLaws {
  import opened Prelude
  import opened ModelStep
  import opened Transcript
  import opened AgentTools
  import opened Agent
  import opened AgentRuns

  // ---------------------------------------------------------------------------
  // Calls are answered
  // ---------------------------------------------------------------------------

  function CallIdIn(block: ContentBlock): seq<string> { if block.ToolCall? then [block.call.id] else [] }

  function CallIds(blocks: seq<ContentBlock>): seq<string> {
    if blocks == [] then [] else CallIdIn(blocks[0]) + CallIds(blocks[1..])
  }

  function ResultIds(blocks: seq<ContentBlock>): seq<string> {
    if blocks == [] then []
    else ResultIds(Init(blocks)) + if Latest(blocks).ToolAnswer? then [Latest(blocks).result.toolUseId] else []
  }

  function IdsOf(calls: seq<ClientToolCall>): seq<string> { seq(|calls|, i requires 0 <= i < |calls| => calls[i].id) }

  lemma CallIdsCons(block: OutputBlock, blocks: seq<OutputBlock>)
    ensures CallIds(Blocks([block] + blocks)) == CallIdIn(BlockOf(block)) + CallIds(Blocks(blocks))
  {
    assert Blocks([block] + blocks)[0] == BlockOf(block) && Blocks([block] + blocks)[1..] == Blocks(blocks);
  }

  lemma IdsAppend(a: seq<ClientToolCall>, b: seq<ClientToolCall>)
    ensures IdsOf(a + b) == IdsOf(a) + IdsOf(b)
  {}

  lemma {:induction false} OutputCallIds(items: seq<Item>)
    ensures CallIds(Blocks(BlocksOf(items))) == IdsOf(CallsOf(items))
  {
    if items != [] {
      OutputCallIds(items[1..]);
      IdsAppend(CallsIn(items[0]), CallsOf(items[1..]));
      if items[0].BlockItem? {
        CallIdsCons(items[0].block, BlocksOf(items[1..]));
        assert IdsOf(CallsIn(items[0])) == CallIdIn(BlockOf(items[0].block));
      } else {
        assert [] + BlocksOf(items[1..]) == BlocksOf(items[1..]);
        assert IdsOf([]) == [];
      }
    }
  }

  lemma {:induction false} ResultIdsAppend(a: seq<ContentBlock>, b: seq<ContentBlock>)
    ensures ResultIds(a + b) == ResultIds(a) + ResultIds(b)
    decreases |b|
  {
    if b == [] {
      assert a + b == a;
    } else {
      assert Init(a + b) == a + Init(b) && Latest(a + b) == Latest(b);
      ResultIdsAppend(a, Init(b));
    }
  }

  lemma {:induction false} MediaHasNoResults(media: seq<Media>)
    ensures ResultIds(MediaBlocks(media)) == []
  {
    if media != [] {
      assert Init(MediaBlocks(media)) == MediaBlocks(Init(media));
      MediaHasNoResults(Init(media));
    }
  }

  function ResultIdsOf(outcomes: seq<ToolOutcome>): seq<string> {
    seq(|outcomes|, i requires 0 <= i < |outcomes| => outcomes[i].result.toolUseId)
  }

  lemma {:induction false} ResultBlockIds(outcomes: seq<ToolOutcome>)
    ensures ResultIds(ResultBlocks(outcomes)) == ResultIdsOf(outcomes)
  {
    if outcomes != [] {
      var last := Latest(outcomes);
      ResultBlockIds(Init(outcomes));
      MediaHasNoResults(last.media);
      assert Init([ToolAnswer(last.result)]) == [] && ResultIds([ToolAnswer(last.result)]) == [last.result.toolUseId];
      ResultIdsAppend(ResultBlocks(Init(outcomes)), [ToolAnswer(last.result)]);
      ResultIdsAppend(ResultBlocks(Init(outcomes)) + [ToolAnswer(last.result)], MediaBlocks(last.media));
      assert ResultIdsOf(outcomes) == ResultIdsOf(Init(outcomes)) + [last.result.toolUseId];
    }
  }

  /** The outcomes are those of the step's own calls. */
  predicate OwnOutcomes(f: Folded) {
    if f.step.kind.ClientTools? then ResultIdsOf(f.outcomes) == IdsOf(f.step.output.ClientToolCalls())
    else f.outcomes == []
  }

  lemma FoldedOwns<E>(cfg: Config, world: World<E>, n: nat, step: Step)
    ensures OwnOutcomes(FoldedOf(cfg, world, n, step))
  {
    var calls := step.output.ClientToolCalls();
    forall k | 0 <= k < |calls|
      ensures Outcomes(cfg.Enabled(), world.answers(n), calls)[k].result.toolUseId == calls[k].id
    {
      OutcomesAnswerCalls(cfg.Enabled(), world.answers(n), calls, k);
    }
  }

  lemma {:induction false} HistoryOwns<E>(cfg: Config, world: World<E>, n: nat, st: RunState)
    ensures forall f :: f in History(cfg, world, n, st) ==> OwnOutcomes(f)
    decreases cfg.maxIterations - n
  {
    if n < cfg.maxIterations {
      match EndOf(cfg, Hear(cfg.timeoutSeconds, world.stream(n, st.turns))) {
        case Gathered(step) =>
          var f := FoldedOf(cfg, world, n, step);
          FoldedOwns(cfg, world, n, step);
          if step.kind.Final? {
            assert History(cfg, world, n, st) == [f] + [];
          } else {
            var rest := History(cfg, world, n + 1, After(cfg, st, n, f));
            HistoryOwns(cfg, world, n + 1, After(cfg, st, n, f));
            assert History(cfg, world, n, st) == [f] + rest;
          }
        case _ =>
      }
    }
  }

  lemma {:induction false} CallsNeedBlocks(items: seq<Item>)
    ensures BlocksOf(items) == [] ==> CallsOf(items) == []
  {
    if items != [] {
      CallsNeedBlocks(items[1..]);
    }
  }

  /** A client-tools step with calls adds an assistant turn with its calls, directly followed by
      a user turn whose results carry exactly the call ids, in call order. */
  lemma ToolStepTurns(f: Folded)
    requires f.step.kind.ClientTools? && OwnOutcomes(f) && f.step.output.ClientToolCalls() != []
    ensures var turns := StepTurns(f);
            && |turns| == 2 && turns[0].role == Assistant && turns[1].role == User
            && CallIds(turns[0].blocks) == IdsOf(f.step.output.ClientToolCalls())
            && ResultIds(turns[1].blocks) == IdsOf(f.step.output.ClientToolCalls())
  {
    CallsNeedBlocks(f.step.output.items);
    OutputCallIds(f.step.output.items);
    ResultBlockIds(f.outcomes);
  }

  /** Every assistant turn with calls is directly followed by the turn that answers them. */
  predicate CallsAnswered(turns: seq<Turn>) {
    forall k :: 0 <= k < |turns| && turns[k].role == Assistant && CallIds(turns[k].blocks) != [] ==>
      k + 1 < |turns| && turns[k + 1].role == User && ResultIds(turns[k + 1].blocks) == CallIds(turns[k].blocks)
  }

  lemma AnsweredAppend(a: seq<Turn>, b: seq<Turn>)
    requires CallsAnswered(a) && CallsAnswered(b)
    ensures CallsAnswered(a + b)
  {
    var c := a + b;
    forall k | 0 <= k < |c| && c[k].role == Assistant && CallIds(c[k].blocks) != []
      ensures k + 1 < |c| && c[k + 1].role == User && ResultIds(c[k + 1].blocks) == CallIds(c[k].blocks)
    {
      if k >= |a| {
        assert c[k] == b[k - |a|];
      }
    }
  }

  lemma {:induction false} TextHasNoCalls(blocks: seq<ContentBlock>)
    requires forall b :: b in blocks ==> b.Text?
    ensures CallIds(blocks) == []
  {
    if blocks != [] {
      assert blocks[0] in blocks;
      TextHasNoCalls(blocks[1..]);
    }
  }

  lemma StepAnswered(f: Folded)
    requires OwnOutcomes(f) && (f.step.kind.Continue? ==> f.step.output.ClientToolCalls() == [])
    ensures CallsAnswered(StepTurns(f))
  {
    OutputCallIds(f.step.output.items);
    match f.step.kind {
      case Final =>
        var blocks := Blocks(f.step.output.AnswerBlocks());
        forall b | b in blocks
          ensures b.Text?
        {
          var i :| 0 <= i < |blocks| && blocks[i] == b;
          assert f.step.output.AnswerBlocks()[i] in f.step.output.AnswerBlocks();
        }
        TextHasNoCalls(blocks);
      case Continue =>
      case ClientTools =>
        if f.step.output.ClientToolCalls() != [] {
          ToolStepTurns(f);
        }
    }
  }

  /** A step that goes on by itself although the model asked for tools. */
  predicate LeavesCalls(f: Folded) { f.step.kind.Continue? && f.step.output.ClientToolCalls() != [] }

  lemma {:induction false} HistoryAnswered(h: seq<Folded>)
    requires forall f :: f in h ==> OwnOutcomes(f) && !LeavesCalls(f)
    ensures CallsAnswered(TurnsOf(h))
  {
    if h != [] {
      StepAnswered(h[0]);
      HistoryAnswered(h[1..]);
      AnsweredAppend(StepTurns(h[0]), TurnsOf(h[1..]));
    }
  }

  lemma AnsweredSuffix(a: seq<Turn>, b: seq<Turn>)
    requires CallsAnswered(a + b)
    ensures CallsAnswered(b)
  {
    var c := a + b;
    forall k | 0 <= k < |b| && b[k].role == Assistant && CallIds(b[k].blocks) != []
      ensures k + 1 < |b| && b[k + 1].role == User && ResultIds(b[k + 1].blocks) == CallIds(b[k].blocks)
    {
      assert c[|a| + k] == b[k];
      assert c[|a| + k + 1] == b[k + 1];
    }
  }

  /** No step starts by answering earlier calls. */
  predicate AnswersNothing(turns: seq<Turn>) {
    turns != [] ==> turns[0].role == Assistant || ResultIds(turns[0].blocks) == []
  }

  lemma StepAnswersNothing(f: Folded)
    requires OwnOutcomes(f)
    ensures AnswersNothing(StepTurns(f))
  {
    if f.step.kind.ClientTools? && f.step.output.Blocks() == [] {
      CallsNeedBlocks(f.step.output.items);
      ResultBlockIds(f.outcomes);
    }
  }

  lemma {:induction false} HistoryAnswersNothing(h: seq<Folded>)
    requires forall f :: f in h ==> OwnOutcomes(f)
    ensures AnswersNothing(TurnsOf(h))
  {
    if h != [] {
      StepAnswersNothing(h[0]);
      HistoryAnswersNothing(h[1..]);
    }
  }

  lemma LeftCallsUnanswered(f: Folded, rest: seq<Turn>)
    requires LeavesCalls(f) && AnswersNothing(rest)
    ensures !CallsAnswered(StepTurns(f) + rest)
  {
    OutputCallIds(f.step.output.items);
    CallsNeedBlocks(f.step.output.items);
    var turns := StepTurns(f) + rest;
    assert turns[0].role == Assistant && CallIds(turns[0].blocks) == IdsOf(f.step.output.ClientToolCalls()) != [];
    assert rest != [] ==> turns[1] == rest[0];
  }

  lemma {:induction false} HistoryUnanswered(h: seq<Folded>)
    requires forall f :: f in h ==> OwnOutcomes(f)
    requires exists f :: f in h && LeavesCalls(f)
    ensures !CallsAnswered(TurnsOf(h))
  {
    if LeavesCalls(h[0]) {
      HistoryAnswersNothing(h[1..]);
      LeftCallsUnanswered(h[0], TurnsOf(h[1..]));
    } else {
      assert exists f :: f in h[1..] && LeavesCalls(f) by {
        var f :| f in h && LeavesCalls(f);
        assert f in h[1..];
      }
      HistoryUnanswered(h[1..]);
      if CallsAnswered(TurnsOf(h)) {
        AnsweredSuffix(StepTurns(h[0]), TurnsOf(h[1..]));
      }
    }
  }

  /** The transcript of a run extends the prepared one, and every assistant turn it adds has its
      calls answered in the next turn exactly when no step of kind Continue asks for tools. */
  lemma TranscriptProtocol<E>(cfg: Config, world: World<E>, turns: seq<Turn>)
    requires RunOf(cfg, world, turns).error.None?
    ensures var start := Prepared(cfg.transcriptId, cfg.parts, turns);
            var h := History(cfg, world, 0, InitialState(cfg, turns));
            var events := RunOf(cfg, world, turns).events;
            && FinishesOnce(events)
            && start <= Latest(events).run.state.turns
            && (CallsAnswered(Latest(events).run.state.turns[|start|..]) <==> forall f :: f in h ==> !LeavesCalls(f))
  {
    RunLaw(cfg, world, turns);
    var h := History(cfg, world, 0, InitialState(cfg, turns));
    var start := Prepared(cfg.transcriptId, cfg.parts, turns);
    var all := Latest(RunOf(cfg, world, turns).events).run.state.turns;
    assert all[|start|..] == TurnsOf(h);
    HistoryOwns(cfg, world, 0, InitialState(cfg, turns));
    if forall f :: f in h ==> !LeavesCalls(f) {
      HistoryAnswered(h);
    } else {
      HistoryUnanswered(h);
    }
  }
}
