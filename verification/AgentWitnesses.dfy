/** Runs that show which conditions the laws of runs need. */
module AgentWitnesses {
  import opened Prelude
  import opened ModelStep
  import opened Transcript
  import opened Collector
  import opened AgentTools
  import opened Agent
  import opened AgentRuns
  import opened AgentLaws
  import opened AgentConservation
  import opened AgentReports
  import Json

  /** A backend that says the same in every step, and tools that all fail. */
  function Repeating(signals: seq<Signal<string>>): World<string> {
    World((n: nat, turns) => signals, (n: nat) => ((k: nat) => Err(ExecutionFailed("no tools"))),
          (i: nat, n: nat) => PollEach(n))
  }

  function PollEach(n: nat): (polls: seq<Poll>)
    ensures |polls| == n && forall k :: 0 <= k < n ==> polls[k] == Poll(k, true)
  {
    seq(n, k requires 0 <= k < n => Poll(k, true))
  }

  lemma RepeatingIsFair(signals: seq<Signal<string>>)
    ensures Repeating(signals).Fairly()
  {
    forall i: nat, n: nat
      ensures Fair(Repeating(signals).polls(i, n), n) && forall p :: p in Repeating(signals).polls(i, n) ==> p.index < n
    {
      assert Repeating(signals).polls(i, n) == PollEach(n);
      forall k | 0 <= k < n
        ensures Poll(k, true) in PollEach(n)
      {
        assert PollEach(n)[k] == Poll(k, true);
      }
    }
  }

  // ---------------------------------------------------------------------------
  // A deadline that drops usage
  // ---------------------------------------------------------------------------

  const WORD := DeltaEvent(TextDelta("item", "word"))

  function Interrupted(u: UsageRecord): seq<Signal<string>> { [Arrives(Ok(WORD)), Arrives(Ok(UsageEvent(u))), Stalls] }

  lemma HearSnoc(timeoutSeconds: nat, signals: seq<Signal<string>>, signal: Signal<string>)
    ensures Hear(timeoutSeconds, signals + [signal]) ==
            var before := Hear(timeoutSeconds, signals);
            if before.end.Some? then before else HearOne(timeoutSeconds, before.events, signal)
  {
    assert Init(signals + [signal]) == signals;
  }

  lemma HearInterrupted(timeoutSeconds: nat, u: UsageRecord)
    requires timeoutSeconds > 0
    ensures Hear(timeoutSeconds, Interrupted(u)) == Heard([WORD, UsageEvent(u)], Some(TimedOut))
  {
    var one, two: Signal<string> := Arrives(Ok(WORD)), Arrives(Ok(UsageEvent(u)));
    HearSnoc(timeoutSeconds, [], one);
    HearSnoc(timeoutSeconds, [one], two);
    HearSnoc(timeoutSeconds, [one, two], Stalls);
    assert [] + [one] == [one] && [one] + [two] == [one, two] && [one, two] + [Stalls] == Interrupted(u);
    assert [] + [WORD] == [WORD] && [WORD] + [UsageEvent(u)] == [WORD, UsageEvent(u)];
    assert WORD in [WORD, UsageEvent(u)];
  }

  lemma ShownInterrupted(u: UsageRecord)
    ensures Shown([WORD, UsageEvent(u)]) == NOTHING.(usage := [u])
  {
    assert Init([WORD, UsageEvent(u)]) == [WORD] && Init([WORD]) == [];
    assert Shown([WORD]) == Shown([]).Then(NOTHING);
    ThenNothing(NOTHING);
    ThenNothing(NOTHING.(usage := [u]));
  }

  /** With a deadline set, a backend that falls silent behind a usage record ends the run without
      error; the record was seen, and the run does not report it. */
  lemma DeadlineDropsUsage(cfg: Config, turns: seq<Turn>, u: UsageRecord)
    requires cfg.maxIterations > 0 && cfg.timeoutSeconds > 0
    ensures Repeating(Interrupted(u)).Fairly()
    ensures var ran := RunOf(cfg, Repeating(Interrupted(u)), turns);
            && ran.error.None? && FinishesOnce(ran.events)
            && Latest(ran.events).run.state.usage == []
            && SeenIn(ran.events).usage == [u]
  {
    var world, st := Repeating(Interrupted(u)), InitialState(cfg, turns);
    RepeatingIsFair(Interrupted(u));
    HearInterrupted(cfg.timeoutSeconds, u);
    assert world.stream(0, st.turns) == Interrupted(u);
    var run := AgentRun(GenerationTimedOut(cfg.timeoutSeconds), st);
    var head := [ModelStepStarted(0)] + ModelEvents(0, [WORD, UsageEvent(u)]);
    assert RunFrom(cfg, world, 0, st) == Behind(head, Ends(run));
    assert Latest(head + [RunFinished(run)]) == RunFinished(run);
    RunLaw(cfg, world, turns);
    StartedShowsNothing(RunFrom(cfg, world, 0, st), 0);
    SeenStepHead(0, [WORD, UsageEvent(u)]);
    SeenAppend(head, [RunFinished(run)]);
    SeenOne(RunFinished(run));
    ShownInterrupted(u);
    ThenNothing(NOTHING.(usage := [u]));
  }

  // ---------------------------------------------------------------------------
  // A step that leaves its calls unanswered
  // ---------------------------------------------------------------------------

  const CALL := DeltaEvent(ToolCallDelta("item", "call_1", Some("search"), ""))

  const PAUSE := Finished(Continue, "model")

  const PAUSING: seq<Signal<string>> := [Arrives(Ok(CALL)), Arrives(Ok(PAUSE))]

  lemma HearPausing(timeoutSeconds: nat)
    ensures Hear(timeoutSeconds, PAUSING) == Heard([CALL, PAUSE], None)
  {
    var one, two: Signal<string> := Arrives(Ok(CALL)), Arrives(Ok(PAUSE));
    HearSnoc(timeoutSeconds, [], one);
    HearSnoc(timeoutSeconds, [one], two);
    assert [] + [one] == [one] && [one] + [two] == PAUSING;
    assert [] + [CALL] == [CALL] && [CALL] + [PAUSE] == [CALL, PAUSE];
  }

  function PausedStep(): Step {
    Step(Continue, Output("model", [BlockItem(ToolCallBlock(ClientToolCall("call_1", "search", Json.EMPTY)))], []))
  }

  lemma PausingSlots()
    ensures FinishedOf([CALL, PAUSE]) == Some(PAUSE)
    ensures SlotsOf([CALL, PAUSE]) == [Pending(PendingToolCall("item", "call_1", Some("search"), ""))]
  {
    var d := CALL.delta;
    assert [] + [CALL] == [CALL] && [CALL] + [PAUSE] == [CALL, PAUSE] && [] + [d] == [d];
    SlotsAfterNewDelta([], d);
    SlotsAfterOther([CALL], PAUSE);
    PendingExtends([], d);
    assert Extend(NewPending("item", KindOf(d)), d) == PendingToolCall("item", "call_1", Some("search"), "" + "");
    var p := PendingToolCall("item", "call_1", Some("search"), "");
    assert PendingOf([d]) == p;
    assert SlotsOf([CALL]) == SlotsOf([]) + [Pending(p)];
    assert SlotsOf([CALL, PAUSE]) == SlotsOf([CALL]) + ReadySlot(PAUSE);
    assert SlotsOf([]) == [] && ReadySlot(PAUSE) == [];
    assert [] + [Pending(p)] + [] == [Pending(p)];
    assert Latest([CALL, PAUSE]) == PAUSE;
  }

  lemma PausingCollects(codec: Json.Codec)
    ensures FinishOf(codec, [CALL, PAUSE]) == Ok(PausedStep())
  {
    PausingSlots();
    var slots := SlotsOf([CALL, PAUSE]);
    var pending := PendingToolCall("item", "call_1", Some("search"), "");
    assert Init(slots) == [] && Latest(slots) == Pending(pending) && Json.IsBlank("");
    assert FinishPending(codec, pending, "model") == Ok(PausedStep().output.items[0]);
    assert FinishSlots(codec, Init(slots), "model") == Ok(Lists([], []));
    assert FinishSlots(codec, slots, "model") == Ok(Lists([] + [PausedStep().output.items[0]], []));
    assert [] + [PausedStep().output.items[0]] == PausedStep().output.items;
  }

  lemma PausedRun(cfg: Config, world: World<string>, st: RunState)
    requires cfg.maxIterations == 1
    requires EndOf(cfg, Hear(cfg.timeoutSeconds, world.stream(0, st.turns))) == Gathered(PausedStep())
    ensures RunFrom(cfg, world, 0, st).error.None?
    ensures FoldedOf(cfg, world, 0, PausedStep()) in History(cfg, world, 0, st)
  {
    var f := FoldedOf(cfg, world, 0, PausedStep());
    assert RunFrom(cfg, world, 1, After(cfg, st, 0, f)).error.None?;
    assert History(cfg, world, 0, st)[0] == f;
  }

  /** One such step, and the run ends at its limit with the call unanswered. */
  lemma PausedCallStaysUnanswered(cfg: Config, turns: seq<Turn>)
    requires cfg.maxIterations == 1
    ensures Repeating(PAUSING).Fairly()
    ensures var ran := RunOf(cfg, Repeating(PAUSING), turns);
            var start := Prepared(cfg.transcriptId, cfg.parts, turns);
            && ran.error.None? && FinishesOnce(ran.events)
            && start <= Latest(ran.events).run.state.turns
            && !CallsAnswered(Latest(ran.events).run.state.turns[|start|..])
  {
    var world, st := Repeating(PAUSING), InitialState(cfg, turns);
    RepeatingIsFair(PAUSING);
    HearPausing(cfg.timeoutSeconds);
    PausingCollects(cfg.codec);
    assert world.stream(0, st.turns) == PAUSING;
    PausedRun(cfg, world, st);
    assert LeavesCalls(FoldedOf(cfg, world, 0, PausedStep())) by {
      assert PausedStep().output.items[1..] == [];
    }
    TranscriptProtocol(cfg, world, turns);
  }

  // ---------------------------------------------------------------------------
  // A run with more steps than ordinals
  // ---------------------------------------------------------------------------

  const IDLE: seq<Signal<string>> := [Arrives(Ok(PAUSE))]

  function IdleStep(): Step { Step(Continue, Output("model", [], [])) }

  lemma HearIdle(cfg: Config)
    ensures EndOf(cfg, Hear(cfg.timeoutSeconds, IDLE)) == Gathered(IdleStep())
  {
    var one: Signal<string> := Arrives(Ok(PAUSE));
    HearSnoc(cfg.timeoutSeconds, [], one);
    assert [] + [one] == IDLE && [] + [PAUSE] == [PAUSE];
    SlotsAfterOther([], PAUSE);
    assert SlotsOf([]) == [] && ReadySlot(PAUSE) == [];
    assert SlotsOf([PAUSE]) == [] && Latest([PAUSE]) == PAUSE && FinishedOf([PAUSE]) == Some(PAUSE);
  }

  lemma {:induction false} IdleHistory(cfg: Config, n: nat, st: RunState)
    requires n <= cfg.maxIterations
    ensures |History(cfg, Repeating(IDLE), n, st)| == cfg.maxIterations - n
    ensures RunFrom(cfg, Repeating(IDLE), n, st).error.None?
    decreases cfg.maxIterations - n
  {
    if n < cfg.maxIterations {
      HearIdle(cfg);
      assert Repeating(IDLE).stream(n, st.turns) == IDLE;
      OneStepMore(cfg, Repeating(IDLE), n, st, IdleStep());
      IdleHistory(cfg, n + 1, After(cfg, st, n, FoldedOf(cfg, Repeating(IDLE), n, IdleStep())));
    }
  }

  lemma OneStepMore(cfg: Config, world: World<string>, n: nat, st: RunState, step: Step)
    requires n < cfg.maxIterations && !step.kind.Final?
    requires EndOf(cfg, Hear(cfg.timeoutSeconds, world.stream(n, st.turns))) == Gathered(step)
    ensures var next := After(cfg, st, n, FoldedOf(cfg, world, n, step));
            && |History(cfg, world, n, st)| == 1 + |History(cfg, world, n + 1, next)|
            && RunFrom(cfg, world, n, st).error == RunFrom(cfg, world, n + 1, next).error
  {}

  /** A backend that pauses forever, and a limit of one step more than there are ordinals: two steps
      of the run carry the same ordinal. */
  lemma OrdinalsSaturate(cfg: Config, turns: seq<Turn>)
    requires cfg.maxIterations == I32_MAX + 2
    ensures Repeating(IDLE).Fairly()
    ensures var ran := RunOf(cfg, Repeating(IDLE), turns);
            && ran.error.None? && FinishesOnce(ran.events)
            && var steps := Latest(ran.events).run.state.steps;
               |steps| == I32_MAX + 2 && steps[I32_MAX].ordinal == steps[I32_MAX + 1].ordinal == I32_MAX
  {
    RepeatingIsFair(IDLE);
    IdleHistory(cfg, 0, InitialState(cfg, turns));
    RunLaw(cfg, Repeating(IDLE), turns);
  }
}
