/** What every agent run guarantees, whatever the backend, the executor and the scheduler do. */
module AgentRuns {
  import opened Prelude
  import opened ModelStep
  import opened Transcript
  import opened AgentTools
  import opened Agent

  // ---------------------------------------------------------------------------
  // The folded steps of a run
  // ---------------------------------------------------------------------------

  /** The steps that were collected and folded, in order. */
  function History<E>(cfg: Config, world: World<E>, n: nat, st: RunState): seq<Folded>
    decreases cfg.maxIterations - n
  {
    if n >= cfg.maxIterations then []
    else
      match EndOf(cfg, Hear(cfg.timeoutSeconds, world.stream(n, st.turns)))
      case Gathered(step) =>
        var f := FoldedOf(cfg, world, n, step);
        [f] + if step.kind.Final? then [] else History(cfg, world, n + 1, After(cfg, st, n, f))
      case _ => []
  }

  /** The run state as the sum of what each folded step contributes. */
  function TurnsOf(h: seq<Folded>): seq<Turn> { if h == [] then [] else StepTurns(h[0]) + TurnsOf(h[1..]) }

  function TracesOf(h: seq<Folded>): seq<ToolTrace> { if h == [] then [] else StepTraces(h[0]) + TracesOf(h[1..]) }

  function UsageOf(h: seq<Folded>): seq<UsageRecord> {
    if h == [] then [] else h[0].step.output.usage + UsageOf(h[1..])
  }

  function RecordsOf(cfg: Config, n: nat, h: seq<Folded>): (records: seq<StepRecord>)
    ensures |records| == |h| && forall i :: 0 <= i < |h| ==> records[i] == RecordOf(cfg, n + i, h[i].step)
  {
    seq(|h|, i requires 0 <= i < |h| => RecordOf(cfg, n + i, h[i].step))
  }

  /** The model and the continuation of the last folded step, or what stood before. */
  function ModelBehind(before: Option<string>, h: seq<Folded>): Option<string> {
    if h == [] then before else Some(Latest(h).step.output.modelId)
  }

  function ContinuationBehind(before: Option<ProviderContinuation>, h: seq<Folded>): Option<ProviderContinuation> {
    if h == [] then before else Latest(h).step.output.Continuation()
  }

  ghost predicate Sums(cfg: Config, n: nat, st: RunState, h: seq<Folded>, end: RunState) {
    && end.lastModelId == ModelBehind(st.lastModelId, h)
    && end.finalContinuation == ContinuationBehind(st.finalContinuation, h)
    && end.turns == st.turns + TurnsOf(h)
    && end.trace == st.trace + TracesOf(h)
    && end.usage == st.usage + UsageOf(h)
    && end.steps == st.steps + RecordsOf(cfg, n, h)
  }

  predicate OnlyLastIsFinal(h: seq<Folded>) { forall i :: 0 <= i < |h| - 1 ==> !h[i].step.kind.Final? }

  predicate EndsFinal(h: seq<Folded>) { h != [] && Latest(h).step.kind.Final? }

  /** Why a run stopped. */
  predicate OutcomeFits(cfg: Config, n: nat, h: seq<Folded>, outcome: AgentOutcome) {
    match outcome
    case Completed(answer) => EndsFinal(h) && answer == AnswerOf(Latest(h).step.output)
    case IterationLimit(most) => !EndsFinal(h) && most == cfg.maxIterations && n + |h| >= most
    case GenerationTimedOut(seconds) =>
      !EndsFinal(h) && seconds == cfg.timeoutSeconds > 0 && n + |h| < cfg.maxIterations
  }

  lemma TurnsPeel(turns: seq<Turn>, f: Folded, h: seq<Folded>)
    ensures turns + TurnsOf([f] + h) == turns + StepTurns(f) + TurnsOf(h)
  {
    assert ([f] + h)[1..] == h;
    Assoc(turns, StepTurns(f), TurnsOf(h));
  }

  lemma TracesPeel(trace: seq<ToolTrace>, f: Folded, h: seq<Folded>)
    ensures trace + TracesOf([f] + h) == trace + StepTraces(f) + TracesOf(h)
  {
    assert ([f] + h)[1..] == h;
    Assoc(trace, StepTraces(f), TracesOf(h));
  }

  lemma UsagePeel(usage: seq<UsageRecord>, f: Folded, h: seq<Folded>)
    ensures usage + UsageOf([f] + h) == usage + f.step.output.usage + UsageOf(h)
  {
    assert ([f] + h)[1..] == h;
    Assoc(usage, f.step.output.usage, UsageOf(h));
  }

  lemma RecordsPeel(cfg: Config, n: nat, records: seq<StepRecord>, f: Folded, h: seq<Folded>)
    ensures records + RecordsOf(cfg, n, [f] + h) == records + [RecordOf(cfg, n, f.step)] + RecordsOf(cfg, n + 1, h)
  {
    assert RecordsOf(cfg, n, [f] + h) == [RecordOf(cfg, n, f.step)] + RecordsOf(cfg, n + 1, h);
    Assoc(records, [RecordOf(cfg, n, f.step)], RecordsOf(cfg, n + 1, h));
  }

  lemma SumsPeel(cfg: Config, n: nat, st: RunState, f: Folded, h: seq<Folded>, end: RunState)
    requires Sums(cfg, n + 1, After(cfg, st, n, f), h, end)
    ensures Sums(cfg, n, st, [f] + h, end)
  {
    TurnsPeel(st.turns, f, h);
    TracesPeel(st.trace, f, h);
    UsagePeel(st.usage, f, h);
    RecordsPeel(cfg, n, st.steps, f, h);
    assert h != [] ==> Latest([f] + h) == Latest(h);
  }

  lemma SumsNothing(cfg: Config, n: nat, st: RunState)
    ensures Sums(cfg, n, st, [], st)
  {
    assert RecordsOf(cfg, n, []) == [];
    assert st.turns + [] == st.turns && st.trace + [] == st.trace && st.usage + [] == st.usage
           && st.steps + [] == st.steps;
  }

  predicate NoRunFinished(events: seq<RunEvent>) { forall e :: e in events ==> !e.RunFinished? }

  predicate FinishesOnce(events: seq<RunEvent>) {
    events != [] && Latest(events).RunFinished? && NoRunFinished(Init(events))
  }

  lemma FinishesBehind(a: seq<RunEvent>, b: seq<RunEvent>)
    requires NoRunFinished(a)
    ensures FinishesOnce(b) ==> FinishesOnce(a + b) && Latest(a + b) == Latest(b)
    ensures NoRunFinished(b) ==> NoRunFinished(a + b)
  {
    if b != [] {
      assert Init(a + b) == a + Init(b);
    }
  }

  lemma {:induction false} ToolsFinishedPlain(outcomes: seq<ToolOutcome>)
    ensures NoRunFinished(ToolsFinished(outcomes))
  {
    if outcomes != [] {
      ToolsFinishedPlain(Init(outcomes));
    }
  }

  lemma ToolEventsPlain(f: Folded)
    ensures NoRunFinished(ToolEvents(f))
  {
    ToolsFinishedPlain(f.outcomes);
  }

  lemma {:induction false} TimeoutNeedsDeadline<E>(timeoutSeconds: nat, signals: seq<Signal<E>>)
    ensures Hear(timeoutSeconds, signals).end == Some(TimedOut) ==>
              timeoutSeconds > 0 && Generating(Hear(timeoutSeconds, signals).events)
  {
    if signals != [] {
      TimeoutNeedsDeadline(timeoutSeconds, Init(signals));
    }
  }

  /** A run ends with an error and no RunFinished, or with RunFinished exactly once and last,
      holding the sum of the folded steps and the outcome that fits them. */
  ghost predicate RunIs<E>(cfg: Config, n: nat, st: RunState, h: seq<Folded>, ran: Ran<E>) {
    && OnlyLastIsFinal(h) && n + |h| <= cfg.maxIterations
    && (ran.error.Some? ==> NoRunFinished(ran.events))
    && (ran.error.None? ==>
          && FinishesOnce(ran.events)
          && Sums(cfg, n, st, h, Latest(ran.events).run.state)
          && OutcomeFits(cfg, n, h, Latest(ran.events).run.outcome))
  }

  lemma RunIsPeel<E>(cfg: Config, n: nat, st: RunState, f: Folded, h: seq<Folded>, ran: Ran<E>)
    requires !f.step.kind.Final? && RunIs(cfg, n + 1, After(cfg, st, n, f), h, ran)
    ensures RunIs(cfg, n, st, [f] + h, Behind(ToolEvents(f), ran))
  {
    ToolEventsPlain(f);
    FinishesBehind(ToolEvents(f), ran.events);
    assert h != [] ==> Latest([f] + h) == Latest(h);
    if ran.error.None? {
      SumsPeel(cfg, n, st, f, h, Latest(ran.events).run.state);
    }
  }

  lemma RunIsLast<E>(cfg: Config, n: nat, st: RunState, f: Folded)
    requires f.step.kind.Final? && n < cfg.maxIterations
    ensures RunIs<E>(cfg, n, st, [f], Ends(AgentRun(Completed(AnswerOf(f.step.output)), After(cfg, st, n, f))))
  {
    SumsNothing(cfg, n + 1, After(cfg, st, n, f));
    SumsPeel(cfg, n, st, f, [], After(cfg, st, n, f));
    assert [f] + [] == [f];
  }

  lemma RunIsNothing<E>(cfg: Config, n: nat, st: RunState, outcome: AgentOutcome)
    requires OutcomeFits(cfg, n, [], outcome) && n <= cfg.maxIterations
    ensures RunIs<E>(cfg, n, st, [], Ends(AgentRun(outcome, st)))
  {
    SumsNothing(cfg, n, st);
  }

  lemma {:induction false} RunIsHistory<E>(cfg: Config, world: World<E>, n: nat, st: RunState)
    requires n <= cfg.maxIterations
    ensures RunIs(cfg, n, st, History(cfg, world, n, st), RunFrom(cfg, world, n, st))
    decreases cfg.maxIterations - n
  {
    if n >= cfg.maxIterations {
      RunIsNothing<E>(cfg, n, st, IterationLimit(cfg.maxIterations));
    } else {
      var heard := Hear(cfg.timeoutSeconds, world.stream(n, st.turns));
      TimeoutNeedsDeadline(cfg.timeoutSeconds, world.stream(n, st.turns));
      var end := EndOf(cfg, heard);
      match end {
        case TimedOut => RunIsNothing<E>(cfg, n, st, GenerationTimedOut(cfg.timeoutSeconds));
        case Failed(_) =>
        case Gathered(step) =>
          var f := FoldedOf(cfg, world, n, step);
          if step.kind.Final? {
            RunIsLast<E>(cfg, n, st, f);
            assert [f] + [] == [f];
          } else {
            RunIsHistory(cfg, world, n + 1, After(cfg, st, n, f));
            RunIsPeel(cfg, n, st, f, History(cfg, world, n + 1, After(cfg, st, n, f)),
                      RunFrom(cfg, world, n + 1, After(cfg, st, n, f)));
          }
      }
      RunIsBehind(cfg, n, st, History(cfg, world, n, st), [ModelStepStarted(n)] + ModelEvents(n, heard.events),
                  FoldFrom(cfg, world, n, st, end));
    }
  }

  lemma RunIsBehind<E>(cfg: Config, n: nat, st: RunState, h: seq<Folded>, events: seq<RunEvent>, ran: Ran<E>)
    requires NoRunFinished(events) && RunIs(cfg, n, st, h, ran)
    ensures RunIs(cfg, n, st, h, Behind(events, ran))
  {
    FinishesBehind(events, ran.events);
  }

  /** The main law of runs. */
  lemma RunLaw<E>(cfg: Config, world: World<E>, turns: seq<Turn>)
    ensures var ran := RunOf(cfg, world, turns);
            var h := History(cfg, world, 0, InitialState(cfg, turns));
            && |h| <= cfg.maxIterations
            && (ran.error.Some? <==> !FinishesOnce(ran.events))
            && (ran.error.Some? ==> NoRunFinished(ran.events))
            && (ran.error.None? ==>
                  var run := Latest(ran.events).run;
                  && run.state.turns == Prepared(cfg.transcriptId, cfg.parts, turns) + TurnsOf(h)
                  && run.state.trace == TracesOf(h)
                  && run.state.usage == UsageOf(h)
                  && run.state.lastModelId == ModelBehind(None, h)
                  && run.state.finalContinuation == ContinuationBehind(None, h)
                  && |run.state.steps| == |h|
                  && (forall i :: 0 <= i < |h| ==> run.state.steps[i] == RecordOf(cfg, i, h[i].step))
                  && (run.outcome.Completed? <==> EndsFinal(h))
                  && (run.outcome.IterationLimit? <==> |h| == cfg.maxIterations && !EndsFinal(h))
                  && (run.outcome.GenerationTimedOut? ==> cfg.timeoutSeconds > 0 && |h| < cfg.maxIterations))
  {
    var st := InitialState(cfg, turns);
    RunIsHistory(cfg, world, 0, st);
    var h := History(cfg, world, 0, st);
    RunIsBehind(cfg, 0, st, h, [RunStarted], RunFrom(cfg, world, 0, st));
    assert [] + TracesOf(h) == TracesOf(h) && [] + UsageOf(h) == UsageOf(h)
           && [] + RecordsOf(cfg, 0, h) == RecordsOf(cfg, 0, h);
  }
}
