/** What callers read off a run: usage totals, traces, ordinals, the collected run. */
module AgentReports {
  import opened Prelude
  import opened ModelStep
  import opened Transcript
  import opened AgentTools
  import opened Agent
  import opened AgentRuns
  import opened AgentConservation

  // ---------------------------------------------------------------------------
  // Usage and traces against the emitted events
  // ---------------------------------------------------------------------------

  function ServerIn(t: ToolTrace): seq<ServerToolUse> { if t.ServerTrace? then [t.tool] else [] }

  function GroundingIn(t: ToolTrace): seq<GroundingMetadata> { if t.GroundingTrace? then [t.metadata] else [] }

  function ClientIn(t: ToolTrace): seq<ClientToolTrace> { if t.ClientTrace? then [t.client] else [] }

  function ServerPart(trace: seq<ToolTrace>): seq<ServerToolUse> {
    if trace == [] then [] else ServerPart(Init(trace)) + ServerIn(Latest(trace))
  }

  function GroundingPart(trace: seq<ToolTrace>): seq<GroundingMetadata> {
    if trace == [] then [] else GroundingPart(Init(trace)) + GroundingIn(Latest(trace))
  }

  function ClientPart(trace: seq<ToolTrace>): seq<ClientToolTrace> {
    if trace == [] then [] else ClientPart(Init(trace)) + ClientIn(Latest(trace))
  }

  function TracesIn(outcomes: seq<ToolOutcome>): seq<ClientToolTrace> {
    seq(|outcomes|, i requires 0 <= i < |outcomes| => outcomes[i].trace)
  }

  /** A trace, kind by kind. */
  datatype Parts = Parts(tools: seq<ServerToolUse>, groundings: seq<GroundingMetadata>, clients: seq<ClientToolTrace>)
  {
    function Then(more: Parts): Parts {
      Parts(tools + more.tools, groundings + more.groundings, clients + more.clients)
    }
  }

  function PartsOf(trace: seq<ToolTrace>): Parts { Parts(ServerPart(trace), GroundingPart(trace), ClientPart(trace)) }

  lemma {:induction false} PartsAppend(a: seq<ToolTrace>, b: seq<ToolTrace>)
    ensures PartsOf(a + b) == PartsOf(a).Then(PartsOf(b))
    decreases |b|
  {
    if b == [] {
      assert a + b == a;
    } else {
      var front, last := Init(b), Latest(b);
      assert Init(a + b) == a + front && Latest(a + b) == last;
      PartsAppend(a, front);
      Assoc(ServerPart(a), ServerPart(front), ServerIn(last));
      Assoc(GroundingPart(a), GroundingPart(front), GroundingIn(last));
      Assoc(ClientPart(a), ClientPart(front), ClientIn(last));
    }
  }

  lemma {:induction false} ServerTracesParts(tools: seq<ServerToolUse>)
    ensures PartsOf(ServerTraces(tools)) == Parts(tools, [], [])
  {
    if tools != [] {
      ServerTracesParts(Init(tools));
      assert Init(ServerTraces(tools)) == ServerTraces(Init(tools));
    }
  }

  lemma {:induction false} GroundingTracesParts(gs: seq<GroundingMetadata>)
    ensures PartsOf(GroundingTraces(gs)) == Parts([], gs, [])
  {
    if gs != [] {
      GroundingTracesParts(Init(gs));
      assert Init(GroundingTraces(gs)) == GroundingTraces(Init(gs));
    }
  }

  lemma {:induction false} ClientTracesParts(outcomes: seq<ToolOutcome>)
    ensures PartsOf(ClientTraces(outcomes)) == Parts([], [], TracesIn(outcomes))
  {
    if outcomes != [] {
      ClientTracesParts(Init(outcomes));
      assert TracesIn(outcomes) == TracesIn(Init(outcomes)) + [Latest(outcomes).trace];
    }
  }

  /** A step's trace records are its server tool uses, its grounding and its client tool traces,
      each in order. */
  lemma StepParts(f: Folded)
    ensures PartsOf(StepTraces(f)) ==
            Parts(f.step.output.ServerToolUses(), f.step.output.Groundings(), TracesIn(f.outcomes))
  {
    var tools, gs := ServerTraces(f.step.output.ServerToolUses()), GroundingTraces(f.step.output.Groundings());
    ServerTracesParts(f.step.output.ServerToolUses());
    GroundingTracesParts(f.step.output.Groundings());
    ClientTracesParts(f.outcomes);
    PartsAppend(tools + gs, ClientTraces(f.outcomes));
    PartsAppend(tools, gs);
    KindsJoin(f.step.output.ServerToolUses(), f.step.output.Groundings(), TracesIn(f.outcomes));
  }

  lemma KindsJoin(tools: seq<ServerToolUse>, gs: seq<GroundingMetadata>, clients: seq<ClientToolTrace>)
    ensures Parts(tools, [], []).Then(Parts([], gs, [])).Then(Parts([], [], clients)) == Parts(tools, gs, clients)
  {}

  function Rank(t: ToolTrace): nat {
    match t case ServerTrace(_) => 0 case GroundingTrace(_) => 1 case ClientTrace(_) => 2
  }

  lemma {:induction false} ClientTracesKind(outcomes: seq<ToolOutcome>)
    ensures forall i :: 0 <= i < |ClientTraces(outcomes)| ==> ClientTraces(outcomes)[i].ClientTrace?
  {
    if outcomes != [] {
      ClientTracesKind(Init(outcomes));
    }
  }

  /** Server tools come first, then grounding, then client tools. */
  lemma StepOrder(f: Folded, i: nat, j: nat)
    requires i < j < |StepTraces(f)|
    ensures Rank(StepTraces(f)[i]) <= Rank(StepTraces(f)[j])
  {
    var tools, gs := ServerTraces(f.step.output.ServerToolUses()), GroundingTraces(f.step.output.Groundings());
    ClientTracesKind(f.outcomes);
    assert StepTraces(f) == tools + gs + ClientTraces(f.outcomes);
  }

  lemma {:induction false} HeldUsage(h: seq<Folded>)
    ensures UsageOf(h) == HeldIn(h).usage
  {
    if h != [] {
      HeldUsage(h[1..]);
    }
  }

  lemma TracesInAppend(a: seq<ToolOutcome>, b: seq<ToolOutcome>)
    ensures TracesIn(a + b) == TracesIn(a) + TracesIn(b)
  {}

  /** The trace records of what is held. */
  function PartsHeld(held: Seen): Parts { Parts(held.tools, held.groundings, TracesIn(held.outcomes)) }

  lemma PartsHeldThen(a: Seen, b: Seen)
    ensures PartsHeld(a.Then(b)) == PartsHeld(a).Then(PartsHeld(b))
  {
    TracesInAppend(a.outcomes, b.outcomes);
  }

  lemma {:induction false} HeldParts(h: seq<Folded>)
    ensures PartsOf(TracesOf(h)) == PartsHeld(HeldIn(h))
  {
    if h != [] {
      HeldParts(h[1..]);
      StepParts(h[0]);
      assert PartsHeld(HeldBy(h[0])) == PartsOf(StepTraces(h[0]));
      PartsAppend(StepTraces(h[0]), TracesOf(h[1..]));
      PartsHeldThen(HeldBy(h[0]), HeldIn(h[1..]));
    }
  }

  /** What the observer saw of the step behind the reported ones. */
  function Unreported(events: seq<RunEvent>, run: AgentRun): Seen { Shown(StepEvents(events, |run.state.steps|)) }

  lemma StartedShowsNothing<E>(ran: Ran<E>, ordinal: nat)
    ensures var all := Behind([RunStarted], ran).events;
            && SeenIn(all) == SeenIn(ran.events) && StepEvents(all, ordinal) == StepEvents(ran.events, ordinal)
            && (ran.events != [] ==> Latest(all) == Latest(ran.events))
  {
    SeenOne(RunStarted);
    SeenAppend([RunStarted], ran.events);
    ThenNothing(SeenIn(ran.events));
    StepEventsAppend([RunStarted], ran.events, ordinal);
    StepEventsNone([RunStarted], ordinal);
    assert [] + StepEvents(ran.events, ordinal) == StepEvents(ran.events, ordinal);
  }

  /** For every run without error: what was seen is what is reported, and then what the step that
      the deadline cut off showed. */
  lemma SeenIsReported<E>(cfg: Config, world: World<E>, turns: seq<Turn>)
    requires RunOf(cfg, world, turns).error.None?
    ensures FinishesOnce(RunOf(cfg, world, turns).events)
    ensures var events := RunOf(cfg, world, turns).events;
            var run := Latest(events).run;
            var seen, parts, more := SeenIn(events), PartsOf(run.state.trace), Unreported(events, run);
            && seen.usage == run.state.usage + more.usage
            && seen.tools == parts.tools + more.tools
            && seen.groundings == parts.groundings + more.groundings
            && TracesIn(seen.outcomes) == parts.clients
            && (StepEvents(events, |run.state.steps|) != [] ==> run.outcome.GenerationTimedOut?)
  {
    var st := InitialState(cfg, turns);
    var ran, h := RunFrom(cfg, world, 0, st), History(cfg, world, 0, st);
    RunLaw(cfg, world, turns);
    CutIsShown(cfg, world, 0, st);
    StartedShowsNothing(ran, |h|);
    SeenIsHeld(cfg, world, 0, st);
    HeldUsage(h);
    HeldParts(h);
    var more := Shown(CutFrom(cfg, world, 0, st));
    ShownHasNoOutcomes(CutFrom(cfg, world, 0, st));
    assert HeldIn(h).outcomes + more.outcomes == HeldIn(h).outcomes;
  }

  lemma {:induction false} ShownHasNoOutcomes(trace: seq<Event>)
    ensures Shown(trace).outcomes == []
  {
    if trace != [] {
      ShownHasNoOutcomes(Init(trace));
    }
  }

  lemma LongerUnlessEmpty<T>(a: seq<T>, b: seq<T>)
    ensures a == a + b <==> b == []
  {
    if a == a + b {
      assert |a| == |a| + |b|;
    }
  }

  /** A run without error reports exactly the usage, server tools, grounding and client tool traces
      whose events were emitted, in order, if and only if no step cut off by the deadline showed
      any of them. Client tool traces are never missing. */
  lemma RunConserves<E>(cfg: Config, world: World<E>, turns: seq<Turn>)
    requires RunOf(cfg, world, turns).error.None?
    ensures FinishesOnce(RunOf(cfg, world, turns).events)
    ensures var events := RunOf(cfg, world, turns).events;
            var run := Latest(events).run;
            var seen, parts := SeenIn(events), PartsOf(run.state.trace);
            && parts.clients == TracesIn(seen.outcomes)
            && (run.state.usage == seen.usage && parts.tools == seen.tools && parts.groundings == seen.groundings
                <==> Unreported(events, run) == NOTHING)
  {
    SeenIsReported(cfg, world, turns);
    var events := RunOf(cfg, world, turns).events;
    var run := Latest(events).run;
    var parts, more := PartsOf(run.state.trace), Unreported(events, run);
    ShownHasNoOutcomes(StepEvents(events, |run.state.steps|));
    LongerUnlessEmpty(run.state.usage, more.usage);
    LongerUnlessEmpty(parts.tools, more.tools);
    LongerUnlessEmpty(parts.groundings, more.groundings);
  }

  // ---------------------------------------------------------------------------
  // all_usage
  // ---------------------------------------------------------------------------

  function TraceUsage(t: ToolTrace): seq<UsageRecord> {
    match t case ClientTrace(client) => client.usage case ServerTrace(tool) => tool.usage case GroundingTrace(_) => []
  }

  function TracesUsage(trace: seq<ToolTrace>): seq<UsageRecord> {
    if trace == [] then [] else TracesUsage(Init(trace)) + TraceUsage(Latest(trace))
  }

  method AllUsage(run: AgentRun) returns (usage: seq<UsageRecord>)
    ensures usage == run.state.usage + TracesUsage(run.state.trace)
  {
    usage := run.state.usage;
    var trace := run.state.trace;
    for k := 0 to |trace|
      invariant usage == run.state.usage + TracesUsage(trace[..k])
    {
      assert Init(trace[..k + 1]) == trace[..k] && Latest(trace[..k + 1]) == trace[k];
      Assoc(run.state.usage, TracesUsage(trace[..k]), TraceUsage(trace[k]));
      assert usage + [] == usage;
      match trace[k] {
        case ClientTrace(client) => usage := usage + client.usage;
        case ServerTrace(tool) => usage := usage + tool.usage;
        case GroundingTrace(_) =>
      }
    }
    assert trace[..|trace|] == trace;
  }

  function ServerUsage(tools: seq<ServerToolUse>): seq<UsageRecord> {
    if tools == [] then [] else ServerUsage(Init(tools)) + Latest(tools).usage
  }

  function ClientUsage(traces: seq<ClientToolTrace>): seq<UsageRecord> {
    if traces == [] then [] else ClientUsage(Init(traces)) + Latest(traces).usage
  }

  lemma {:induction false} ServerUsageAppend(a: seq<ServerToolUse>, b: seq<ServerToolUse>)
    ensures ServerUsage(a + b) == ServerUsage(a) + ServerUsage(b)
    decreases |b|
  {
    if b == [] {
      assert a + b == a;
    } else {
      assert Init(a + b) == a + Init(b) && Latest(a + b) == Latest(b);
      ServerUsageAppend(a, Init(b));
      Assoc(ServerUsage(a), ServerUsage(Init(b)), Latest(b).usage);
    }
  }

  lemma {:induction false} ClientUsageAppend(a: seq<ClientToolTrace>, b: seq<ClientToolTrace>)
    ensures ClientUsage(a + b) == ClientUsage(a) + ClientUsage(b)
    decreases |b|
  {
    if b == [] {
      assert a + b == a;
    } else {
      assert Init(a + b) == a + Init(b) && Latest(a + b) == Latest(b);
      ClientUsageAppend(a, Init(b));
      Assoc(ClientUsage(a), ClientUsage(Init(b)), Latest(b).usage);
    }
  }

  lemma OneTraceUsage(t: ToolTrace)
    ensures TraceUsage(t) == ServerUsage(ServerIn(t)) + ClientUsage(ClientIn(t))
  {
    match t {
      case ServerTrace(tool) => assert Init([tool]) == [] && Latest([tool]) == tool;
      case ClientTrace(client) => assert Init([client]) == [] && Latest([client]) == client;
      case GroundingTrace(_) =>
    }
  }

  /** Every record of a traced tool is in the total once. */
  lemma {:induction false} TracesUsageSplits(trace: seq<ToolTrace>)
    ensures multiset(TracesUsage(trace)) ==
            multiset(ServerUsage(ServerPart(trace))) + multiset(ClientUsage(ClientPart(trace)))
  {
    if trace != [] {
      var front, last := Init(trace), Latest(trace);
      TracesUsageSplits(front);
      OneTraceUsage(last);
      ServerUsageAppend(ServerPart(front), ServerIn(last));
      ClientUsageAppend(ClientPart(front), ClientIn(last));
    }
  }

  /** All usage records that events showed: the model's, the server tools' and the client tools'. */
  function UsageRecordsIn(seen: Seen): multiset<UsageRecord> {
    multiset(seen.usage) + multiset(ServerUsage(seen.tools)) + multiset(ClientUsage(TracesIn(seen.outcomes)))
  }

  function TotalUsage(run: AgentRun): multiset<UsageRecord> {
    multiset(run.state.usage + TracesUsage(run.state.trace))
  }

  lemma TotalSplits(run: AgentRun)
    ensures var parts := PartsOf(run.state.trace);
            TotalUsage(run) ==
            multiset(run.state.usage) + multiset(ServerUsage(parts.tools)) + multiset(ClientUsage(parts.clients))
  {
    TracesUsageSplits(run.state.trace);
  }

  lemma BagsAdd(a: multiset<UsageRecord>, b: multiset<UsageRecord>)
    ensures a == a + b <==> b == multiset{}
  {
    if a == a + b {
      forall x
        ensures b[x] == 0
      {
        assert a[x] == (a + b)[x] == a[x] + b[x];
      }
      assert forall x :: x !in b;
    }
  }

  lemma SeenBag(run: AgentRun, seen: Seen, more: Seen)
    requires var parts := PartsOf(run.state.trace);
             && seen.usage == run.state.usage + more.usage && seen.tools == parts.tools + more.tools
             && TracesIn(seen.outcomes) == parts.clients && more.outcomes == []
    ensures UsageRecordsIn(seen) == TotalUsage(run) + UsageRecordsIn(more)
  {
    TotalSplits(run);
    ServerUsageAppend(PartsOf(run.state.trace).tools, more.tools);
    assert TracesIn([]) == [] && ClientUsage([]) == [];
  }

  /** The total of every run without error, and the usage of the step that the deadline cut off,
      are together all usage the events showed, each record once. So the total is complete if and
      only if no such step showed usage of the model or of a server tool. */
  lemma AllUsageIsSeen<E>(cfg: Config, world: World<E>, turns: seq<Turn>)
    requires RunOf(cfg, world, turns).error.None?
    ensures FinishesOnce(RunOf(cfg, world, turns).events)
    ensures var events := RunOf(cfg, world, turns).events;
            var run := Latest(events).run;
            var more := Unreported(events, run);
            && UsageRecordsIn(SeenIn(events)) == TotalUsage(run) + UsageRecordsIn(more)
            && (TotalUsage(run) == UsageRecordsIn(SeenIn(events)) <==> UsageRecordsIn(more) == multiset{})
  {
    SeenIsReported(cfg, world, turns);
    var events := RunOf(cfg, world, turns).events;
    var run := Latest(events).run;
    ShownHasNoOutcomes(StepEvents(events, |run.state.steps|));
    SeenBag(run, SeenIn(events), Unreported(events, run));
    BagsAdd(TotalUsage(run), UsageRecordsIn(Unreported(events, run)));
  }

  // ---------------------------------------------------------------------------
  // Ordinals
  // ---------------------------------------------------------------------------

  /** Ordinals count the steps from 0, as long as a signed 32-bit number can. */
  lemma OrdinalsCount<E>(cfg: Config, world: World<E>, turns: seq<Turn>)
    requires RunOf(cfg, world, turns).error.None?
    ensures FinishesOnce(RunOf(cfg, world, turns).events)
    ensures var steps := Latest(RunOf(cfg, world, turns).events).run.state.steps;
            && |steps| <= cfg.maxIterations
            && ((forall i :: 0 <= i < |steps| ==> steps[i].ordinal == i) <==> |steps| <= I32_MAX + 1)
  {
    RunLaw(cfg, world, turns);
    var steps := Latest(RunOf(cfg, world, turns).events).run.state.steps;
    if |steps| > I32_MAX + 1 {
      assert steps[I32_MAX + 1].ordinal == I32_MAX;
    }
  }

  // ---------------------------------------------------------------------------
  // collect_agent_run
  // ---------------------------------------------------------------------------

  /** The items of a run's stream. */
  function StreamOf<E>(ran: Ran<E>): (items: seq<Result<RunEvent, RunError<E>>>)
    ensures |items| == |ran.events| + if ran.error.Some? then 1 else 0
    ensures forall i :: 0 <= i < |ran.events| ==> items[i] == Ok(ran.events[i])
    ensures ran.error.Some? ==> Latest(items) == Err(ran.error.value)
  {
    seq(|ran.events|, i requires 0 <= i < |ran.events| => Ok(ran.events[i]))
    + match ran.error case Some(e) => [Err(e)] case None => []
  }

  /** Runs reported as finished. */
  function RunsIn<E>(items: seq<Result<RunEvent, RunError<E>>>): seq<AgentRun> {
    if items == [] then []
    else
      RunsIn(Init(items))
      + if Latest(items).Ok? && Latest(items).value.RunFinished? then [Latest(items).value.run] else []
  }

  /** An error, or a run finished behind another. */
  predicate Stops<E>(items: seq<Result<RunEvent, RunError<E>>>, i: nat)
    requires i < |items|
  {
    items[i].Err? || (items[i].value.RunFinished? && RunsIn(items[..i]) != [])
  }

  /** The first item that stops collecting decides; without one, the only finished run does. */
  method CollectAgentRun<E>(items: seq<Result<RunEvent, RunError<E>>>) returns (r: Result<AgentRun, RunError<E>>)
    ensures forall i :: 0 <= i < |items| && Stops(items, i) && (forall j :: 0 <= j < i ==> !Stops(items, j)) ==>
              r == Err(if items[i].Err? then items[i].error else DuplicateRunFinished)
    ensures (forall i :: 0 <= i < |items| ==> !Stops(items, i)) ==>
              && |RunsIn(items)| <= 1
              && r == if RunsIn(items) == [] then Err(RunStreamEnded) else Ok(RunsIn(items)[0])
  {
    var finished: Option<AgentRun> := None;
    for k := 0 to |items|
      invariant forall j :: 0 <= j < k ==> !Stops(items, j)
      invariant RunsIn(items[..k]) == (match finished case Some(run) => [run] case None => [])
    {
      assert Init(items[..k + 1]) == items[..k];
      match items[k] {
        case Err(e) =>
          assert Stops(items, k);
          return Err(e);
        case Ok(event) =>
          if event.RunFinished? {
            if finished.Some? {
              assert Stops(items, k);
              return Err(DuplicateRunFinished);
            }
            finished := Some(event.run);
          }
      }
    }
    assert items[..|items|] == items;
    return match finished case Some(run) => Ok(run) case None => Err(RunStreamEnded);
  }

  lemma {:induction false} NoRuns<E>(items: seq<Result<RunEvent, RunError<E>>>)
    requires forall i :: 0 <= i < |items| ==> items[i].Ok? && !items[i].value.RunFinished?
    ensures RunsIn(items) == []
    ensures forall i :: 0 <= i < |items| ==> !Stops(items, i)
  {
    if items != [] {
      NoRuns(Init(items));
      forall i | 0 <= i < |items|
        ensures !Stops(items, i)
      {}
    }
  }

  /** A stream without RunFinished stops at its error; one that finishes once, and last, never does. */
  lemma OwnStream<E>(ran: Ran<E>)
    requires if ran.error.Some? then NoRunFinished(ran.events) else FinishesOnce(ran.events)
    ensures var items := StreamOf(ran);
            if ran.error.Some?
            then Stops(items, |ran.events|) && forall j :: 0 <= j < |ran.events| ==> !Stops(items, j)
            else RunsIn(items) == [Latest(ran.events).run] && forall j :: 0 <= j < |items| ==> !Stops(items, j)
  {
    var items := StreamOf(ran);
    var plain := if ran.error.Some? then ran.events else Init(ran.events);
    var front := items[..|plain|];
    forall i | 0 <= i < |front|
      ensures front[i].Ok? && !front[i].value.RunFinished?
    {
      assert front[i] == Ok(plain[i]) && plain[i] in plain;
    }
    NoRuns(front);
    forall j | 0 <= j < |front|
      ensures !Stops(items, j)
    {
      assert !Stops(front, j) && items[..j] == front[..j];
    }
    if ran.error.None? {
      assert Init(items) == front;
    }
  }

  /** Collecting a run's own stream gives its run or its error, never a protocol error. */
  method CollectOwnRun<E>(cfg: Config, world: World<E>, turns: seq<Turn>) returns (r: Result<AgentRun, RunError<E>>)
    requires world.Fairly()
    ensures var ran := RunOf(cfg, world, turns);
            match ran.error
            case Some(e) => r == Err(e)
            case None => FinishesOnce(ran.events) && r == Ok(Latest(ran.events).run)
  {
    var events, error := Run(cfg, world, turns);
    ghost var ran := Ran(events, error);
    RunLaw(cfg, world, turns);
    OwnStream(ran);
    r := CollectAgentRun(StreamOf(Ran(events, error)));
  }
}
