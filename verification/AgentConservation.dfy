/** What an observer sees of a run against what the run adds up: nothing is lost or repeated
    but what the step cut off by a deadline showed. */
module AgentConservation {
  import opened Prelude
  import opened ModelStep
  import opened Collector
  import opened AgentTools
  import opened Agent
  import opened AgentRuns
  import opened AgentLaws
  import Json

  /** Records that events, places, items or steps carry, kind by kind, in order. */
  datatype Seen = Seen(
    usage: seq<UsageRecord>, tools: seq<ServerToolUse>, groundings: seq<GroundingMetadata>, outcomes: seq<ToolOutcome>)
  {
    function Then(more: Seen): Seen {
      Seen(usage + more.usage, tools + more.tools, groundings + more.groundings, outcomes + more.outcomes)
    }
  }

  const NOTHING := Seen([], [], [], [])

  lemma ThenAssoc(a: Seen, b: Seen, c: Seen)
    ensures a.Then(b).Then(c) == a.Then(b.Then(c))
  {
    Assoc(a.usage, b.usage, c.usage);
    Assoc(a.tools, b.tools, c.tools);
    Assoc(a.groundings, b.groundings, c.groundings);
    Assoc(a.outcomes, b.outcomes, c.outcomes);
  }

  lemma ThenNothing(a: Seen)
    ensures NOTHING.Then(a) == a && a.Then(NOTHING) == a
  {}

  // ---------------------------------------------------------------------------
  // One step: its events against its output
  // ---------------------------------------------------------------------------

  function ShownBy(e: Event): Seen {
    match e
    case UsageEvent(u) => NOTHING.(usage := [u])
    case ServerToolEvent(t) => NOTHING.(tools := [t])
    case GroundingEvent(g) => NOTHING.(groundings := [g])
    case _ => NOTHING
  }

  function Shown(trace: seq<Event>): Seen {
    if trace == [] then NOTHING else Shown(Init(trace)).Then(ShownBy(Latest(trace)))
  }

  function ShownAt(p: Place): Seen {
    match p
    case ItemPlace(_) => NOTHING
    case UsagePlace(u) => NOTHING.(usage := [u])
    case ReadyPlace(ServerToolEntry(t)) => NOTHING.(tools := [t])
    case ReadyPlace(GroundingEntry(g)) => NOTHING.(groundings := [g])
    case ReadyPlace(_) => NOTHING
  }

  function ShownIn(places: seq<Place>): Seen {
    if places == [] then NOTHING else ShownIn(Init(places)).Then(ShownAt(Latest(places)))
  }

  lemma ShownInSnoc(places: seq<Place>, p: Place)
    ensures ShownIn(places + [p]) == ShownIn(places).Then(ShownAt(p))
  {
    assert Init(places + [p]) == places;
  }

  /** The places of a trace show what its events show. */
  lemma {:induction false} PlacesShow(trace: seq<Event>)
    ensures ShownIn(PlacesOf(trace)) == Shown(trace)
  {
    if trace != [] {
      PlacesShow(Init(trace));
      PlaceOpens(trace);
      PlaceShows(Latest(trace));
      ShownInSnoc(PlacesOf(Init(trace)), PlaceFor(Latest(trace)));
      ThenNothing(Shown(Init(trace)));
    }
  }

  lemma PlaceShows(e: Event)
    ensures ShownAt(PlaceFor(e)) == ShownBy(e)
  {}

  function ToolIn(item: Item): seq<ServerToolUse> { if item.ServerToolEntry? then [item.tool] else [] }

  function GroundingIn(item: Item): seq<GroundingMetadata> { if item.GroundingEntry? then [item.metadata] else [] }

  lemma {:induction false} EntriesSnoc(items: seq<Item>, item: Item)
    ensures ServerToolsOf(items + [item]) == ServerToolsOf(items) + ToolIn(item)
    ensures GroundingsOf(items + [item]) == GroundingsOf(items) + GroundingIn(item)
  {
    if items == [] {
      assert [] + [item] == [item] && [item][1..] == [];
    } else {
      assert (items + [item])[0] == items[0] && (items + [item])[1..] == items[1..] + [item];
      EntriesSnoc(items[1..], item);
      Assoc(ToolIn(items[0]), ServerToolsOf(items[1..]), ToolIn(item));
      Assoc(GroundingIn(items[0]), GroundingsOf(items[1..]), GroundingIn(item));
    }
  }

  function Listed(lists: Lists): Seen { Seen(lists.usage, ServerToolsOf(lists.items), GroundingsOf(lists.items), []) }

  lemma ListedSnoc(before: Lists, item: Item)
    ensures Listed(before.(items := before.items + [item])) ==
            Listed(before).Then(Seen([], ToolIn(item), GroundingIn(item), []))
  {
    EntriesSnoc(before.items, item);
  }

  /** A pending item finishes as no server tool and no grounding. */
  lemma PendingShows(codec: Json.Codec, pending: PendingItem, modelId: string)
    requires FinishPending(codec, pending, modelId).Ok?
    ensures ToolIn(FinishPending(codec, pending, modelId).value) == []
    ensures GroundingIn(FinishPending(codec, pending, modelId).value) == []
  {}

  lemma SlotShows(codec: Json.Codec, trace: seq<Event>, before: Lists, place: Place, modelId: string)
    requires place.ItemPlace? ==> DeltasOf(trace, place.id) != []
    requires FinishSlot(codec, before, SlotAt(trace, place), modelId).Ok?
    ensures Listed(FinishSlot(codec, before, SlotAt(trace, place), modelId).value) ==
            Listed(before).Then(ShownAt(place))
  {
    match place {
      case ItemPlace(id) =>
        var pending := PendingOf(DeltasOf(trace, id));
        PendingShows(codec, pending, modelId);
        ListedSnoc(before, FinishPending(codec, pending, modelId).value);
      case ReadyPlace(item) => ListedSnoc(before, item);
      case UsagePlace(_) =>
    }
  }

  /** Finished slots hold what their places show. */
  lemma {:induction false} SlotsShow(codec: Json.Codec, trace: seq<Event>, places: seq<Place>, slots: seq<OutputSlot>,
                                     modelId: string)
    requires |slots| == |places|
    requires forall k :: 0 <= k < |slots| ==>
               && (places[k].ItemPlace? ==> DeltasOf(trace, places[k].id) != []) && slots[k] == SlotAt(trace, places[k])
    requires FinishSlots(codec, slots, modelId).Ok?
    ensures Listed(FinishSlots(codec, slots, modelId).value) == ShownIn(places)
    decreases |slots|
  {
    if slots != [] {
      assert FinishSlots(codec, Init(slots), modelId).Ok?;
      SlotsShow(codec, trace, Init(places), Init(slots), modelId);
      var before := FinishSlots(codec, Init(slots), modelId).value;
      assert FinishSlots(codec, slots, modelId) == FinishSlot(codec, before, Latest(slots), modelId);
      SlotShows(codec, trace, before, Latest(places), modelId);
    }
  }

  function Reported(output: Output): Seen { Seen(output.usage, output.ServerToolUses(), output.Groundings(), []) }

  /** A collected step reports exactly the usage, server tools and grounding of its events, in
      order. */
  lemma StepConserves(codec: Json.Codec, trace: seq<Event>)
    requires FinishOf(codec, trace).Ok?
    ensures Reported(FinishOf(codec, trace).value.output) == Shown(trace)
  {
    PlacesShow(trace);
    SlotsShow(codec, trace, PlacesOf(trace), SlotsOf(trace), FinishedOf(trace).value.modelId);
  }

  // ---------------------------------------------------------------------------
  // What a run shows
  // ---------------------------------------------------------------------------

  function SeenBy(e: RunEvent): Seen {
    match e
    case ModelEvent(_, event) => ShownBy(event)
    case ClientToolFinished(outcome) => NOTHING.(outcomes := [outcome])
    case _ => NOTHING
  }

  function SeenIn(events: seq<RunEvent>): Seen {
    if events == [] then NOTHING else SeenIn(Init(events)).Then(SeenBy(Latest(events)))
  }

  lemma {:induction false} SeenAppend(a: seq<RunEvent>, b: seq<RunEvent>)
    ensures SeenIn(a + b) == SeenIn(a).Then(SeenIn(b))
    decreases |b|
  {
    if b == [] {
      assert a + b == a;
      ThenNothing(SeenIn(a));
    } else {
      assert Init(a + b) == a + Init(b) && Latest(a + b) == Latest(b);
      SeenAppend(a, Init(b));
      ThenAssoc(SeenIn(a), SeenIn(Init(b)), SeenBy(Latest(b)));
    }
  }

  lemma {:induction false} SeenModelEvents(n: nat, events: seq<Event>)
    ensures SeenIn(ModelEvents(n, events)) == Shown(events)
  {
    if events != [] {
      SeenModelEvents(n, Init(events));
      assert Init(ModelEvents(n, events)) == ModelEvents(n, Init(events));
    }
  }

  lemma {:induction false} SeenStarted(calls: seq<ClientToolCall>)
    ensures SeenIn(ToolsStarted(calls)) == NOTHING
  {
    if calls != [] {
      SeenStarted(Init(calls));
      assert Init(ToolsStarted(calls)) == ToolsStarted(Init(calls));
    }
  }

  lemma {:induction false} SeenFinished(outcomes: seq<ToolOutcome>)
    ensures SeenIn(ToolsFinished(outcomes)) == NOTHING.(outcomes := outcomes)
  {
    if outcomes != [] {
      SeenFinished(Init(outcomes));
      assert Init(ToolsFinished(outcomes)) == ToolsFinished(Init(outcomes));
      assert Latest(ToolsFinished(outcomes)) == ClientToolFinished(Latest(outcomes));
      OutcomeBehind(Init(outcomes), Latest(outcomes));
      assert outcomes == Init(outcomes) + [Latest(outcomes)];
    }
  }

  lemma OutcomeBehind(outcomes: seq<ToolOutcome>, outcome: ToolOutcome)
    ensures NOTHING.(outcomes := outcomes).Then(NOTHING.(outcomes := [outcome])) ==
            NOTHING.(outcomes := outcomes + [outcome])
  {}

  /** What the folded steps hold. */
  function HeldBy(f: Folded): Seen { Reported(f.step.output).(outcomes := f.outcomes) }

  function HeldIn(h: seq<Folded>): Seen { if h == [] then NOTHING else HeldBy(h[0]).Then(HeldIn(h[1..])) }

  lemma SeenToolEvents(f: Folded)
    requires OwnOutcomes(f)
    ensures SeenIn(ToolEvents(f)) == NOTHING.(outcomes := f.outcomes)
  {
    if f.step.kind.ClientTools? {
      SeenStarted(f.step.output.ClientToolCalls());
      SeenFinished(f.outcomes);
      SeenAppend(ToolsStarted(f.step.output.ClientToolCalls()), ToolsFinished(f.outcomes));
    }
  }

  lemma SeenOne(e: RunEvent)
    requires !e.ModelEvent? && !e.ClientToolFinished?
    ensures SeenIn([e]) == NOTHING
  {
    assert Init([e]) == [] && Latest([e]) == e;
    ThenNothing(NOTHING);
  }

  lemma SeenStepHead(n: nat, heard: seq<Event>)
    ensures SeenIn([ModelStepStarted(n)] + ModelEvents(n, heard)) == Shown(heard)
  {
    SeenOne(ModelStepStarted(n));
    SeenModelEvents(n, heard);
    SeenAppend([ModelStepStarted(n)], ModelEvents(n, heard));
    ThenNothing(Shown(heard));
  }

  /** Model and tool events of one folded step show what the step holds. */
  lemma SeenStep<E>(cfg: Config, world: World<E>, n: nat, heard: Heard<E>, step: Step)
    requires EndOf(cfg, heard) == Gathered(step) && heard.end.None?
    ensures var f := FoldedOf(cfg, world, n, step);
            SeenIn([ModelStepStarted(n)] + ModelEvents(n, heard.events)).Then(SeenIn(ToolEvents(f))) == HeldBy(f)
  {
    var f := FoldedOf(cfg, world, n, step);
    FoldedOwns(cfg, world, n, step);
    SeenStepHead(n, heard.events);
    SeenToolEvents(f);
    StepConserves(cfg.codec, heard.events);
    assert Reported(step.output).Then(NOTHING.(outcomes := f.outcomes)) == HeldBy(f);
  }

  lemma {:induction false} NoGatheredSignal<E>(timeoutSeconds: nat, signals: seq<Signal<E>>)
    ensures match Hear(timeoutSeconds, signals).end { case Some(Gathered(_)) => false case _ => true }
  {
    if signals != [] {
      NoGatheredSignal(timeoutSeconds, Init(signals));
    }
  }

  lemma HeldPeel(f: Folded, h: seq<Folded>)
    ensures HeldIn([f] + h) == HeldBy(f).Then(HeldIn(h))
  {
    assert ([f] + h)[0] == f && ([f] + h)[1..] == h;
  }

  // ---------------------------------------------------------------------------
  // The step that a deadline cuts off
  // ---------------------------------------------------------------------------

  /** Events of the step that was under way when the deadline passed, if it did. */
  function CutFrom<E>(cfg: Config, world: World<E>, n: nat, st: RunState): seq<Event>
    decreases cfg.maxIterations - n, 1
  {
    if n >= cfg.maxIterations then []
    else
      var heard := Hear(cfg.timeoutSeconds, world.stream(n, st.turns));
      match EndOf(cfg, heard)
      case TimedOut => heard.events
      case Failed(_) => []
      case Gathered(step) => CutAfter(cfg, world, n, st, step)
  }

  function CutAfter<E>(cfg: Config, world: World<E>, n: nat, st: RunState, step: Step): seq<Event>
    requires n < cfg.maxIterations
    decreases cfg.maxIterations - n, 0
  {
    if step.kind.Final? then [] else CutFrom(cfg, world, n + 1, After(cfg, st, n, FoldedOf(cfg, world, n, step)))
  }

  /** History from a step that was just collected. */
  function HistoryAfter<E>(cfg: Config, world: World<E>, n: nat, st: RunState, step: Step): seq<Folded> {
    var f := FoldedOf(cfg, world, n, step);
    [f] + if step.kind.Final? then [] else History(cfg, world, n + 1, After(cfg, st, n, f))
  }

  /** What the folded steps hold, and behind it what the cut step showed. */
  function Total(h: seq<Folded>, cut: seq<Event>): Seen { HeldIn(h).Then(Shown(cut)) }

  lemma TotalPeel(f: Folded, h: seq<Folded>, cut: seq<Event>)
    ensures Total([f] + h, cut) == HeldBy(f).Then(Total(h, cut))
  {
    HeldPeel(f, h);
    ThenAssoc(HeldBy(f), HeldIn(h), Shown(cut));
  }

  lemma TotalNothing()
    ensures Total([], []) == NOTHING
  {}

  /** A final step: its events, then RunFinished. */
  lemma SeenFinal(f: Folded, head: seq<RunEvent>, end: RunEvent)
    requires end.RunFinished? && f.step.kind.Final? && SeenIn(head).Then(SeenIn(ToolEvents(f))) == HeldBy(f)
    ensures SeenIn(head + [end]) == Total([f] + [], [])
  {
    SeenAppend(head, [end]);
    SeenOne(end);
    TotalPeel(f, [], []);
    TotalNothing();
    ThenNothing(SeenIn(head));
    ThenNothing(HeldBy(f));
  }

  /** Any other step: its events, then those of the rest of the run. */
  lemma SeenOther(f: Folded, head: seq<RunEvent>, rest: seq<RunEvent>, h: seq<Folded>, cut: seq<Event>)
    requires SeenIn(head).Then(SeenIn(ToolEvents(f))) == HeldBy(f) && SeenIn(rest) == Total(h, cut)
    ensures SeenIn(head + (ToolEvents(f) + rest)) == Total([f] + h, cut)
  {
    SeenAppend(head, ToolEvents(f) + rest);
    SeenAppend(ToolEvents(f), rest);
    ThenAssoc(SeenIn(head), SeenIn(ToolEvents(f)), SeenIn(rest));
    TotalPeel(f, h, cut);
  }

  /** A deadline: the events heard so far, then RunFinished. */
  lemma SeenCut(n: nat, heard: seq<Event>, end: RunEvent)
    requires end.RunFinished?
    ensures SeenIn([ModelStepStarted(n)] + ModelEvents(n, heard) + [end]) == Total([], heard)
  {
    SeenStepHead(n, heard);
    SeenAppend([ModelStepStarted(n)] + ModelEvents(n, heard), [end]);
    SeenOne(end);
    ThenNothing(Shown(heard));
  }

  /** What a folded step and the rest of the run show is what they hold. */
  lemma SeenFold<E>(cfg: Config, world: World<E>, n: nat, st: RunState, head: seq<RunEvent>, step: Step)
    requires n < cfg.maxIterations
    requires var f := FoldedOf(cfg, world, n, step); var next := After(cfg, st, n, f);
             && SeenIn(head).Then(SeenIn(ToolEvents(f))) == HeldBy(f)
             && (!step.kind.Final? ==>
                   SeenIn(RunFrom(cfg, world, n + 1, next).events) ==
                   Total(History(cfg, world, n + 1, next), CutFrom(cfg, world, n + 1, next)))
    ensures SeenIn(head + FoldFrom(cfg, world, n, st, Gathered(step)).events) ==
            Total(HistoryAfter(cfg, world, n, st, step), CutAfter(cfg, world, n, st, step))
  {
    var f := FoldedOf(cfg, world, n, step);
    var next := After(cfg, st, n, f);
    if step.kind.Final? {
      SeenFinal(f, head, RunFinished(AgentRun(Completed(AnswerOf(step.output)), next)));
    } else {
      SeenOther(f, head, RunFrom(cfg, world, n + 1, next).events, History(cfg, world, n + 1, next),
                CutFrom(cfg, world, n + 1, next));
    }
  }

  lemma {:induction false} SeenFromStep<E>(cfg: Config, world: World<E>, n: nat, st: RunState, heard: Heard<E>,
                                           step: Step)
    requires n < cfg.maxIterations && heard.end.None? && EndOf(cfg, heard) == Gathered(step)
    requires FoldFrom(cfg, world, n, st, Gathered(step)).error.None?
    ensures SeenIn([ModelStepStarted(n)] + ModelEvents(n, heard.events)
                   + FoldFrom(cfg, world, n, st, Gathered(step)).events) ==
            Total(HistoryAfter(cfg, world, n, st, step), CutAfter(cfg, world, n, st, step))
    decreases cfg.maxIterations - n, 0
  {
    SeenStep(cfg, world, n, heard, step);
    if !step.kind.Final? {
      SeenIsHeld(cfg, world, n + 1, After(cfg, st, n, FoldedOf(cfg, world, n, step)));
    }
    SeenFold(cfg, world, n, st, [ModelStepStarted(n)] + ModelEvents(n, heard.events), step);
  }

  /** What a run without error shows is what its folded steps hold, and then what the cut step
      showed. */
  lemma {:induction false} SeenIsHeld<E>(cfg: Config, world: World<E>, n: nat, st: RunState)
    requires n <= cfg.maxIterations && RunFrom(cfg, world, n, st).error.None?
    ensures SeenIn(RunFrom(cfg, world, n, st).events) == Total(History(cfg, world, n, st), CutFrom(cfg, world, n, st))
    decreases cfg.maxIterations - n, 1
  {
    if n >= cfg.maxIterations {
      SeenOne(RunFrom(cfg, world, n, st).events[0]);
      TotalNothing();
    } else {
      var heard := Hear(cfg.timeoutSeconds, world.stream(n, st.turns));
      NoGatheredSignal(cfg.timeoutSeconds, world.stream(n, st.turns));
      match EndOf(cfg, heard) {
        case TimedOut => SeenCut(n, heard.events, RunFinished(AgentRun(GenerationTimedOut(cfg.timeoutSeconds), st)));
        case Failed(_) =>
        case Gathered(step) => SeenFromStep(cfg, world, n, st, heard, step);
      }
    }
  }

  // ---------------------------------------------------------------------------
  // The cut step as an observer sees it
  // ---------------------------------------------------------------------------

  /** The model events of one step. */
  function StepEvents(events: seq<RunEvent>, ordinal: nat): seq<Event> {
    if events == [] then [] else StepEvents(Init(events), ordinal) + StepEventIn(Latest(events), ordinal)
  }

  function StepEventIn(e: RunEvent, ordinal: nat): seq<Event> {
    if e.ModelEvent? && e.ordinal == ordinal then [e.event] else []
  }

  lemma {:induction false} StepEventsAppend(a: seq<RunEvent>, b: seq<RunEvent>, ordinal: nat)
    ensures StepEvents(a + b, ordinal) == StepEvents(a, ordinal) + StepEvents(b, ordinal)
    decreases |b|
  {
    if b == [] {
      assert a + b == a;
    } else {
      assert Init(a + b) == a + Init(b) && Latest(a + b) == Latest(b);
      StepEventsAppend(a, Init(b), ordinal);
      Assoc(StepEvents(a, ordinal), StepEvents(Init(b), ordinal), StepEventIn(Latest(b), ordinal));
    }
  }

  lemma {:induction false} StepEventsModel(n: nat, events: seq<Event>, ordinal: nat)
    ensures StepEvents(ModelEvents(n, events), ordinal) == if ordinal == n then events else []
  {
    if events != [] {
      StepEventsModel(n, Init(events), ordinal);
      assert Init(ModelEvents(n, events)) == ModelEvents(n, Init(events));
    }
  }

  lemma {:induction false} StepEventsNone(events: seq<RunEvent>, ordinal: nat)
    requires forall e :: e in events ==> !e.ModelEvent?
    ensures StepEvents(events, ordinal) == []
  {
    if events != [] {
      assert Latest(events) in events;
      StepEventsNone(Init(events), ordinal);
    }
  }

  lemma {:induction false} ToolsFinishedKind(outcomes: seq<ToolOutcome>)
    ensures forall e :: e in ToolsFinished(outcomes) ==> e.ClientToolFinished?
  {
    if outcomes != [] {
      ToolsFinishedKind(Init(outcomes));
    }
  }

  lemma StepHeadEvents(n: nat, heard: seq<Event>, rest: seq<RunEvent>, ordinal: nat)
    ensures StepEvents([ModelStepStarted(n)] + ModelEvents(n, heard) + rest, ordinal) ==
            (if ordinal == n then heard else []) + StepEvents(rest, ordinal)
  {
    StepEventsAppend([ModelStepStarted(n)] + ModelEvents(n, heard), rest, ordinal);
    StepEventsAppend([ModelStepStarted(n)], ModelEvents(n, heard), ordinal);
    StepEventsNone([ModelStepStarted(n)], ordinal);
    StepEventsModel(n, heard, ordinal);
    assert [] + StepEvents(ModelEvents(n, heard), ordinal) == StepEvents(ModelEvents(n, heard), ordinal);
  }

  lemma ToolEventsHead(f: Folded, rest: seq<RunEvent>, ordinal: nat)
    ensures StepEvents(ToolEvents(f) + rest, ordinal) == StepEvents(rest, ordinal)
  {
    ToolsFinishedKind(f.outcomes);
    StepEventsAppend(ToolEvents(f), rest, ordinal);
    StepEventsNone(ToolEvents(f), ordinal);
    assert [] + StepEvents(rest, ordinal) == StepEvents(rest, ordinal);
  }

  /** The cut step is the one behind the `h` steps folded since step `n`; there is one only if the
      deadline passed. */
  predicate CutFits<E>(n: nat, h: seq<Folded>, ran: Ran<E>, cut: seq<Event>) {
    ran.error.None? ==>
      && cut == StepEvents(ran.events, n + |h|)
      && ran.events != [] && Latest(ran.events).RunFinished?
      && (cut != [] ==> Latest(ran.events).run.outcome.GenerationTimedOut?)
  }

  lemma CutFitsTools<E>(n: nat, f: Folded, h: seq<Folded>, ran: Ran<E>, cut: seq<Event>)
    requires CutFits(n + 1, h, ran, cut)
    ensures CutFits(n, [f] + h, Behind(ToolEvents(f), ran), cut)
  {
    ToolEventsHead(f, ran.events, n + 1 + |h|);
    assert ran.events != [] ==> Latest(ToolEvents(f) + ran.events) == Latest(ran.events);
  }

  lemma CutFitsHead<E>(n: nat, heard: seq<Event>, h: seq<Folded>, ran: Ran<E>, cut: seq<Event>)
    requires CutFits(n, h, ran, cut) && h != []
    ensures CutFits(n, h, Behind([ModelStepStarted(n)] + ModelEvents(n, heard), ran), cut)
  {
    var head := [ModelStepStarted(n)] + ModelEvents(n, heard);
    StepHeadEvents(n, heard, ran.events, n + |h|);
    assert ran.events != [] ==> Latest(head + ran.events) == Latest(ran.events);
  }

  lemma CutFitsEnd<E>(n: nat, h: seq<Folded>, run: AgentRun)
    ensures CutFits<E>(n, h, Ends(run), [])
  {
    StepEventsNone([RunFinished(run)], n + |h|);
  }

  lemma CutFitsDeadline<E>(n: nat, heard: seq<Event>, run: AgentRun)
    requires run.outcome.GenerationTimedOut?
    ensures CutFits<E>(n, [], Behind([ModelStepStarted(n)] + ModelEvents(n, heard), Ends(run)), heard)
  {
    var head := [ModelStepStarted(n)] + ModelEvents(n, heard);
    StepHeadEvents(n, heard, [RunFinished(run)], n);
    StepEventsNone([RunFinished(run)], n);
    assert Latest(head + [RunFinished(run)]) == RunFinished(run);
  }

  /** The cut step is what the observer saw of the step behind the last folded one. */
  lemma {:induction false} CutIsShown<E>(cfg: Config, world: World<E>, n: nat, st: RunState)
    requires n <= cfg.maxIterations
    ensures CutFits(n, History(cfg, world, n, st), RunFrom(cfg, world, n, st), CutFrom(cfg, world, n, st))
    decreases cfg.maxIterations - n
  {
    if n >= cfg.maxIterations {
      CutFitsEnd<E>(n, [], AgentRun(IterationLimit(cfg.maxIterations), st));
    } else {
      var heard := Hear(cfg.timeoutSeconds, world.stream(n, st.turns));
      var end := EndOf(cfg, heard);
      match end {
        case TimedOut => CutFitsDeadline<E>(n, heard.events, AgentRun(GenerationTimedOut(cfg.timeoutSeconds), st));
        case Failed(_) =>
        case Gathered(step) =>
          var f := FoldedOf(cfg, world, n, step);
          var next := After(cfg, st, n, f);
          if step.kind.Final? {
            var run := AgentRun(Completed(AnswerOf(step.output)), next);
            CutFitsEnd<E>(n, [f] + [], run);
            CutFitsHead<E>(n, heard.events, [f] + [], Ends(run), []);
          } else {
            var h, ran := History(cfg, world, n + 1, next), RunFrom(cfg, world, n + 1, next);
            var cut := CutFrom(cfg, world, n + 1, next);
            CutIsShown(cfg, world, n + 1, next);
            CutFitsTools(n, f, h, ran, cut);
            CutFitsHead(n, heard.events, [f] + h, Behind(ToolEvents(f), ran), cut);
          }
      }
    }
  }
}
