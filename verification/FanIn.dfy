/** The platform fan-in of crates/chudbot-bin/src/platforms.rs: any number of pump tasks send into
    one bounded channel with one receiver. Every await point is a step of its own. */
module FanIn {
  import opened Prelude
  import Json

  const CAPACITY := 256

  /** What a platform reports, as an opaque value. */
  type Event = Json.Value

  /** What a pump hands on: what the platform reported, or the panic that ended the pump. */
  datatype Item = Happened(event: Event) | ShutdownEvent | Errored(message: string) | PumpPanicked(message: string)

  /** Where a pump task stands. `Waiting` and `Granted` are inside send: without and with a slot
      of the channel. */
  datatype Control = Started | Reading | Waiting(item: Item) | Granted(item: Item) | Leaving | Ended

  /** `produced` logs everything the pump tried to hand on; `lost` what never entered the channel. */
  datatype Pump = Pump(control: Control, produced: seq<Item>, lost: seq<Item>, aborted: bool)

  datatype Message = Message(pump: nat, item: Item)

  /** `senders` counts the live handles to the sending side. */
  datatype State = State(
    pumps: seq<Pump>, queue: seq<Message>, received: seq<Message>,
    open: bool, connecting: bool, senders: int)

  datatype Step =
    | Spawn
    | Connected
    | Start(pump: nat)
    | Read(pump: nat, item: Item)
    | Panic(pump: nat, message: string)
    | Grant(pump: nat)
    | Push(pump: nat)
    | SendFails(pump: nat)
    | Leave(pump: nat)
    | Abort(pump: nat)
    | Receive
    | CloseReceiver

  /** The sending side exists once before any pump does. */
  function Initial(): State { State([], [], [], true, true, 1) }

  function GrantedIn(pumps: seq<Pump>): nat {
    if pumps == [] then 0 else GrantedIn(Init(pumps)) + if Latest(pumps).control.Granted? then 1 else 0
  }

  /** A slot of the channel that is neither filled nor promised. */
  predicate HasRoom(s: State) { |s.queue| + GrantedIn(s.pumps) < CAPACITY }

  predicate Enabled(s: State, step: Step) {
    match step
    case Spawn => s.connecting
    case Connected => s.connecting
    case Start(i) => i < |s.pumps| && s.pumps[i].control.Started?
    case Read(i, item) => i < |s.pumps| && s.pumps[i].control.Reading? && !item.PumpPanicked?
    case Panic(i, _) => i < |s.pumps| && s.pumps[i].control.Reading?
    case Grant(i) => i < |s.pumps| && s.pumps[i].control.Waiting? && s.open && HasRoom(s)
    case Push(i) => i < |s.pumps| && s.pumps[i].control.Granted?
    case SendFails(i) => i < |s.pumps| && s.pumps[i].control.Waiting? && !s.open
    case Leave(i) => i < |s.pumps| && s.pumps[i].control.Leaving?
    case Abort(i) => i < |s.pumps| && !s.pumps[i].control.Ended?
    case Receive => s.open && s.queue != []
    case CloseReceiver => s.open
  }

  /** Sender handles a pump task holds: its own, and while the loop runs the loop's. */
  function Holds(control: Control): int {
    match control
    case Started => 1
    case Reading => 2
    case Waiting(item) => if item.PumpPanicked? then 1 else 2
    case Granted(item) => if item.PumpPanicked? then 1 else 2
    case Leaving => 1
    case Ended => 0
  }

  /** Behind a delivered item the loop goes on; behind a reported panic the pump is done. */
  function AfterSend(item: Item): Control { if item.PumpPanicked? then Leaving else Reading }

  function With(s: State, i: nat, pump: Pump): State
    requires i < |s.pumps|
  {
    s.(pumps := s.pumps[i := pump], senders := s.senders + Holds(pump.control) - Holds(s.pumps[i].control))
  }

  /** One read: Shutdown is tried at once and ends the loop, anything else is sent. */
  function AfterRead(s: State, i: nat, item: Item): State
    requires i < |s.pumps|
  {
    var p := s.pumps[i].(produced := s.pumps[i].produced + [item]);
    if !item.ShutdownEvent? then With(s, i, p.(control := Waiting(item)))
    else if s.open && HasRoom(s) then With(s.(queue := s.queue + [Message(i, item)]), i, p.(control := Leaving))
    else With(s, i, p.(control := Leaving, lost := p.lost + [item]))
  }

  function InFlight(control: Control): seq<Item> {
    match control case Waiting(item) => [item] case Granted(item) => [item] case _ => []
  }

  function Apply(s: State, step: Step): State
    requires Enabled(s, step)
  {
    match step
    case Spawn => s.(pumps := s.pumps + [Pump(Started, [], [], false)], senders := s.senders + Holds(Started))
    case Connected => s.(connecting := false, senders := s.senders - 1)
    case Start(i) => With(s, i, s.pumps[i].(control := Reading))
    case Read(i, item) => AfterRead(s, i, item)
    case Panic(i, message) =>
      var item := PumpPanicked(message);
      With(s, i, s.pumps[i].(control := Waiting(item), produced := s.pumps[i].produced + [item]))
    case Grant(i) => With(s, i, s.pumps[i].(control := Granted(s.pumps[i].control.item)))
    case Push(i) =>
      var item := s.pumps[i].control.item;
      With(s.(queue := s.queue + [Message(i, item)]), i, s.pumps[i].(control := AfterSend(item)))
    case SendFails(i) =>
      With(s, i, s.pumps[i].(control := Leaving, lost := s.pumps[i].lost + InFlight(s.pumps[i].control)))
    case Leave(i) => With(s, i, s.pumps[i].(control := Ended))
    case Abort(i) =>
      With(s, i, s.pumps[i].(control := Ended, lost := s.pumps[i].lost + InFlight(s.pumps[i].control), aborted := true))
    case Receive => s.(queue := s.queue[1..], received := s.received + [s.queue[0]])
    case CloseReceiver => s.(open := false)
  }

  ghost predicate Linked(s: State, step: Step, t: State) { Enabled(s, step) && t == Apply(s, step) }

  /** A run: states that enabled steps lead to, one after the other. */
  ghost predicate Happens(states: seq<State>, steps: seq<Step>) {
    && |states| == |steps| + 1 && states[0] == Initial()
    && forall k {:trigger steps[k]} :: 0 <= k < |steps| ==> Linked(states[k], steps[k], states[k + 1])
  }

  datatype NextEvent = Delivered(item: Item) | NoPlatforms | EventsClosed | StillWaiting

  /** What asking for the next event gives: the channel ends when no sender is left and the queue
      is drained. */
  function Next(s: State, platforms: nat): NextEvent {
    if platforms == 0 then NoPlatforms
    else if |s.queue| > 0 then Delivered(s.queue[0].item)
    else if s.senders == 0 then EventsClosed
    else StillWaiting
  }

  /** Items of one pump, in order. */
  function From(messages: seq<Message>, i: nat): seq<Item> {
    if messages == [] then []
    else From(Init(messages), i) + if Latest(messages).pump == i then [Latest(messages).item] else []
  }

  // ---------------------------------------------------------------------------
  // The invariant
  // ---------------------------------------------------------------------------

  function HeldBy(pumps: seq<Pump>): int {
    if pumps == [] then 0 else HeldBy(Init(pumps)) + Holds(Latest(pumps).control)
  }

  predicate Terminal(item: Item) { item.ShutdownEvent? || item.PumpPanicked? }

  /** What ends a pump is the last it produces. */
  predicate TerminalIsLast(p: Pump) {
    && (forall n :: 0 <= n < |p.produced| - 1 ==> !Terminal(p.produced[n]))
    && (p.produced != [] && Terminal(Latest(p.produced)) ==>
          p.control.Leaving? || p.control.Ended? || (InFlight(p.control) != [] && InFlight(p.control)[0].PumpPanicked?))
  }

  /** Nothing is lost but the last item of a pump that is over: a Shutdown the full channel had no
      room for, or whatever was in flight when the pump was aborted or the receiver gone. */
  predicate LostOk(s: State, p: Pump) {
    p.lost != [] ==>
      && |p.lost| == 1 && (p.control.Leaving? || p.control.Ended?)
      && (s.open && !p.aborted ==> p.lost[0].ShutdownEvent?)
  }

  ghost predicate Accounted(s: State, i: nat)
    requires i < |s.pumps|
  {
    var p := s.pumps[i];
    && p.produced == From(s.received, i) + From(s.queue, i) + (InFlight(p.control) + p.lost)
    && LostOk(s, p) && TerminalIsLast(p)
  }

  ghost predicate Inv(s: State) {
    && s.senders == HeldBy(s.pumps) + (if s.connecting then 1 else 0)
    && |s.queue| + GrantedIn(s.pumps) <= CAPACITY
    && (forall m :: m in s.queue ==> m.pump < |s.pumps|)
    && (forall m :: m in s.received ==> m.pump < |s.pumps|)
    && (forall i :: 0 <= i < |s.pumps| ==> Accounted(s, i))
  }

  // ---------------------------------------------------------------------------
  // Counting
  // ---------------------------------------------------------------------------

  lemma {:induction false} CountsUpdate(pumps: seq<Pump>, i: nat, p: Pump)
    requires i < |pumps|
    ensures HeldBy(pumps[i := p]) == HeldBy(pumps) + Holds(p.control) - Holds(pumps[i].control)
    ensures GrantedIn(pumps[i := p]) ==
            GrantedIn(pumps) + (if p.control.Granted? then 1 else 0) - (if pumps[i].control.Granted? then 1 else 0)
  {
    if i == |pumps| - 1 {
      assert Init(pumps[i := p]) == Init(pumps);
    } else {
      assert Init(pumps[i := p]) == Init(pumps)[i := p];
      CountsUpdate(Init(pumps), i, p);
    }
  }

  lemma FromSnoc(messages: seq<Message>, m: Message, i: nat)
    ensures From(messages + [m], i) == From(messages, i) + if m.pump == i then [m.item] else []
  {
    assert Init(messages + [m]) == messages;
  }

  lemma {:induction false} FromHead(messages: seq<Message>, i: nat)
    requires messages != []
    ensures From(messages, i) == (if messages[0].pump == i then [messages[0].item] else []) + From(messages[1..], i)
  {
    if |messages| == 1 {
      assert Init(messages) == [] && messages[1..] == [];
    } else {
      FromHead(Init(messages), i);
      assert Init(messages)[1..] == Init(messages[1..]);
    }
  }

  lemma {:induction false} FromStrangers(messages: seq<Message>, i: nat)
    requires forall m :: m in messages ==> m.pump < i
    ensures From(messages, i) == []
  {
    if messages != [] {
      assert Latest(messages) in messages;
      FromStrangers(Init(messages), i);
    }
  }

  // ---------------------------------------------------------------------------
  // Every step keeps it
  // ---------------------------------------------------------------------------

  /** A step of pump `i` that leaves the messages alone. */
  lemma PumpStepKeeps(s: State, i: nat, p: Pump)
    requires Inv(s) && i < |s.pumps|
    requires p.control.Granted? ==> s.pumps[i].control.Granted? || HasRoom(s)
    requires LostOk(s, p) && TerminalIsLast(p)
    requires p.produced == From(s.received, i) + From(s.queue, i) + (InFlight(p.control) + p.lost)
    ensures Inv(With(s, i, p))
  {
    CountsUpdate(s.pumps, i, p);
    var t := With(s, i, p);
    forall j | 0 <= j < |t.pumps|
      ensures Accounted(t, j)
    {
      assert Accounted(s, j);
      if j != i {
        assert t.pumps[j] == s.pumps[j];
      }
    }
  }

  lemma ProducedMore(a: seq<Item>, b: seq<Item>, c: seq<Item>, item: Item)
    requires c == []
    ensures a + b + c + [item] == a + b + ([item] + []) && a + b + c + [item] == a + b + ([] + [item])
    ensures a + b + c + [item] == a + (b + [item]) + ([] + [])
  {}

  /** A message of pump `i` enters the channel. */
  lemma EnterKeeps(s: State, i: nat, item: Item, p: Pump)
    requires Inv(s) && i < |s.pumps|
    requires s.pumps[i].control.Granted? || HasRoom(s)
    requires p.control.Reading? || p.control.Leaving?
    requires p.lost == [] && TerminalIsLast(p)
    requires p.produced == From(s.received, i) + (From(s.queue, i) + [item]) + ([] + [])
    ensures Inv(With(s.(queue := s.queue + [Message(i, item)]), i, p))
  {
    CountsUpdate(s.pumps, i, p);
    var t := With(s.(queue := s.queue + [Message(i, item)]), i, p);
    forall j | 0 <= j < |t.pumps|
      ensures Accounted(t, j)
    {
      assert Accounted(s, j);
      FromSnoc(s.queue, Message(i, item), j);
      if j != i {
        assert t.pumps[j] == s.pumps[j];
        assert From(t.queue, j) == From(s.queue, j);
      }
    }
  }

  /** What a reading pump has produced so far, with one more item. */
  lemma ReadAccount(s: State, i: nat, item: Item)
    requires Inv(s) && i < |s.pumps| && s.pumps[i].control.Reading?
    ensures s.pumps[i].lost == [] && LostOk(s, s.pumps[i]) && TerminalIsLast(s.pumps[i])
    ensures forall n :: 0 <= n < |s.pumps[i].produced| ==> !Terminal(s.pumps[i].produced[n])
    ensures var all := s.pumps[i].produced + [item];
            && all == From(s.received, i) + From(s.queue, i) + ([item] + [])
            && all == From(s.received, i) + From(s.queue, i) + ([] + [item])
            && all == From(s.received, i) + (From(s.queue, i) + [item]) + ([] + [])
  {
    assert Accounted(s, i);
    var was := s.pumps[i];
    assert was.lost == [] && InFlight(was.control) == [];
    ProducedMore(From(s.received, i), From(s.queue, i), InFlight(was.control) + was.lost, item);
  }

  lemma ReadKeeps(s: State, i: nat, item: Item)
    requires Inv(s) && i < |s.pumps| && s.pumps[i].control.Reading? && !item.PumpPanicked?
    ensures Inv(AfterRead(s, i, item))
  {
    ReadAccount(s, i, item);
    var p := s.pumps[i].(produced := s.pumps[i].produced + [item]);
    if !item.ShutdownEvent? {
      PumpStepKeeps(s, i, p.(control := Waiting(item)));
    } else if s.open && HasRoom(s) {
      EnterKeeps(s, i, item, p.(control := Leaving));
    } else {
      assert p.lost + [item] == [item];
      PumpStepKeeps(s, i, p.(control := Leaving, lost := [item]));
    }
  }

  lemma PanicKeeps(s: State, i: nat, message: string)
    requires Inv(s) && Enabled(s, Panic(i, message))
    ensures Inv(Apply(s, Panic(i, message)))
  {
    assert Accounted(s, i);
    var was, item := s.pumps[i], PumpPanicked(message);
    ProducedMore(From(s.received, i), From(s.queue, i), InFlight(was.control) + was.lost, item);
    var p := was.(control := Waiting(item), produced := was.produced + [item]);
    assert was.lost == [] && InFlight(was.control) == [] && InFlight(p.control) == [item];
    assert p.produced == From(s.received, i) + From(s.queue, i) + (InFlight(p.control) + p.lost);
    PumpStepKeeps(s, i, p);
  }

  lemma PushKeeps(s: State, i: nat)
    requires Inv(s) && Enabled(s, Push(i))
    ensures Inv(Apply(s, Push(i)))
  {
    assert Accounted(s, i);
    var was, item := s.pumps[i], s.pumps[i].control.item;
    assert was.lost == [];
    assert From(s.received, i) + From(s.queue, i) + ([item] + []) ==
           From(s.received, i) + (From(s.queue, i) + [item]) + ([] + []);
    assert Latest(was.produced) == item;
    EnterKeeps(s, i, item, was.(control := AfterSend(item)));
  }

  /** The pump is over: what was in flight is lost. */
  lemma GiveUpKeeps(s: State, i: nat, p: Pump)
    requires Inv(s) && i < |s.pumps| && (p.control.Leaving? || p.control.Ended?)
    requires p.produced == s.pumps[i].produced && p.lost == s.pumps[i].lost + InFlight(s.pumps[i].control)
    requires p.aborted || (!s.open && p.aborted == s.pumps[i].aborted)
    ensures Inv(With(s, i, p))
  {
    assert Accounted(s, i);
    var was := s.pumps[i];
    assert InFlight(was.control) == [] || was.lost == [];
    assert InFlight(was.control) + was.lost == [] + p.lost;
    PumpStepKeeps(s, i, p);
  }

  lemma ReceiveKeeps(s: State)
    requires Inv(s) && Enabled(s, Step.Receive)
    ensures Inv(Apply(s, Step.Receive))
  {
    var t := Apply(s, Step.Receive);
    assert s.queue[0] in s.queue && forall m :: m in t.queue ==> m in s.queue;
    forall j | 0 <= j < |t.pumps|
      ensures Accounted(t, j)
    {
      assert Accounted(s, j);
      FromHead(s.queue, j);
      FromSnoc(s.received, s.queue[0], j);
      Assoc(From(s.received, j), if s.queue[0].pump == j then [s.queue[0].item] else [], From(s.queue[1..], j));
    }
  }

  lemma NewcomerAccounted(s: State, t: State)
    requires Inv(s) && t.queue == s.queue && t.received == s.received
    requires t.pumps == s.pumps + [Pump(Started, [], [], false)]
    ensures Accounted(t, |s.pumps|)
  {
    FromStrangers(s.queue, |s.pumps|);
    FromStrangers(s.received, |s.pumps|);
  }

  lemma SpawnKeeps(s: State)
    requires Inv(s) && Enabled(s, Step.Spawn)
    ensures Inv(Apply(s, Step.Spawn))
  {
    var t := Apply(s, Step.Spawn);
    assert Init(t.pumps) == s.pumps;
    NewcomerAccounted(s, t);
    forall j | 0 <= j < |s.pumps|
      ensures Accounted(t, j)
    {
      assert Accounted(s, j) && t.pumps[j] == s.pumps[j];
    }
  }

  lemma FlagsKeep(s: State, t: State)
    requires Inv(s) && t == s.(open := t.open, connecting := t.connecting, senders := t.senders)
    requires t.open ==> s.open
    requires t.senders == HeldBy(t.pumps) + (if t.connecting then 1 else 0)
    ensures Inv(t)
  {
    forall j | 0 <= j < |t.pumps|
      ensures Accounted(t, j)
    {
      assert Accounted(s, j);
    }
  }

  lemma StepKeeps(s: State, step: Step)
    requires Inv(s) && Enabled(s, step)
    ensures Inv(Apply(s, step))
  {
    match step {
      case Spawn => SpawnKeeps(s);
      case Connected => FlagsKeep(s, Apply(s, step));
      case Start(i) =>
        assert Accounted(s, i);
        PumpStepKeeps(s, i, s.pumps[i].(control := Reading));
      case Read(i, item) => ReadKeeps(s, i, item);
      case Panic(i, message) => PanicKeeps(s, i, message);
      case Grant(i) =>
        assert Accounted(s, i);
        PumpStepKeeps(s, i, s.pumps[i].(control := Granted(s.pumps[i].control.item)));
      case Push(i) => PushKeeps(s, i);
      case SendFails(i) =>
        GiveUpKeeps(s, i, s.pumps[i].(control := Leaving, lost := s.pumps[i].lost + InFlight(s.pumps[i].control)));
      case Leave(i) =>
        assert Accounted(s, i);
        PumpStepKeeps(s, i, s.pumps[i].(control := Ended));
      case Abort(i) =>
        GiveUpKeeps(s, i, s.pumps[i].(control := Ended, lost := s.pumps[i].lost + InFlight(s.pumps[i].control),
                                        aborted := true));
      case Receive => ReceiveKeeps(s);
      case CloseReceiver => FlagsKeep(s, Apply(s, step));
    }
  }

  lemma {:induction false} EveryRunKeeps(states: seq<State>, steps: seq<Step>, k: nat)
    requires Happens(states, steps) && k < |states|
    ensures Inv(states[k])
  {
    if k > 0 {
      EveryRunKeeps(states, steps, k - 1);
      assert Linked(states[k - 1], steps[k - 1], states[k]);
      StepKeeps(states[k - 1], steps[k - 1]);
    }
  }

  // ---------------------------------------------------------------------------
  // What the receiver can rely on
  // ---------------------------------------------------------------------------

  lemma SplitProduced(s: State, i: nat)
    requires i < |s.pumps| && Accounted(s, i)
    ensures var p := s.pumps[i]; var got := From(s.received, i);
            var rest := From(s.queue, i) + (InFlight(p.control) + p.lost);
            got <= p.produced && p.produced == got + rest && p.produced[|got|..] == rest
  {
    var p := s.pumps[i];
    Assoc(From(s.received, i), From(s.queue, i), InFlight(p.control) + p.lost);
  }

  lemma LostIsShutdown(s: State, i: nat)
    requires i < |s.pumps| && Accounted(s, i)
    ensures var p := s.pumps[i];
            && (s.open && !p.aborted ==> p.lost == [] || p.lost == [ShutdownEvent])
            && (p.lost != [] ==> p.control.Leaving? || p.control.Ended?)
  {
    var p := s.pumps[i];
    if p.lost != [] {
      assert p.lost == [p.lost[0]];
    }
  }

  /** In every run, what was received from a pump is an in-order, gap-free prefix of what the pump
      produced. The rest is queued, then in flight; beyond that, while the receiver is open and
      the pump was not aborted, only a Shutdown that ended the pump can be missing. */
  lemma FanInSafety(states: seq<State>, steps: seq<Step>, k: nat, i: nat)
    requires Happens(states, steps) && k < |states| && i < |states[k].pumps|
    ensures var s := states[k]; var p := s.pumps[i]; var got := From(s.received, i);
            && got <= p.produced
            && p.produced[|got|..] == From(s.queue, i) + (InFlight(p.control) + p.lost)
            && (s.open && !p.aborted ==> p.lost == [] || p.lost == [ShutdownEvent])
            && (p.lost != [] ==> p.control.Leaving? || p.control.Ended?)
            && (forall n :: 0 <= n < |p.produced| - 1 ==> !Terminal(p.produced[n]))
  {
    EveryRunKeeps(states, steps, k);
    SplitProduced(states[k], i);
    LostIsShutdown(states[k], i);
  }

  /** The bound of the channel holds in every run, and an open receiver misses a Shutdown exactly
      when every slot was filled or promised. */
  lemma ShutdownDroppedIff(states: seq<State>, steps: seq<Step>, k: nat, i: nat)
    requires Happens(states, steps) && k < |states| && Enabled(states[k], Read(i, ShutdownEvent)) && states[k].open
    ensures var s := states[k];
            && |s.queue| + GrantedIn(s.pumps) <= CAPACITY
            && (Apply(s, Read(i, ShutdownEvent)).pumps[i].lost != [] <==> |s.queue| + GrantedIn(s.pumps) == CAPACITY)
  {
    EveryRunKeeps(states, steps, k);
    assert Accounted(states[k], i);
  }

  lemma {:induction false} NoHandleNoPump(pumps: seq<Pump>)
    ensures HeldBy(pumps) >= 0
    ensures HeldBy(pumps) == 0 <==> forall i :: 0 <= i < |pumps| ==> pumps[i].control.Ended?
  {
    if pumps != [] {
      NoHandleNoPump(Init(pumps));
      assert forall i :: 0 <= i < |pumps| - 1 ==> pumps[i] == Init(pumps)[i];
    }
  }

  /** EventsClosed is reported exactly when connecting is over, every pump has ended and the queue
      is empty: never early, and never withheld. */
  lemma ClosedIff(states: seq<State>, steps: seq<Step>, k: nat, platforms: nat)
    requires Happens(states, steps) && k < |states| && platforms > 0
    ensures var s := states[k];
            Next(s, platforms).EventsClosed? <==>
            && |s.queue| == 0 && !s.connecting
            && forall i :: 0 <= i < |s.pumps| ==> s.pumps[i].control.Ended?
  {
    EveryRunKeeps(states, steps, k);
    NoHandleNoPump(states[k].pumps);
  }

  lemma PanicIsLast(produced: seq<Item>, got: seq<Item>)
    requires forall k :: 0 <= k < |produced| - 1 ==> !Terminal(produced[k])
    requires produced == got || produced == got + [ShutdownEvent]
    ensures forall m :: PumpPanicked(m) in produced ==> got != [] && Latest(got) == PumpPanicked(m)
  {
    forall m | PumpPanicked(m) in produced
      ensures got != [] && Latest(got) == PumpPanicked(m)
    {
      var k :| 0 <= k < |produced| && produced[k] == PumpPanicked(m);
      assert Terminal(produced[k]);
    }
  }

  lemma DrainedIsComplete(s: State, i: nat)
    requires i < |s.pumps| && Accounted(s, i)
    requires s.open && s.queue == [] && s.pumps[i].control.Ended? && !s.pumps[i].aborted
    ensures s.pumps[i].produced == From(s.received, i) || s.pumps[i].produced == From(s.received, i) + [ShutdownEvent]
  {
    var lost := s.pumps[i].lost;
    SplitProduced(s, i);
    LostIsShutdown(s, i);
    assert From(s.queue, i) == [] && InFlight(s.pumps[i].control) == [];
    assert [] + ([] + lost) == lost;
    assert s.pumps[i].produced == From(s.received, i) + lost;
    assert From(s.received, i) + [] == From(s.received, i);
  }

  /** By then an open receiver has got everything from every pump that was not aborted, but for a
      dropped Shutdown at the end; a panic was reported last. */
  lemma ClosedMeansComplete(states: seq<State>, steps: seq<Step>, k: nat, platforms: nat, i: nat)
    requires Happens(states, steps) && k < |states| && platforms > 0 && i < |states[k].pumps|
    requires var s := states[k]; s.open && Next(s, platforms).EventsClosed? && !s.pumps[i].aborted
    ensures var s := states[k]; var got := From(s.received, i);
            && (s.pumps[i].produced == got || s.pumps[i].produced == got + [ShutdownEvent])
            && (forall m :: PumpPanicked(m) in s.pumps[i].produced ==> got != [] && Latest(got) == PumpPanicked(m))
  {
    EveryRunKeeps(states, steps, k);
    ClosedIff(states, steps, k, platforms);
    var s := states[k];
    DrainedIsComplete(s, i);
    PanicIsLast(s.pumps[i].produced, From(s.received, i));
  }

  // ---------------------------------------------------------------------------
  // Shutdown
  // ---------------------------------------------------------------------------

  /** The pumps that are not over, in order. */
  function Unfinished(handles: seq<nat>, finished: nat -> bool): (pumps: seq<nat>)
    ensures forall p :: p in pumps <==> p in handles && !finished(p)
  {
    if handles == [] then []
    else
      assert handles == Init(handles) + [Latest(handles)];
      Unfinished(Init(handles), finished) + if finished(Latest(handles)) then [] else [Latest(handles)]
  }

  predicate Distinct(handles: seq<nat>) { forall i, j :: 0 <= i < j < |handles| ==> handles[i] != handles[j] }

  /** Aborting these pumps one after the other is possible, and leads here. */
  ghost predicate AbortsTo(s: State, pumps: seq<nat>, t: State) {
    if pumps == [] then s == t
    else exists u :: AbortsTo(s, Init(pumps), u) && Linked(u, Abort(Latest(pumps)), t)
  }

  /** What aborting leaves: these pumps are over, all others as they were, and so are the
      messages. */
  predicate AbortedIn(s: State, pumps: seq<nat>, t: State) {
    && |t.pumps| == |s.pumps| && t.queue == s.queue && t.received == s.received
    && t.open == s.open && t.connecting == s.connecting
    && forall p :: 0 <= p < |s.pumps| ==> if p in pumps then t.pumps[p].control.Ended? else t.pumps[p] == s.pumps[p]
  }

  /** One more pump is aborted. */
  lemma AbortOne(s: State, before: seq<nat>, u: State, last: nat)
    requires AbortsTo(s, before, u) && AbortedIn(s, before, u)
    requires last < |s.pumps| && last !in before && !s.pumps[last].control.Ended?
    ensures Enabled(u, Abort(last))
    ensures AbortsTo(s, before + [last], Apply(u, Abort(last))) && AbortedIn(s, before + [last], Apply(u, Abort(last)))
  {
    assert u.pumps[last] == s.pumps[last];
    assert Init(before + [last]) == before && Latest(before + [last]) == last;
    assert Linked(u, Abort(last), Apply(u, Abort(last)));
  }

  lemma {:induction false} AbortUnfinished(s: State, handles: seq<nat>, finished: nat -> bool) returns (t: State)
    requires Distinct(handles)
    requires forall p :: p in handles ==> p < |s.pumps| && (finished(p) <==> s.pumps[p].control.Ended?)
    ensures AbortsTo(s, Unfinished(handles, finished), t) && AbortedIn(s, Unfinished(handles, finished), t)
  {
    t := s;
    if handles != [] {
      var last := Latest(handles);
      assert last in handles && forall p :: p in Init(handles) ==> p in handles && p != last;
      t := AbortUnfinished(s, Init(handles), finished);
      if !finished(last) {
        AbortOne(s, Unfinished(Init(handles), finished), t, last);
        t := Apply(t, Abort(last));
      } else {
        assert Unfinished(Init(handles), finished) + [] == Unfinished(Init(handles), finished);
      }
    }
  }

  lemma {:induction false} AbortsKeep(s: State, pumps: seq<nat>, t: State)
    requires Inv(s) && AbortsTo(s, pumps, t)
    ensures Inv(t)
  {
    if pumps != [] {
      var u :| AbortsTo(s, Init(pumps), u) && Linked(u, Abort(Latest(pumps)), t);
      AbortsKeep(s, Init(pumps), u);
      StepKeeps(u, Abort(Latest(pumps)));
    }
  }

  /** The receiving side with the handles of its pumps. */
  class PlatformEvents {
    var eventPumps: seq<nat>

    /** Every client is asked to shut down; then pumps are joined in order under one deadline.
        `inTime` says which join beats it, `s` where the pumps stand when it has passed, and
        `finished` which of them are over then: the others are aborted. */
    method ShutdownPlatforms(names: seq<string>, inTime: nat -> bool, finished: nat -> bool, ghost s: State)
      returns (requested: seq<string>, aborted: seq<nat>, ghost t: State)
      requires Inv(s) && Distinct(eventPumps)
      requires forall p :: p in eventPumps ==> p < |s.pumps| && (finished(p) <==> s.pumps[p].control.Ended?)
      modifies this
      ensures requested == names
      ensures eventPumps == if names == [] then old(eventPumps) else []
      ensures forall p :: p in aborted <==>
                names != [] && p in old(eventPumps) && !finished(p) && exists q :: q in old(eventPumps) && !inTime(q)
      ensures AbortsTo(s, aborted, t) && Inv(t) && AbortedIn(s, aborted, t)
    {
      requested, aborted, t := [], [], s;
      if names == [] {
        return;
      }
      for k := 0 to |names|
        invariant requested == names[..k]
      {
        requested := requested + [names[k]];
      }
      var handles := eventPumps;
      eventPumps := [];
      var timedOut, k := false, 0;
      while k < |handles| && !timedOut
        invariant k <= |handles| && (timedOut ==> k < |handles| && !inTime(handles[k]))
        invariant forall j :: 0 <= j < k ==> inTime(handles[j])
        decreases |handles| - k, !timedOut
      {
        if inTime(handles[k]) {
          k := k + 1;
        } else {
          timedOut := true;
        }
      }
      if timedOut {
        for j := 0 to |handles|
          invariant aborted == Unfinished(handles[..j], finished)
        {
          assert Init(handles[..j + 1]) == handles[..j];
          if !finished(handles[j]) {
            aborted := aborted + [handles[j]];
          }
        }
        assert handles[..|handles|] == handles;
        t := AbortUnfinished(s, handles, finished);
        AbortsKeep(s, aborted, t);
      }
    }
  }

  /** After a shutdown that timed out no pump is left running, and the receiver, once it has
      drained the queue, is told so. */
  lemma ShutdownCloses(s: State, handles: seq<nat>, finished: nat -> bool, platforms: nat, t: State)
    requires Inv(t) && AbortedIn(s, Unfinished(handles, finished), t) && !s.connecting && platforms > 0
    requires forall p :: p in handles ==> p < |s.pumps| && (finished(p) <==> s.pumps[p].control.Ended?)
    requires forall p: nat :: p < |s.pumps| ==> p in handles
    ensures Next(t.(queue := []), platforms).EventsClosed?
  {
    NoHandleNoPump(t.pumps);
  }
}
