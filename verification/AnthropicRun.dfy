/** Runs of the stream adapter over protocol-conforming Messages streams. */
module AnthropicRun {
  import opened Prelude
  import opened ModelStep
  import opened Collector
  import opened TraceLemmas
  import opened AnthropicStream
  import Decimal
  import Json

  // ---------------------------------------------------------------------------
  // The events before message_stop
  // ---------------------------------------------------------------------------

  datatype Ran = Ran(state: StreamState, events: seq<Event>)

  function Run(env: Env, wires: seq<Wire>): Result<Ran, AnthropicError> {
    if wires == [] then Ok(Ran(INITIAL, []))
    else
      match Run(env, Init(wires))
      case Err(e) => Err(e)
      case Ok(before) =>
        var applied := ApplyOpen(env, before.state, Latest(wires));
        match applied.result
        case Err(e) => Err(e)
        case Ok(outcome) => Ok(Ran(applied.state, before.events + outcome.events))
  }

  // ---------------------------------------------------------------------------
  // The protocol
  // ---------------------------------------------------------------------------

  /** Between blocks, with the smallest index still free; or inside a block of some type. */
  datatype Phase = Between(next: nat) | Inside(index: nat, kind: Option<string>)

  /** A block starts well: text is a string, a tool is named and its input still empty. */
  predicate GoodStart(raw: Value) {
    && (HasType(raw, "text") ==> raw.Get("text").None? || raw.GetStr("text").Some?)
    && (HasType(raw, "tool_use") ==> raw.GetStr("name").Some? && raw.Get("input") == Some(Json.Obj(map[])))
  }

  predicate Fits(kind: Option<string>, part: Part) {
    && (part.TextPart? ==> kind == Some("text"))
    && (part.ThinkingPart? ==> kind == Some("thinking"))
  }

  function PhaseStep(phase: Phase, wire: Wire): Option<Phase> {
    match wire
    case MessageStart(_, _) => Some(phase)
    case MessageDelta(_, _) => Some(phase)
    case Ignored => Some(phase)
    case BlockStart(index, raw) =>
      if phase.Between? && index >= phase.next && GoodStart(raw) then Some(Inside(index, raw.GetStr("type"))) else None
    case BlockDelta(index, part) =>
      if phase.Inside? && index == phase.index && Fits(phase.kind, part) then Some(phase) else None
    case BlockStop(index) => if phase.Inside? && index == phase.index then Some(Between(index + 1)) else None
    case _ => None
  }

  /** Each block has one start, fitting deltas and one stop, in index order. */
  function PhaseAfter(wires: seq<Wire>): Option<Phase> {
    if wires == [] then Some(Between(0))
    else match PhaseAfter(Init(wires)) case Some(phase) => PhaseStep(phase, Latest(wires)) case None => None
  }

  /** The text a wire event carries. */
  function TextIn(w: Wire): string {
    match w
    case BlockStart(_, raw) => StartText(raw)
    case BlockDelta(_, TextPart(text)) => text
    case _ => ""
  }

  /** All text the server sent, in order. */
  function WireText(wires: seq<Wire>): string {
    if wires == [] then "" else WireText(Init(wires)) + TextIn(Latest(wires))
  }

  lemma RunSnoc(env: Env, wires: seq<Wire>, ran: Ran, w: Wire)
    requires Run(env, wires) == Ok(ran)
    ensures var applied := ApplyOpen(env, ran.state, w);
            Run(env, wires + [w]) ==
            match applied.result {
              case Err(e) => Err(e)
              case Ok(outcome) => Ok(Ran(applied.state, ran.events + outcome.events))
            }
  {
    assert Init(wires + [w]) == wires;
  }

  lemma PhaseSnoc(wires: seq<Wire>, phase: Phase, w: Wire)
    requires PhaseAfter(wires) == Some(phase)
    ensures PhaseAfter(wires + [w]) == PhaseStep(phase, w)
  {
    assert Init(wires + [w]) == wires;
  }

  /** The last step of a run that got through. */
  lemma LastStep(env: Env, wires: seq<Wire>)
    requires wires != [] && PhaseAfter(wires).Some? && Run(env, wires).Ok?
    ensures var before, w := Init(wires), Latest(wires);
            && wires == before + [w]
            && PhaseAfter(before).Some? && Run(env, before).Ok?
            && PhaseStep(PhaseAfter(before).value, w) == PhaseAfter(wires)
            && var applied := ApplyOpen(env, Run(env, before).value.state, w);
               && applied.result.Ok?
               && Run(env, wires) == Ok(Ran(applied.state, Run(env, before).value.events + applied.result.value.events))
  {
    assert wires == Init(wires) + [Latest(wires)];
    if Run(env, Init(wires)).Ok? {
      RunSnoc(env, Init(wires), Run(env, Init(wires)).value, Latest(wires));
    }
  }

  // ---------------------------------------------------------------------------
  // What a stored block says about the deltas emitted for it
  // ---------------------------------------------------------------------------

  function ItemIdOf(e: Entry): Option<string> {
    if HasType(e.block.raw, "text") then Some(TextId(e.index))
    else if HasType(e.block.raw, "tool_use") then Some(ToolId(e.index))
    else if HasType(e.block.raw, "thinking") then Some(ReasoningId(e.index))
    else None
  }

  lemma IdsDiffer(e: Entry, f: Entry)
    requires e.index != f.index
    ensures ItemIdOf(e).None? || ItemIdOf(e) != ItemIdOf(f)
  {
    if ItemIdOf(e).Some? && ItemIdOf(e) == ItemIdOf(f) {
      IdsInjective(e.index, f.index);
      IdsInjective(f.index, e.index);
    }
  }

  lemma IdsInjective(i: nat, j: nat)
    ensures TextId(i) != ToolId(j) && TextId(i) != ReasoningId(j) && ToolId(i) != ReasoningId(j)
    ensures TextId(i) == TextId(j) || ToolId(i) == ToolId(j) || ReasoningId(i) == ReasoningId(j) ==> i == j
    ensures TextId(i) != TERMINAL_TEXT_ID && ToolId(i) != TERMINAL_TEXT_ID && ReasoningId(i) != TERMINAL_TEXT_ID
  {
    assert TextId(i)[10] == 't' && TextId(i)[11] == 'e';
    assert ToolId(j)[10] == 't' && ToolId(j)[11] == 'o' && ToolId(i)[11] == 'o';
    assert ReasoningId(j)[10] == 'r' && ReasoningId(i)[10] == 'r';
    assert TERMINAL_TEXT_ID[10] == 't' && TERMINAL_TEXT_ID[11] == 'e' && TERMINAL_TEXT_ID[15] == 't';
    assert TextId(i)[15] == Decimal.Print(i)[0] && Decimal.Print(i)[0] in Decimal.Print(i);
    if TextId(i) == TextId(j) {
      assert Decimal.Print(i) == TextId(i)[15..] && Decimal.Print(j) == TextId(j)[15..];
      Decimal.PrintInjective(i, j);
    }
    if ToolId(i) == ToolId(j) {
      assert Decimal.Print(i) == ToolId(i)[15..] && Decimal.Print(j) == ToolId(j)[15..];
      Decimal.PrintInjective(i, j);
    }
    if ReasoningId(i) == ReasoningId(j) {
      assert Decimal.Print(i) == ReasoningId(i)[20..] && Decimal.Print(j) == ReasoningId(j)[20..];
      Decimal.PrintInjective(i, j);
    }
  }

  /** The input a tool call's emitted arguments will be collected to. */
  function InputOf(env: Env, arguments: string): Option<Value> {
    if Json.IsBlank(arguments) then Some(Json.Obj(map[])) else env.codec.parse(arguments)
  }

  predicate TextBlockOk(e: Entry, ds: seq<Delta>) {
    && (forall d :: d in ds ==> d.TextDelta?)
    && TextOfDeltas(ds) == RawText(e.block.raw)
    && (e.block.raw.Get("text").None? || e.block.raw.GetStr("text").Some?)
  }

  predicate ToolBlockOk(env: Env, e: Entry, ds: seq<Delta>, closed: bool) {
    var raw := e.block.raw;
    && raw.GetStr("name").Some?
    && (forall d :: d in ds ==> d.ToolCallDelta? && d.id == raw.GetStrOr("id", "") && d.name == raw.GetStr("name"))
    && if closed then ds != [] && raw.Get("input").Some? && InputOf(env, ArgumentsOf(ds)) == raw.Get("input")
       else
         && raw.Get("input") == Some(Json.Obj(map[]))
         && ArgumentsOf(ds) == e.block.inputJson
         && (e.block.emittedClientDelta <==> ds != [])
  }

  /** `ds` are the deltas emitted for block `e`, which has stopped or not. */
  predicate BlockOk(env: Env, e: Entry, ds: seq<Delta>, closed: bool) {
    && (ItemIdOf(e).None? ==> ds == [])
    && (forall d :: d in ds ==> Some(d.itemId) == ItemIdOf(e))
    && (HasType(e.block.raw, "text") ==> TextBlockOk(e, ds))
    && (HasType(e.block.raw, "tool_use") ==> ToolBlockOk(env, e, ds, closed))
    && (HasType(e.block.raw, "thinking") ==> forall d :: d in ds ==> d.ReasoningDelta? && d.provider == env.provider)
  }

  // ---------------------------------------------------------------------------
  // Steps inside one block
  // ---------------------------------------------------------------------------

  lemma {:induction false} TextOfDeltasSnoc(ds: seq<Delta>, d: Delta)
    ensures TextOfDeltas(ds + [d]) == TextOfDeltas(ds) + if d.ToolCallDelta? then "" else d.text
    ensures ArgumentsOf(ds + [d]) == ArgumentsOf(ds) + if d.ToolCallDelta? then d.arguments else ""
  {
    assert Init(ds + [d]) == ds;
  }

  lemma BlockStarts(env: Env, index: nat, raw: Value)
    requires GoodStart(raw)
    ensures var e := Entry(index, Block(raw, "", false));
            BlockOk(env, e, if StartText(raw) == "" then [] else [TextDelta(TextId(index), StartText(raw))], false)
  {
    TextOfDeltasSnoc([], TextDelta(TextId(index), StartText(raw)));
    assert [] + [TextDelta(TextId(index), StartText(raw))] == [TextDelta(TextId(index), StartText(raw))];
  }

  /** Updating a field other than those that name the block keeps its type, id and name. */
  lemma BlockAfterShape(block: Block, part: Part)
    ensures var after := BlockAfter(block, part);
            && after.raw.GetStr("type") == block.raw.GetStr("type")
            && after.raw.GetStr("id") == block.raw.GetStr("id")
            && after.raw.GetStr("name") == block.raw.GetStr("name")
            && after.raw.Get("input") == block.raw.Get("input")
            && (!part.TextPart? ==> after.raw.Get("text") == block.raw.Get("text"))
            && (!part.InputPart? ==>
                  after.inputJson == block.inputJson && after.emittedClientDelta == block.emittedClientDelta)
  {
    assert "type" !in {"text", "thinking", "signature"};
    assert "id" !in {"text", "thinking", "signature"};
    assert "name" !in {"text", "thinking", "signature"};
    assert "input" !in {"text", "thinking", "signature"};
    assert "text" !in {"thinking", "signature"};
  }

  lemma TextBlockGrows(index: nat, block: Block, ds: seq<Delta>, text: string)
    requires HasType(block.raw, "text") && TextBlockOk(Entry(index, block), ds)
    ensures TextBlockOk(Entry(index, BlockAfter(block, TextPart(text))), ds + [TextDelta(TextId(index), text)])
    ensures RawText(BlockAfter(block, TextPart(text)).raw) == RawText(block.raw) + text
  {
    BlockAfterShape(block, TextPart(text));
    TextOfDeltasSnoc(ds, TextDelta(TextId(index), text));
    assert "" + text == text;
  }

  lemma ToolBlockGrows(env: Env, index: nat, block: Block, ds: seq<Delta>, json: string)
    requires HasType(block.raw, "tool_use") && ToolBlockOk(env, Entry(index, block), ds, false)
    ensures ToolBlockOk(env, Entry(index, BlockAfter(block, InputPart(json))),
                        ds + [ToolDelta(index, block.raw, json)], false)
  {
    TextOfDeltasSnoc(ds, ToolDelta(index, block.raw, json));
  }

  lemma TypesExclude(raw: Value)
    ensures !(HasType(raw, "text") && HasType(raw, "tool_use"))
    ensures !(HasType(raw, "text") && HasType(raw, "thinking"))
    ensures !(HasType(raw, "tool_use") && HasType(raw, "thinking"))
  {
    assert |"text"| == 4 && |"tool_use"| == |"thinking"| == 8;
    assert "tool_use"[1] == 'o' && "thinking"[1] == 'h';
  }

  lemma BlockGrows(env: Env, index: nat, block: Block, ds: seq<Delta>, part: Part)
    requires BlockOk(env, Entry(index, block), ds, false) && Fits(block.raw.GetStr("type"), part)
    ensures BlockOk(env, Entry(index, BlockAfter(block, part)), ds + DeltasFor(env, index, block, part), false)
    ensures BlockAfter(block, part).raw.GetStr("type") == block.raw.GetStr("type")
  {
    BlockAfterShape(block, part);
    TypesExclude(block.raw);
    assert ds + [] == ds;
    match part {
      case TextPart(text) => TextBlockGrows(index, block, ds, text);
      case InputPart(json) =>
        if HasType(block.raw, "tool_use") {
          ToolBlockGrows(env, index, block, ds, json);
        }
      case _ =>
    }
  }

  /** A stop that succeeds leaves the stored input equal to what the deltas collect to. */
  lemma BlockStops(env: Env, index: nat, block: Block, ds: seq<Delta>)
    requires env.Lawful() && BlockOk(env, Entry(index, block), ds, false) && StopRaw(env, block).Some?
    ensures var raw := StopRaw(env, block).value;
            && BlockOk(env, Entry(index, block.(raw := raw)),
                       ds + StopDeltas(env, index, raw, block.emittedClientDelta), true)
            && RawText(raw) == RawText(block.raw)
  {
    var raw := StopRaw(env, block).value;
    StopShape(env, block);
    TypesExclude(raw);
    assert ds + [] == ds;
    if HasType(raw, "tool_use") {
      ToolBlockStops(env, index, block, ds);
    }
  }

  lemma StopShape(env: Env, block: Block)
    requires StopRaw(env, block).Some?
    ensures var raw := StopRaw(env, block).value;
            && raw.GetStr("type") == block.raw.GetStr("type")
            && raw.GetStr("id") == block.raw.GetStr("id")
            && raw.GetStr("name") == block.raw.GetStr("name")
            && raw.Get("text") == block.raw.Get("text")
  {
    assert "input" !in {"type", "id", "name", "text"} by {
      assert |"input"| == 5 && |"type"| == |"name"| == |"text"| == 4 && |"id"| == 2;
    }
  }

  lemma ToolBlockStops(env: Env, index: nat, block: Block, ds: seq<Delta>)
    requires env.Lawful() && HasType(block.raw, "tool_use")
    requires ToolBlockOk(env, Entry(index, block), ds, false) && StopRaw(env, block).Some?
    ensures var raw := StopRaw(env, block).value;
            ToolBlockOk(env, Entry(index, block.(raw := raw)),
                        ds + StopDeltas(env, index, raw, block.emittedClientDelta), true)
  {
    var raw := StopRaw(env, block).value;
    StopShape(env, block);
    if block.emittedClientDelta {
      assert ds + [] == ds;
    } else {
      assert ds == [];
      assert Json.IsBlank(block.inputJson);
      var arguments := env.codec.render(Json.EMPTY);
      env.codec.EmptyIsNotBlank();
      TextOfDeltasSnoc([], ToolDelta(index, raw, arguments));
      assert "" + arguments == arguments;
    }
  }

  // ---------------------------------------------------------------------------
  // Finished blocks, one behind the other
  // ---------------------------------------------------------------------------

  predicate Below(es: seq<Entry>, next: nat) { forall e :: e in es ==> e.index < next }

  /** The places of the blocks that emitted something, in block order. */
  function EntryPlaces(es: seq<Entry>, trace: seq<Event>): seq<Place> {
    if es == [] then []
    else
      EntryPlaces(Init(es), trace)
      + match ItemIdOf(Latest(es))
        case Some(id) => if DeltasOf(trace, id) != [] then [ItemPlace(id)] else []
        case None => []
  }

  function DeltasAt(e: Entry, trace: seq<Event>): seq<Delta> {
    match ItemIdOf(e) case Some(id) => DeltasOf(trace, id) case None => []
  }

  ghost predicate Named(es: seq<Entry>, id: string) { exists k :: 0 <= k < |es| && ItemIdOf(es[k]) == Some(id) }

  /** `trace` holds exactly the deltas of the stopped blocks `es`, block by block. */
  ghost predicate Front(env: Env, es: seq<Entry>, trace: seq<Event>) {
    && Sorted(es)
    && (forall k :: 0 <= k < |es| ==> BlockOk(env, es[k], DeltasAt(es[k], trace), true))
    && (forall id :: DeltasOf(trace, id) != [] ==> Named(es, id))
    && PlacesOf(trace) == EntryPlaces(es, trace)
  }

  lemma {:induction false} DeltasOfOneItem(ds: seq<Delta>, own: string, id: string)
    requires forall d :: d in ds ==> d.itemId == own
    ensures DeltasOf(AsEvents(ds), id) == if id == own then ds else []
  {
    if ds != [] {
      DeltasOfOneItem(Init(ds), own, id);
      assert Init(AsEvents(ds)) == AsEvents(Init(ds));
      assert Latest(ds) in ds;
    }
  }

  lemma OneItemDeltas(trace: seq<Event>, ds: seq<Delta>, own: string, id: string)
    requires forall d :: d in ds ==> d.itemId == own
    ensures DeltasOf(trace + AsEvents(ds), id) == DeltasOf(trace, id) + if id == own then ds else []
  {
    DeltasOfAppend(trace, AsEvents(ds), id);
    DeltasOfOneItem(ds, own, id);
  }

  lemma {:induction false} OneItemPlaces(trace: seq<Event>, ds: seq<Delta>, own: string)
    requires forall d :: d in ds ==> d.itemId == own
    ensures PlacesOf(trace + AsEvents(ds)) ==
            PlacesOf(trace) + if ds == [] || DeltasOf(trace, own) != [] then [] else [ItemPlace(own)]
  {
    if ds == [] {
      assert trace + AsEvents(ds) == trace;
    } else {
      var d, before := Latest(ds), trace + AsEvents(Init(ds));
      OneItemPlaces(trace, Init(ds), own);
      OneItemDeltas(trace, Init(ds), own, own);
      assert AsEvents(ds) == AsEvents(Init(ds)) + [DeltaEvent(d)];
      Assoc(trace, AsEvents(Init(ds)), [DeltaEvent(d)]);
      PlacesAfterDelta(before, d);
    }
  }

  /** Deltas of one item behind a trace. */
  lemma OneItemBehind(trace: seq<Event>, ds: seq<Delta>, own: string)
    requires forall d :: d in ds ==> d.itemId == own
    ensures forall id :: DeltasOf(trace + AsEvents(ds), id) == DeltasOf(trace, id) + if id == own then ds else []
    ensures PlacesOf(trace + AsEvents(ds)) ==
            PlacesOf(trace) + if ds == [] || DeltasOf(trace, own) != [] then [] else [ItemPlace(own)]
  {
    forall id
      ensures DeltasOf(trace + AsEvents(ds), id) == DeltasOf(trace, id) + if id == own then ds else []
    {
      OneItemDeltas(trace, ds, own, id);
    }
    OneItemPlaces(trace, ds, own);
  }

  lemma {:induction false} EntryPlacesSame(es: seq<Entry>, a: seq<Event>, b: seq<Event>)
    requires forall k :: 0 <= k < |es| ==> DeltasAt(es[k], a) == DeltasAt(es[k], b)
    ensures EntryPlaces(es, a) == EntryPlaces(es, b)
  {
    if es != [] {
      assert es[|es| - 1] == Latest(es);
      EntryPlacesSame(Init(es), a, b);
    }
  }

  lemma NamedSnoc(es: seq<Entry>, e: Entry, id: string)
    ensures Named(es + [e], id) <==> Named(es, id) || ItemIdOf(e) == Some(id)
  {
    if Named(es, id) {
      var k :| 0 <= k < |es| && ItemIdOf(es[k]) == Some(id);
      assert ItemIdOf((es + [e])[k]) == Some(id);
    }
    if ItemIdOf(e) == Some(id) {
      assert ItemIdOf((es + [e])[|es|]) == Some(id);
    }
  }

  /** A block's own deltas leave the earlier blocks as they were. */
  lemma EarlierUntouched(es: seq<Entry>, trace: seq<Event>, e: Entry, ds: seq<Delta>)
    requires Below(es, e.index)
    requires forall d :: d in ds ==> Some(d.itemId) == ItemIdOf(e)
    requires ItemIdOf(e).None? ==> ds == []
    ensures forall k :: 0 <= k < |es| ==> DeltasAt(es[k], trace + AsEvents(ds)) == DeltasAt(es[k], trace)
  {
    if ItemIdOf(e).Some? {
      OneItemBehind(trace, ds, ItemIdOf(e).value);
    } else {
      assert trace + AsEvents(ds) == trace;
    }
    forall k | 0 <= k < |es|
      ensures DeltasAt(es[k], trace + AsEvents(ds)) == DeltasAt(es[k], trace)
    {
      assert es[k] in es;
      IdsDiffer(es[k], e);
    }
  }

  /** A later block's item is new to the trace of the earlier ones. */
  lemma OwnItemIsNew(es: seq<Entry>, trace: seq<Event>, e: Entry, ds: seq<Delta>)
    requires Below(es, e.index) && forall id :: DeltasOf(trace, id) != [] ==> Named(es, id)
    requires forall d :: d in ds ==> Some(d.itemId) == ItemIdOf(e)
    requires ItemIdOf(e).None? ==> ds == []
    ensures DeltasAt(e, trace) == [] && DeltasAt(e, trace + AsEvents(ds)) == ds
    ensures forall id :: DeltasOf(trace + AsEvents(ds), id) != [] ==> Named(es + [e], id)
    ensures PlacesOf(trace + AsEvents(ds)) ==
            PlacesOf(trace) + if ds == [] then [] else [ItemPlace(ItemIdOf(e).value)]
  {
    if ItemIdOf(e).None? {
      assert trace + AsEvents(ds) == trace;
    } else {
      var own := ItemIdOf(e).value;
      if DeltasOf(trace, own) != [] {
        var k :| 0 <= k < |es| && ItemIdOf(es[k]) == Some(own);
        assert es[k] in es;
        IdsDiffer(es[k], e);
      }
      OneItemBehind(trace, ds, own);
      assert [] + ds == ds;
    }
    forall id | DeltasOf(trace + AsEvents(ds), id) != []
      ensures Named(es + [e], id)
    {
      NamedSnoc(es, e, id);
    }
  }

  lemma BlocksBehind(env: Env, es: seq<Entry>, trace: seq<Event>, after: seq<Event>, e: Entry)
    requires forall k :: 0 <= k < |es| ==> BlockOk(env, es[k], DeltasAt(es[k], trace), true)
    requires forall k :: 0 <= k < |es| ==> DeltasAt(es[k], after) == DeltasAt(es[k], trace)
    requires BlockOk(env, e, DeltasAt(e, after), true)
    ensures forall k :: 0 <= k < |es + [e]| ==> BlockOk(env, (es + [e])[k], DeltasAt((es + [e])[k], after), true)
  {
    forall k | 0 <= k < |es + [e]|
      ensures BlockOk(env, (es + [e])[k], DeltasAt((es + [e])[k], after), true)
    {
      assert (es + [e])[k] == if k < |es| then es[k] else e;
    }
  }

  /** A stopped block behind stopped blocks. */
  lemma FrontExtends(env: Env, es: seq<Entry>, trace: seq<Event>, e: Entry, ds: seq<Delta>)
    requires Front(env, es, trace) && Below(es, e.index) && BlockOk(env, e, ds, true)
    ensures Front(env, es + [e], trace + AsEvents(ds))
  {
    var after := trace + AsEvents(ds);
    EarlierUntouched(es, trace, e, ds);
    EntryPlacesSame(es, trace, after);
    OwnItemIsNew(es, trace, e, ds);
    SortedSnoc(es, e);
    PlacesSnoc(es, trace, after, e, ds);
    BlocksBehind(env, es, trace, after, e);
  }

  lemma SortedSnoc(es: seq<Entry>, e: Entry)
    requires Sorted(es) && Below(es, e.index)
    ensures Sorted(es + [e])
  {
    assert forall k :: 0 <= k < |es| ==> es[k] in es;
  }

  lemma PlacesSnoc(es: seq<Entry>, trace: seq<Event>, after: seq<Event>, e: Entry, ds: seq<Delta>)
    requires EntryPlaces(es, after) == EntryPlaces(es, trace) && DeltasAt(e, after) == ds
    requires ItemIdOf(e).None? ==> ds == []
    ensures EntryPlaces(es + [e], after) ==
            EntryPlaces(es, trace) + if ds == [] then [] else [ItemPlace(ItemIdOf(e).value)]
  {
    assert Init(es + [e]) == es && Latest(es + [e]) == e;
  }

  // ---------------------------------------------------------------------------
  // The invariant of a run
  // ---------------------------------------------------------------------------

  /** Stopped blocks in index order, each with the deltas emitted for it. */
  predicate Stopped(env: Env, es: seq<Entry>, dss: seq<seq<Delta>>) {
    |es| == |dss| &&
    (es != [] ==>
      && Stopped(env, Init(es), Init(dss))
      && Below(Init(es), Latest(es).index)
      && BlockOk(env, Latest(es), Latest(dss), true))
  }

  function Emitted(dss: seq<seq<Delta>>): seq<Event> {
    if dss == [] then [] else Emitted(Init(dss)) + AsEvents(Latest(dss))
  }

  lemma {:induction false} StoppedIsFront(env: Env, es: seq<Entry>, dss: seq<seq<Delta>>)
    requires Stopped(env, es, dss)
    ensures Front(env, es, Emitted(dss))
  {
    if es != [] {
      StoppedIsFront(env, Init(es), Init(dss));
      FrontOneMore(env, es, Emitted(Init(dss)), Latest(dss));
    }
  }

  lemma FrontOneMore(env: Env, es: seq<Entry>, trace: seq<Event>, ds: seq<Delta>)
    requires es != [] && Front(env, Init(es), trace) && Below(Init(es), Latest(es).index)
             && BlockOk(env, Latest(es), ds, true)
    ensures Front(env, es, trace + AsEvents(ds))
  {
    FrontExtends(env, Init(es), trace, Latest(es), ds);
    assert Init(es) + [Latest(es)] == es;
  }

  lemma StoppedSnoc(env: Env, es: seq<Entry>, dss: seq<seq<Delta>>, e: Entry, ds: seq<Delta>)
    requires Stopped(env, es, dss) && Below(es, e.index) && BlockOk(env, e, ds, true)
    ensures Stopped(env, es + [e], dss + [ds])
  {
    assert Init(es + [e]) == es && Init(dss + [ds]) == dss;
    assert Latest(es + [e]) == e && Latest(dss + [ds]) == ds;
  }

  /** `dss` are the deltas of the stopped blocks, `open` those of the block under way. */
  predicate Shape(env: Env, es: seq<Entry>, phase: Phase, dss: seq<seq<Delta>>, open: seq<Delta>) {
    match phase
    case Between(next) => open == [] && Stopped(env, es, dss) && Below(es, next)
    case Inside(index, kind) =>
      && es != []
      && Stopped(env, Init(es), dss) && Below(Init(es), index)
      && Latest(es).index == index && Latest(es).block.raw.GetStr("type") == kind
      && BlockOk(env, Latest(es), open, false)
  }

  lemma ContentTextSnoc(es: seq<Entry>, e: Entry)
    ensures ContentText(RawContent(es + [e])) == ContentText(RawContent(es)) + RawText(e.block.raw)
  {
    assert Init(RawContent(es + [e])) == RawContent(es);
  }

  lemma StartShape(env: Env, es: seq<Entry>, phase: Phase, dss: seq<seq<Delta>>, index: nat, raw: Value)
    requires Shape(env, es, phase, dss, []) && PhaseStep(phase, BlockStart(index, raw)).Some?
    ensures var next := Put(es, index, Block(raw, "", false));
            Shape(env, next, Inside(index, raw.GetStr("type")), dss, StartDeltas(index, raw))
  {
    var e := Entry(index, Block(raw, "", false));
    BlockStarts(env, index, raw);
    PutLast(es, index, e.block);
    assert Init(es + [e]) == es;
  }

  lemma LastEntry(es: seq<Entry>, block: Block)
    requires es != [] && Below(Init(es), Latest(es).index)
    ensures Lookup(es, Latest(es).index) == Some(Latest(es).block)
    ensures Put(es, Latest(es).index, block) == Init(es) + [Entry(Latest(es).index, block)]
    ensures ContentText(RawContent(es)) == ContentText(RawContent(Init(es))) + RawText(Latest(es).block.raw)
    ensures ContentText(RawContent(Init(es) + [Entry(Latest(es).index, block)])) ==
            ContentText(RawContent(Init(es))) + RawText(block.raw)
  {
    assert es == Init(es) + [Entry(Latest(es).index, Latest(es).block)];
    PutLast(Init(es), Latest(es).index, block);
    ContentTextSnoc(Init(es), Latest(es));
    ContentTextSnoc(Init(es), Entry(Latest(es).index, block));
  }

  lemma RawTextAfter(block: Block, part: Part)
    requires Fits(block.raw.GetStr("type"), part)
    requires HasType(block.raw, "text") ==> block.raw.Get("text").None? || block.raw.GetStr("text").Some?
    ensures RawText(BlockAfter(block, part).raw) == RawText(block.raw) + PartText(part)
  {
    BlockAfterShape(block, part);
    assert RawText(block.raw) + "" == RawText(block.raw);
    if part.TextPart? {
      assert "" + part.text == part.text;
    }
  }

  lemma DeltaShape(env: Env, es: seq<Entry>, phase: Phase, dss: seq<seq<Delta>>, open: seq<Delta>, index: nat,
                   part: Part)
    requires Shape(env, es, phase, dss, open) && PhaseStep(phase, BlockDelta(index, part)).Some?
    ensures var block := BlockAt(es, index);
            Shape(env, Put(es, index, BlockAfter(block, part)), phase, dss, open + DeltasFor(env, index, block, part))
  {
    var next := BlockAfter(Latest(es).block, part);
    LastEntry(es, next);
    BlockGrows(env, index, Latest(es).block, open, part);
    LastShape(env, Init(es), phase, dss, open + DeltasFor(env, index, Latest(es).block, part), Entry(index, next));
  }

  /** An open block behind stopped ones. */
  lemma LastShape(env: Env, front: seq<Entry>, phase: Phase, dss: seq<seq<Delta>>, open: seq<Delta>, e: Entry)
    requires phase.Inside? && phase.index == e.index && phase.kind == e.block.raw.GetStr("type")
    requires Stopped(env, front, dss) && Below(front, e.index) && BlockOk(env, e, open, false)
    ensures Shape(env, front + [e], phase, dss, open)
  {
    assert Init(front + [e]) == front && Latest(front + [e]) == e;
  }

  /** The open block and the stopped ones before it. */
  predicate Opens(env: Env, front: seq<Entry>, e: Entry, dss: seq<seq<Delta>>, open: seq<Delta>) {
    Stopped(env, front, dss) && Below(front, e.index) && BlockOk(env, e, open, false)
  }

  lemma StopShape1(env: Env, front: seq<Entry>, dss: seq<seq<Delta>>, e: Entry, open: seq<Delta>)
    requires env.Lawful()
    requires Opens(env, front, e, dss, open) && StopRaw(env, e.block).Some?
    ensures var raw := StopRaw(env, e.block).value;
            && Stopped(env, front + [Entry(e.index, e.block.(raw := raw))],
                       dss + [open + StopDeltas(env, e.index, raw, e.block.emittedClientDelta)])
            && Below(front + [Entry(e.index, e.block.(raw := raw))], e.index + 1)
  {
    var raw := StopRaw(env, e.block).value;
    BlockStops(env, e.index, e.block, open);
    StoppedSnoc(env, front, dss, Entry(e.index, e.block.(raw := raw)),
                open + StopDeltas(env, e.index, raw, e.block.emittedClientDelta));
  }

  lemma ShapeOpens(env: Env, es: seq<Entry>, phase: Phase, dss: seq<seq<Delta>>, open: seq<Delta>, index: nat)
    requires Shape(env, es, phase, dss, open) && PhaseStep(phase, BlockStop(index)).Some?
    ensures es != [] && Latest(es).index == index && Opens(env, Init(es), Latest(es), dss, open)
    ensures Lookup(es, index) == Some(Latest(es).block)
  {
    LastEntry(es, Latest(es).block);
  }

  lemma StopShapes(env: Env, es: seq<Entry>, dss: seq<seq<Delta>>, open: seq<Delta>)
    requires env.Lawful() && es != [] && Opens(env, Init(es), Latest(es), dss, open)
    requires StopRaw(env, Latest(es).block).Some?
    ensures var block, index := Latest(es).block, Latest(es).index; var raw := StopRaw(env, block).value;
            Shape(env, Put(es, index, block.(raw := raw)), Between(index + 1),
                  dss + [open + StopDeltas(env, index, raw, block.emittedClientDelta)], [])
  {
    var e := Latest(es);
    var raw := StopRaw(env, e.block).value;
    LastEntry(es, e.block.(raw := raw));
    StopShape1(env, Init(es), dss, e, open);
    AllStopped(env, Init(es) + [Entry(e.index, e.block.(raw := raw))], e.index + 1,
               dss + [open + StopDeltas(env, e.index, raw, e.block.emittedClientDelta)]);
  }

  lemma AllStopped(env: Env, es: seq<Entry>, next: nat, dss: seq<seq<Delta>>)
    requires Stopped(env, es, dss) && Below(es, next)
    ensures Shape(env, es, Between(next), dss, [])
  {}

  /** Emitted deltas and stored blocks correspond. */
  ghost predicate RunOk(env: Env, ran: Ran, phase: Phase, dss: seq<seq<Delta>>, open: seq<Delta>) {
    && ran.events == Emitted(dss) + AsEvents(open)
    && Shape(env, ran.state.blocks, phase, dss, open)
  }

  lemma AsEventsAppend(trace: seq<Event>, a: seq<Delta>, b: seq<Delta>)
    ensures trace + AsEvents(a) + AsEvents(b) == trace + AsEvents(a + b)
    ensures trace + AsEvents([]) == trace
  {}

  lemma EmittedSnoc(dss: seq<seq<Delta>>, ds: seq<Delta>)
    ensures Emitted(dss + [ds]) == Emitted(dss) + AsEvents(ds)
  {
    assert Init(dss + [ds]) == dss;
  }

  lemma StepKeeps(env: Env, ran: Ran, phase: Phase, w: Wire, dss: seq<seq<Delta>>, open: seq<Delta>)
    returns (dss': seq<seq<Delta>>, open': seq<Delta>)
    requires env.Lawful() && RunOk(env, ran, phase, dss, open)
    requires PhaseStep(phase, w).Some? && ApplyOpen(env, ran.state, w).result.Ok?
    ensures var applied := ApplyOpen(env, ran.state, w);
            RunOk(env, Ran(applied.state, ran.events + applied.result.value.events), PhaseStep(phase, w).value,
                  dss', open')
  {
    var es := ran.state.blocks;
    dss', open' := dss, open;
    assert ran.events + [] == ran.events;
    match w {
      case BlockStart(index, raw) =>
        StartShape(env, es, phase, dss, index, raw);
        AsEventsAppend(Emitted(dss), [], StartDeltas(index, raw));
        open' := StartDeltas(index, raw);
      case BlockDelta(index, part) =>
        DeltaShape(env, es, phase, dss, open, index, part);
        var ds := DeltasFor(env, index, BlockAt(es, index), part);
        AsEventsAppend(Emitted(dss), open, ds);
        open' := open + ds;
      case BlockStop(index) =>
        dss', open' := StopKeeps(env, ran, phase, dss, open, index);
      case _ =>
    }
  }

  lemma StopKeeps(env: Env, ran: Ran, phase: Phase, dss: seq<seq<Delta>>, open: seq<Delta>, index: nat)
    returns (dss': seq<seq<Delta>>, open': seq<Delta>)
    requires env.Lawful() && RunOk(env, ran, phase, dss, open)
    requires PhaseStep(phase, BlockStop(index)).Some? && ApplyStop(env, ran.state, index).result.Ok?
    ensures var applied := ApplyStop(env, ran.state, index);
            RunOk(env, Ran(applied.state, ran.events + applied.result.value.events), Between(index + 1), dss', open')
  {
    var block := Latest(ran.state.blocks).block;
    ShapeOpens(env, ran.state.blocks, phase, dss, open, index);
    StopShapes(env, ran.state.blocks, dss, open);
    var ds := StopDeltas(env, index, StopRaw(env, block).value, block.emittedClientDelta);
    dss', open' := dss + [open + ds], [];
    EmittedWhole(dss, open, ds);
  }

  lemma EmittedWhole(dss: seq<seq<Delta>>, open: seq<Delta>, ds: seq<Delta>)
    ensures Emitted(dss) + AsEvents(open) + AsEvents(ds) == Emitted(dss + [open + ds]) + AsEvents([])
  {
    EmittedSnoc(dss, open + ds);
    AsEventsAppend(Emitted(dss), open, ds);
    AsEventsAppend(Emitted(dss + [open + ds]), [], []);
  }

  /** Along every conforming run the emitted deltas are those of the stored blocks. */
  lemma {:induction false} RunKeeps(env: Env, wires: seq<Wire>) returns (dss: seq<seq<Delta>>, open: seq<Delta>)
    requires env.Lawful() && PhaseAfter(wires).Some? && Run(env, wires).Ok?
    ensures RunOk(env, Run(env, wires).value, PhaseAfter(wires).value, dss, open)
    decreases |wires|
  {
    if wires == [] {
      dss, open := [], [];
      AsEventsAppend([], [], []);
    } else {
      dss, open := RunKeeps(env, Init(wires));
      dss, open := StepKeeps(env, Run(env, Init(wires)).value, PhaseAfter(Init(wires)).value, Latest(wires), dss, open);
    }
  }

  // ---------------------------------------------------------------------------
  // The fallback flags
  // ---------------------------------------------------------------------------

  /** The block under way is the last one, and a text block holds its text as a string. */
  predicate LastIsOpen(es: seq<Entry>, phase: Phase) {
    match phase
    case Between(next) => Below(es, next)
    case Inside(index, kind) =>
      && es != [] && Below(Init(es), index) && Latest(es).index == index
      && Latest(es).block.raw.GetStr("type") == kind
      && (kind == Some("text") ==> Latest(es).block.raw.Get("text").None? || Latest(es).block.raw.GetStr("text").Some?)
  }

  /** Fallback flags are down only when there is nothing to fall back on. */
  predicate FlagsOk(st: StreamState, trace: seq<Event>) {
    && (st.emittedTextDelta || ContentText(RawContent(st.blocks)) == "")
    && (forall e :: e in trace ==> e.DeltaEvent?)
    && (st.emittedReasoningDelta || forall e :: e in trace ==> !e.delta.ReasoningDelta?)
  }

  lemma StartBlocks(es: seq<Entry>, phase: Phase, index: nat, raw: Value)
    requires LastIsOpen(es, phase) && PhaseStep(phase, BlockStart(index, raw)).Some?
    ensures var next := Put(es, index, Block(raw, "", false));
            && LastIsOpen(next, Inside(index, raw.GetStr("type")))
            && ContentText(RawContent(next)) == ContentText(RawContent(es)) + StartText(raw)
  {
    var e := Entry(index, Block(raw, "", false));
    PutLast(es, index, e.block);
    assert Init(es + [e]) == es;
    ContentTextSnoc(es, e);
  }

  lemma DeltaBlocks(es: seq<Entry>, phase: Phase, index: nat, part: Part)
    requires LastIsOpen(es, phase) && PhaseStep(phase, BlockDelta(index, part)).Some?
    ensures var next := Put(es, index, BlockAfter(BlockAt(es, index), part));
            && LastIsOpen(next, phase)
            && ContentText(RawContent(next)) == ContentText(RawContent(es)) + PartText(part)
  {
    var block, next := Latest(es).block, Put(es, index, BlockAfter(BlockAt(es, index), part));
    LastEntry(es, BlockAfter(block, part));
    assert BlockAt(es, index) == block && next == Init(es) + [Entry(index, BlockAfter(block, part))];
    assert Init(next) == Init(es) && Latest(next) == Entry(index, BlockAfter(block, part));
    TextFieldAfter(block, part);
    RawTextAfter(block, part);
    Assoc(ContentText(RawContent(Init(es))), RawText(block.raw), PartText(part));
  }

  function PartText(part: Part): string { if part.TextPart? then part.text else "" }

  lemma TextFieldAfter(block: Block, part: Part)
    requires Fits(block.raw.GetStr("type"), part)
    requires HasType(block.raw, "text") ==> block.raw.Get("text").None? || block.raw.GetStr("text").Some?
    ensures var raw := BlockAfter(block, part).raw;
            && raw.GetStr("type") == block.raw.GetStr("type")
            && (HasType(raw, "text") ==> raw.Get("text").None? || raw.GetStr("text").Some?)
  {
    BlockAfterShape(block, part);
  }

  lemma StopBlocks(env: Env, es: seq<Entry>, phase: Phase, index: nat)
    requires LastIsOpen(es, phase) && PhaseStep(phase, BlockStop(index)).Some?
    requires StopRaw(env, Latest(es).block).Some?
    ensures var block := Latest(es).block; var next := Put(es, index, block.(raw := StopRaw(env, block).value));
            && Lookup(es, index) == Some(block)
            && LastIsOpen(next, Between(index + 1))
            && ContentText(RawContent(next)) == ContentText(RawContent(es))
  {
    var block := Latest(es).block;
    LastEntry(es, block.(raw := StopRaw(env, block).value));
    StopShape(env, block);
  }

  /** Only the open block changes; the stored text grows by the text received. */
  lemma BlocksStep(env: Env, st: StreamState, phase: Phase, w: Wire)
    requires LastIsOpen(st.blocks, phase) && PhaseStep(phase, w).Some? && ApplyOpen(env, st, w).result.Ok?
    ensures var next := ApplyOpen(env, st, w).state;
            && LastIsOpen(next.blocks, PhaseStep(phase, w).value)
            && ContentText(RawContent(next.blocks)) == ContentText(RawContent(st.blocks)) + TextIn(w)
  {
    var es := st.blocks;
    assert ContentText(RawContent(es)) + "" == ContentText(RawContent(es));
    match w {
      case BlockStart(index, raw) => StartBlocks(es, phase, index, raw);
      case BlockDelta(index, part) => DeltaBlocks(es, phase, index, part);
      case BlockStop(index) =>
        LastEntry(es, Latest(es).block);
        StopBlocks(env, es, phase, index);
      case _ =>
    }
  }

  /** What a step emits, and the flags it raises. */
  lemma FlagsStep(env: Env, st: StreamState, w: Wire)
    requires ApplyOpen(env, st, w).result.Ok?
    ensures var next := ApplyOpen(env, st, w).state; var events := ApplyOpen(env, st, w).result.value.events;
            && (forall e :: e in events ==> e.DeltaEvent?)
            && (next.emittedTextDelta <==>
                  st.emittedTextDelta || TextIn(w) != "" || (w.BlockDelta? && w.part.TextPart?))
            && (st.emittedReasoningDelta ==> next.emittedReasoningDelta)
            && (next.emittedReasoningDelta || forall e :: e in events ==> !e.delta.ReasoningDelta?)
  {}

  /** Along every conforming run the flags are right and the stored text is the text sent. */
  lemma {:induction false} RunFlags(env: Env, wires: seq<Wire>)
    requires PhaseAfter(wires).Some? && Run(env, wires).Ok?
    ensures var ran := Run(env, wires).value;
            && LastIsOpen(ran.state.blocks, PhaseAfter(wires).value)
            && FlagsOk(ran.state, ran.events)
            && ContentText(RawContent(ran.state.blocks)) == WireText(wires)
    decreases |wires|
  {
    if wires != [] {
      RunFlags(env, Init(wires));
      var before := Run(env, Init(wires)).value;
      BlocksStep(env, before.state, PhaseAfter(Init(wires)).value, Latest(wires));
      FlagsStep(env, before.state, Latest(wires));
    }
  }
}
