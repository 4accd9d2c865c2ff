/** The model-step reducer of crates/chudbot-api/src/collector.rs, proved against what the
    trace of pushed events means. */
module Collector {
  import opened Prelude
  import opened ModelStep
  import Json

  datatype ReducerError =
    | MissingFinished
    | DuplicateFinished
    | EventAfterFinished
    | InconsistentItemId(id: string)
    | InconsistentReasoningProvider(itemId: string, firstProvider: string, secondProvider: string)
    | InconsistentToolUseId(itemId: string, firstId: string, secondId: string)
    | InconsistentToolName(itemId: string, firstName: string, secondName: string)
    | MissingToolName(itemId: string)
    | InvalidToolArguments(toolUseId: string, arguments: string)

  datatype PendingKind = TextKind | ReasoningKind | ToolCallKind

  datatype PendingItem =
    | PendingText(itemId: string, text: string)
    | PendingReasoning(itemId: string, provider: string, summaries: seq<ReasoningSummary>)
    | PendingToolCall(itemId: string, id: string, name: Option<string>, arguments: string)

  datatype OutputSlot = Collected(item: Item) | UsageSlot(usage: UsageRecord) | Pending(pending: PendingItem)

  function KindOf(delta: Delta): PendingKind {
    match delta
    case TextDelta(_, _) => TextKind
    case ReasoningDelta(_, _, _, _) => ReasoningKind
    case ToolCallDelta(_, _, _, _) => ToolCallKind
  }

  function NewPending(itemId: string, kind: PendingKind): PendingItem {
    match kind
    case TextKind => PendingText(itemId, "")
    case ReasoningKind => PendingReasoning(itemId, "", [])
    case ToolCallKind => PendingToolCall(itemId, "", None, "")
  }

  // ---------------------------------------------------------------------------
  // What a trace of events means
  // ---------------------------------------------------------------------------

  /** The deltas of one item, in order. */
  function DeltasOf(trace: seq<Event>, id: string): (ds: seq<Delta>)
    ensures forall d :: d in ds ==> d.itemId == id
  {
    if trace == [] then []
    else
      var e := Latest(trace);
      DeltasOf(Init(trace), id) + if e.DeltaEvent? && e.delta.itemId == id then [e.delta] else []
  }

  function TextOfDeltas(ds: seq<Delta>): string {
    if ds == [] then "" else TextOfDeltas(Init(ds)) + if Latest(ds).ToolCallDelta? then "" else Latest(ds).text
  }

  function ArgumentsOf(ds: seq<Delta>): string {
    if ds == [] then "" else ArgumentsOf(Init(ds)) + if Latest(ds).ToolCallDelta? then Latest(ds).arguments else ""
  }

  /** The first tool name given. */
  function NameOf(ds: seq<Delta>): Option<string> {
    if ds == [] then None
    else if NameOf(Init(ds)).Some? then NameOf(Init(ds))
    else if Latest(ds).ToolCallDelta? then Latest(ds).name
    else None
  }

  /** Add a fragment to the summaries: it joins the last one when the kinds agree. */
  function AddSummary(summaries: seq<ReasoningSummary>, kind: Option<string>, text: string): seq<ReasoningSummary> {
    if summaries != [] && Latest(summaries).kind == kind
    then Init(summaries) + [ReasoningSummary(kind, Latest(summaries).text + text)]
    else summaries + [ReasoningSummary(kind, text)]
  }

  /** Adjacent fragments of one kind form one summary. */
  function SummariesOf(ds: seq<Delta>): seq<ReasoningSummary> {
    if ds == [] then []
    else if Latest(ds).ReasoningDelta? then AddSummary(SummariesOf(Init(ds)), Latest(ds).kind, Latest(ds).text)
    else SummariesOf(Init(ds))
  }

  /** The item its deltas build up. */
  function PendingOf(ds: seq<Delta>): PendingItem
    requires ds != []
  {
    var last := Latest(ds);
    match last
    case TextDelta(id, _) => PendingText(id, TextOfDeltas(ds))
    case ReasoningDelta(id, provider, _, _) => PendingReasoning(id, provider, SummariesOf(ds))
    case ToolCallDelta(id, toolId, _, _) => PendingToolCall(id, toolId, NameOf(ds), ArgumentsOf(ds))
  }

  /** Why a delta does not fit behind the earlier deltas of its item. */
  function DeltaError(ds: seq<Delta>, d: Delta): Option<ReducerError> {
    if ds == [] then None
    else if KindOf(Latest(ds)) != KindOf(d) then Some(InconsistentItemId(d.itemId))
    else
      match d
      case TextDelta(_, _) => None
      case ReasoningDelta(id, provider, _, _) =>
        var before := Latest(ds).provider;
        if before != "" && before != provider then Some(InconsistentReasoningProvider(id, before, provider)) else None
      case ToolCallDelta(id, toolId, name, _) =>
        var before := Latest(ds).id;
        if before != "" && before != toolId then Some(InconsistentToolUseId(id, before, toolId))
        else if NameOf(ds).Some? && name.Some? && NameOf(ds) != name then
          Some(InconsistentToolName(id, NameOf(ds).value, name.value))
        else None
  }

  function FinishedOf(trace: seq<Event>): Option<Event> {
    if trace == [] then None
    else if Latest(trace).Finished? then Some(Latest(trace))
    else FinishedOf(Init(trace))
  }

  /** Why an event does not fit behind a trace that was accepted so far. */
  function PushError(trace: seq<Event>, e: Event): Option<ReducerError> {
    if FinishedOf(trace).Some? then Some(if e.Finished? then DuplicateFinished else EventAfterFinished)
    else if e.DeltaEvent? then DeltaError(DeltasOf(trace, e.delta.itemId), e.delta)
    else None
  }

  predicate Accepted(trace: seq<Event>) {
    trace == [] || (Accepted(Init(trace)) && PushError(Init(trace), Latest(trace)).None?)
  }

  /** Output places in order: items stand where their first delta stands. */
  datatype Place = ItemPlace(id: string) | ReadyPlace(item: Item) | UsagePlace(usage: UsageRecord)

  function PlacesOf(trace: seq<Event>): seq<Place> {
    if trace == [] then []
    else
      var places := PlacesOf(Init(trace));
      match Latest(trace)
      case DeltaEvent(d) => if ItemPlace(d.itemId) in places then places else places + [ItemPlace(d.itemId)]
      case ContinuationEvent(c) => places + [ReadyPlace(BlockItem(ContinuationBlock(c)))]
      case ServerToolEvent(t) => places + [ReadyPlace(ServerToolEntry(t))]
      case GroundingEvent(m) => places + [ReadyPlace(GroundingEntry(m))]
      case UsageEvent(u) => places + [UsagePlace(u)]
      case Finished(_, _) => places
  }

  /** The place an event may open. */
  function PlaceFor(e: Event): Place {
    match e
    case DeltaEvent(d) => ItemPlace(d.itemId)
    case ContinuationEvent(c) => ReadyPlace(BlockItem(ContinuationBlock(c)))
    case ServerToolEvent(t) => ReadyPlace(ServerToolEntry(t))
    case GroundingEvent(m) => ReadyPlace(GroundingEntry(m))
    case UsageEvent(u) => UsagePlace(u)
    case Finished(_, _) => ItemPlace("")
  }

  lemma PlaceOpens(trace: seq<Event>)
    requires trace != []
    ensures PlacesOf(trace) in {PlacesOf(Init(trace)), PlacesOf(Init(trace)) + [PlaceFor(Latest(trace))]}
    ensures PlacesOf(trace) == PlacesOf(Init(trace)) ==> Latest(trace).DeltaEvent? || Latest(trace).Finished?
  {}

  lemma {:induction false} PlacesAreItems(trace: seq<Event>, id: string)
    ensures ItemPlace(id) in PlacesOf(trace) <==> DeltasOf(trace, id) != []
  {
    if trace != [] {
      PlacesAreItems(Init(trace), id);
    }
  }

  /** An item has one place only. */
  lemma {:induction false} PlacesDistinct(trace: seq<Event>)
    ensures forall i, j :: 0 <= i < j < |PlacesOf(trace)| && PlacesOf(trace)[i].ItemPlace? ==>
              PlacesOf(trace)[i] != PlacesOf(trace)[j]
  {
    if trace != [] {
      PlacesDistinct(Init(trace));
    }
  }

  function SlotAt(trace: seq<Event>, place: Place): OutputSlot
    requires place.ItemPlace? ==> DeltasOf(trace, place.id) != []
  {
    match place
    case ItemPlace(id) => Pending(PendingOf(DeltasOf(trace, id)))
    case ReadyPlace(item) => Collected(item)
    case UsagePlace(usage) => UsageSlot(usage)
  }

  // ---------------------------------------------------------------------------
  // Finishing
  // ---------------------------------------------------------------------------

  function FinishPending(codec: Json.Codec, pending: PendingItem, modelId: string): Result<Item, ReducerError> {
    match pending
    case PendingText(_, text) => Ok(BlockItem(TextBlock(text)))
    case PendingReasoning(itemId, provider, summaries) =>
      Ok(ReasoningEntry(ReasoningItem(provider, Some(modelId), Some(itemId), None, summaries)))
    case PendingToolCall(itemId, id, name, arguments) =>
      if name.None? then Err(MissingToolName(itemId))
      else if Json.IsBlank(arguments) then
        Ok(BlockItem(ToolCallBlock(ClientToolCall(id, name.value, Json.Obj(map[])))))
      else
        match codec.parse(arguments)
        case None => Err(InvalidToolArguments(id, arguments))
        case Some(input) => Ok(BlockItem(ToolCallBlock(ClientToolCall(id, name.value, input))))
  }

  datatype Lists = Lists(items: seq<Item>, usage: seq<UsageRecord>)

  /** Slots turned into items and usage, left to right, up to the first item that cannot finish. */
  function FinishSlots(codec: Json.Codec, slots: seq<OutputSlot>, modelId: string): Result<Lists, ReducerError> {
    if slots == [] then Ok(Lists([], []))
    else
      match FinishSlots(codec, Init(slots), modelId)
      case Err(e) => Err(e)
      case Ok(before) => FinishSlot(codec, before, Latest(slots), modelId)
  }

  function FinishSlot(codec: Json.Codec, before: Lists, slot: OutputSlot, modelId: string): Result<Lists, ReducerError>
  {
    match slot
    case Collected(item) => Ok(Lists(before.items + [item], before.usage))
    case UsageSlot(usage) => Ok(Lists(before.items, before.usage + [usage]))
    case Pending(pending) =>
      match FinishPending(codec, pending, modelId)
      case Err(e) => Err(e)
      case Ok(item) => Ok(Lists(before.items + [item], before.usage))
  }

  lemma FinishNext(codec: Json.Codec, slots: seq<OutputSlot>, k: nat, modelId: string, before: Lists)
    requires k < |slots| && FinishSlots(codec, slots[..k], modelId) == Ok(before)
    ensures FinishSlots(codec, slots[..k + 1], modelId) == FinishSlot(codec, before, slots[k], modelId)
  {
    assert Init(slots[..k + 1]) == slots[..k];
  }

  function SlotsOf(trace: seq<Event>): (slots: seq<OutputSlot>)
    ensures |slots| == |PlacesOf(trace)|
    ensures forall k :: 0 <= k < |slots| ==>
              && (PlacesOf(trace)[k].ItemPlace? ==> DeltasOf(trace, PlacesOf(trace)[k].id) != [])
              && slots[k] == SlotAt(trace, PlacesOf(trace)[k])
  {
    var places := PlacesOf(trace);
    assert forall k :: 0 <= k < |places| && places[k].ItemPlace? ==> DeltasOf(trace, places[k].id) != [] by {
      forall k | 0 <= k < |places| && places[k].ItemPlace?
        ensures DeltasOf(trace, places[k].id) != []
      {
        assert ItemPlace(places[k].id) in places;
        PlacesAreItems(trace, places[k].id);
      }
    }
    seq(|places|, k requires 0 <= k < |places| => SlotAt(trace, places[k]))
  }

  function FinishOf(codec: Json.Codec, trace: seq<Event>): Result<Step, ReducerError> {
    match FinishedOf(trace)
    case Some(Finished(kind, modelId)) =>
      (match FinishSlots(codec, SlotsOf(trace), modelId)
       case Err(e) => Err(e)
       case Ok(lists) => Ok(Step(kind, Output(modelId, lists.items, lists.usage))))
    case _ => Err(MissingFinished)
  }

  /** Push everything, then finish. */
  function FirstError(trace: seq<Event>): Option<ReducerError> {
    if trace == [] then None
    else if FirstError(Init(trace)).Some? then FirstError(Init(trace))
    else PushError(Init(trace), Latest(trace))
  }

  function Collect(codec: Json.Codec, trace: seq<Event>): Result<Step, ReducerError> {
    match FirstError(trace) case Some(e) => Err(e) case None => FinishOf(codec, trace)
  }

  lemma PlacesAfterDelta(trace: seq<Event>, d: Delta)
    ensures PlacesOf(trace + [DeltaEvent(d)]) ==
            if DeltasOf(trace, d.itemId) != [] then PlacesOf(trace) else PlacesOf(trace) + [ItemPlace(d.itemId)]
  {
    assert Init(trace + [DeltaEvent(d)]) == trace;
    PlacesAreItems(trace, d.itemId);
  }

  /** One more delta extends the slot of its item, or opens a slot at the end. */
  lemma SlotsAfterDelta(trace: seq<Event>, d: Delta, k: nat)
    requires DeltasOf(trace, d.itemId) != []
    requires k < |PlacesOf(trace)| && PlacesOf(trace)[k] == ItemPlace(d.itemId)
    ensures SlotsOf(trace + [DeltaEvent(d)]) ==
            SlotsOf(trace)[k := Pending(PendingOf(DeltasOf(trace, d.itemId) + [d]))]
  {
    var next := trace + [DeltaEvent(d)];
    PlacesDistinct(trace);
    PlacesAfterDelta(trace, d);
    DeltaKeepsOthers(trace, d);
    var places, before, after := PlacesOf(trace), SlotsOf(trace), SlotsOf(next);
    forall j | 0 <= j < |places| && j != k
      ensures after[j] == before[j]
    {
      assert places[j] != ItemPlace(d.itemId);
    }
  }

  lemma SlotsAfterNewDelta(trace: seq<Event>, d: Delta)
    requires DeltasOf(trace, d.itemId) == []
    ensures SlotsOf(trace + [DeltaEvent(d)]) == SlotsOf(trace) + [Pending(PendingOf([d]))]
  {
    var next, places := trace + [DeltaEvent(d)], PlacesOf(trace);
    PlacesAfterDelta(trace, d);
    PlacesAreItems(trace, d.itemId);
    DeltaKeepsOthers(trace, d);
    assert [] + [d] == [d] && PlacesOf(next) == places + [ItemPlace(d.itemId)];
    forall k | 0 <= k < |places|
      ensures SlotsOf(next)[k] == SlotsOf(trace)[k]
    {
      assert PlacesOf(next)[k] == places[k] && places[k] in places;
    }
    assert SlotsOf(next)[|places|] == Pending(PendingOf([d]));
  }

  /** The slot an event other than a delta fills at once. */
  function ReadySlot(e: Event): seq<OutputSlot> {
    match e
    case DeltaEvent(_) => []
    case ContinuationEvent(c) => [Collected(BlockItem(ContinuationBlock(c)))]
    case ServerToolEvent(t) => [Collected(ServerToolEntry(t))]
    case GroundingEvent(m) => [Collected(GroundingEntry(m))]
    case UsageEvent(u) => [UsageSlot(u)]
    case Finished(_, _) => []
  }

  lemma SlotsAfterOther(trace: seq<Event>, e: Event)
    requires !e.DeltaEvent?
    ensures SlotsOf(trace + [e]) ==
            SlotsOf(trace) + ReadySlot(e)
  {
    OthersKeepDeltas(trace, e);
    assert Init(trace + [e]) == trace;
  }

  // ---------------------------------------------------------------------------
  // The reducer object
  // ---------------------------------------------------------------------------

  /** Existing deltas of an item, then one more: the pending item is extended in place. */
  function Extend(p: PendingItem, d: Delta): PendingItem {
    match (p, d)
    case (PendingText(itemId, text), TextDelta(_, more)) => PendingText(itemId, text + more)
    case (PendingReasoning(itemId, _, summaries), ReasoningDelta(_, provider, kind, text)) =>
      PendingReasoning(itemId, provider, AddSummary(summaries, kind, text))
    case (PendingToolCall(itemId, _, known, arguments), ToolCallDelta(_, id, name, more)) =>
      PendingToolCall(itemId, id, if known.Some? then known else name, arguments + more)
    case _ => p
  }

  lemma PendingExtends(ds: seq<Delta>, d: Delta)
    requires DeltaError(ds, d).None?
    requires forall e :: e in ds ==> e.itemId == d.itemId
    ensures PendingOf(ds + [d]) ==
            Extend(if ds == [] then NewPending(d.itemId, KindOf(d)) else PendingOf(ds), d)
  {
    assert Init(ds + [d]) == ds;
    if ds != [] {
      assert Latest(ds) in ds;
    } else {
      assert ds + [d] == [d] && Init([d]) == [] && Latest([d]) == d;
      match d {
        case TextDelta(_, text) => assert TextOfDeltas([]) + text == text;
        case ReasoningDelta(_, _, kind, text) => assert SummariesOf([d]) == AddSummary([], kind, text);
        case ToolCallDelta(_, _, _, arguments) =>
          assert NameOf([]) == None && NameOf([d]) == d.name;
          assert ArgumentsOf([d]) == ArgumentsOf([]) + arguments == arguments;
      }
    }
  }

  /** The refusal read off the pending item instead of its deltas. */
  function PendingError(p: PendingItem, d: Delta): Option<ReducerError> {
    match (p, d)
    case (PendingText(_, _), TextDelta(_, _)) => None
    case (PendingReasoning(_, known, _), ReasoningDelta(itemId, provider, _, _)) =>
      if known != "" && known != provider then Some(InconsistentReasoningProvider(itemId, known, provider)) else None
    case (PendingToolCall(_, knownId, known, _), ToolCallDelta(itemId, id, name, _)) =>
      if knownId != "" && knownId != id then Some(InconsistentToolUseId(itemId, knownId, id))
      else if known.Some? && name.Some? && known != name then
        Some(InconsistentToolName(itemId, known.value, name.value))
      else None
    case _ => Some(InconsistentItemId(d.itemId))
  }

  /** Fold a delta into its pending item. */
  method FoldDelta(pending: PendingItem, d: Delta) returns (r: Result<PendingItem, ReducerError>)
    ensures r == match PendingError(pending, d) { case Some(e) => Err(e) case None => Ok(Extend(pending, d)) }
  {
    match d {
      case TextDelta(itemId, text) =>
        if !pending.PendingText? {
          return Err(InconsistentItemId(itemId));
        }
        return Ok(pending.(text := pending.text + text));
      case ReasoningDelta(itemId, provider, kind, text) =>
        if !pending.PendingReasoning? {
          return Err(InconsistentItemId(itemId));
        }
        var extended := pending;
        if pending.provider == "" {
          extended := extended.(provider := provider);
        } else if pending.provider != provider {
          return Err(InconsistentReasoningProvider(itemId, pending.provider, provider));
        }
        return Ok(extended.(summaries := AddSummary(pending.summaries, kind, text)));
      case ToolCallDelta(itemId, id, name, arguments) =>
        if !pending.PendingToolCall? {
          return Err(InconsistentItemId(itemId));
        }
        var extended := pending;
        if pending.id == "" {
          extended := extended.(id := id);
        } else if pending.id != id {
          return Err(InconsistentToolUseId(itemId, pending.id, id));
        }
        if name.Some? {
          if pending.name.Some? && pending.name != name {
            return Err(InconsistentToolName(itemId, pending.name.value, name.value));
          }
          if pending.name.None? {
            extended := extended.(name := name);
          }
        }
        return Ok(extended.(arguments := pending.arguments + arguments));
    }
  }

  /** A pending item of kind-consistent deltas refuses what the deltas refuse. */
  lemma PendingRefuses(ds: seq<Delta>, d: Delta)
    requires forall e :: e in ds ==> e.itemId == d.itemId
    requires ds != [] ==> KindOf(Latest(ds)) == KindOf(d)
    ensures PendingError(if ds == [] then NewPending(d.itemId, KindOf(d)) else PendingOf(ds), d) == DeltaError(ds, d)
  {
    if ds != [] {
      assert Latest(ds) in ds;
    }
  }

  /** Fields mean a trace: slots and flag as derived from it, ids naming exactly its items. */
  ghost predicate Means(trace: seq<Event>, slots: seq<OutputSlot>, ids: map<string, PendingKind>,
                        finished: Option<Event>)
  {
    && Accepted(trace)
    && slots == SlotsOf(trace)
    && finished == FinishedOf(trace)
    && (forall id :: id in ids <==> DeltasOf(trace, id) != [])
    && (forall id :: id in ids ==> ids[id] == KindOf(Latest(DeltasOf(trace, id))))
  }

  lemma AcceptedAfterDelta(trace: seq<Event>, d: Delta)
    requires Accepted(trace) && FinishedOf(trace).None?
    requires DeltaError(DeltasOf(trace, d.itemId), d).None?
    ensures Accepted(trace + [DeltaEvent(d)]) && FinishedOf(trace + [DeltaEvent(d)]).None?
  {
    assert Init(trace + [DeltaEvent(d)]) == trace;
  }

  lemma MeansAfterDelta(trace: seq<Event>, slots: seq<OutputSlot>, ids: map<string, PendingKind>, d: Delta, k: nat)
    requires Means(trace, slots, ids, None) && DeltaError(DeltasOf(trace, d.itemId), d).None?
    requires d.itemId in ids && k < |slots| && PlacesOf(trace)[k] == ItemPlace(d.itemId)
    ensures Means(trace + [DeltaEvent(d)], slots[k := Pending(PendingOf(DeltasOf(trace, d.itemId) + [d]))], ids, None)
  {
    var next, ds := trace + [DeltaEvent(d)], DeltasOf(trace, d.itemId);
    AcceptedAfterDelta(trace, d);
    SlotsAfterDelta(trace, d, k);
    DeltaKeepsOthers(trace, d);
    forall id
      ensures id in ids <==> DeltasOf(next, id) != []
      ensures id in ids ==> ids[id] == KindOf(Latest(DeltasOf(next, id)))
    {
      assert DeltasOf(next, id) == if id == d.itemId then ds + [d] else DeltasOf(trace, id);
      assert Latest(ds + [d]) == d;
    }
  }

  lemma NewDeltaAt(trace: seq<Event>, d: Delta, id: string)
    requires DeltasOf(trace, d.itemId) == []
    ensures DeltasOf(trace + [DeltaEvent(d)], id) == if id == d.itemId then [d] else DeltasOf(trace, id)
  {
    DeltaKeepsOthers(trace, d);
    assert [] + [d] == [d];
  }

  lemma MeansAfterNewDelta(trace: seq<Event>, slots: seq<OutputSlot>, ids: map<string, PendingKind>, d: Delta)
    requires Means(trace, slots, ids, None) && d.itemId !in ids
    ensures Means(trace + [DeltaEvent(d)], slots + [Pending(PendingOf([d]))], ids[d.itemId := KindOf(d)], None)
  {
    var next, after := trace + [DeltaEvent(d)], ids[d.itemId := KindOf(d)];
    assert DeltasOf(trace, d.itemId) == [];
    AcceptedAfterDelta(trace, d);
    SlotsAfterNewDelta(trace, d);
    forall id
      ensures id in after <==> DeltasOf(next, id) != []
      ensures id in after ==> after[id] == KindOf(Latest(DeltasOf(next, id)))
    {
      NewDeltaAt(trace, d, id);
    }
  }

  lemma MeansAfterOther(trace: seq<Event>, slots: seq<OutputSlot>, ids: map<string, PendingKind>, e: Event)
    requires Means(trace, slots, ids, None) && !e.DeltaEvent?
    ensures Means(trace + [e], slots + ReadySlot(e), ids, if e.Finished? then Some(e) else None)
  {
    assert Init(trace + [e]) == trace;
    SlotsAfterOther(trace, e);
    OthersKeepDeltas(trace, e);
  }

  lemma SlotIsPlace(trace: seq<Event>, k: nat, key: string)
    requires k < |PlacesOf(trace)|
    ensures SlotsOf(trace)[k].Pending? && SlotsOf(trace)[k].pending.itemId == key <==>
            PlacesOf(trace)[k] == ItemPlace(key)
    ensures PlacesOf(trace)[k] == ItemPlace(key) ==>
              DeltasOf(trace, key) != [] && SlotsOf(trace)[k] == Pending(PendingOf(DeltasOf(trace, key)))
  {
    var place := PlacesOf(trace)[k];
    if place.ItemPlace? {
      assert Latest(DeltasOf(trace, place.id)) in DeltasOf(trace, place.id);
    }
  }

  lemma ItemHasPlace(trace: seq<Event>, key: string) returns (k: nat)
    requires DeltasOf(trace, key) != []
    ensures k < |PlacesOf(trace)| && PlacesOf(trace)[k] == ItemPlace(key)
  {
    PlacesAreItems(trace, key);
    k :| 0 <= k < |PlacesOf(trace)| && PlacesOf(trace)[k] == ItemPlace(key);
  }

  predicate HoldsItem(slots: seq<OutputSlot>, k: nat, key: string) {
    k < |slots| && slots[k].Pending? && slots[k].pending.itemId == key
  }

  lemma KnownKindDiffers(trace: seq<Event>, slots: seq<OutputSlot>, ids: map<string, PendingKind>, d: Delta)
    requires Means(trace, slots, ids, None) && d.itemId in ids && ids[d.itemId] != KindOf(d)
    ensures DeltaError(DeltasOf(trace, d.itemId), d) == Some(InconsistentItemId(d.itemId))
  {}

  /** Folding a delta into the slot that holds its item. */
  lemma KnownDeltaFolded(trace: seq<Event>, slots: seq<OutputSlot>, ids: map<string, PendingKind>, d: Delta, k: nat)
    requires Means(trace, slots, ids, None)
    requires d.itemId in ids && ids[d.itemId] == KindOf(d) && HoldsItem(slots, k, d.itemId)
    ensures PendingError(slots[k].pending, d) == DeltaError(DeltasOf(trace, d.itemId), d)
    ensures PendingError(slots[k].pending, d).None? ==>
              Means(trace + [DeltaEvent(d)], slots[k := Pending(Extend(slots[k].pending, d))], ids, None)
  {
    var ds := DeltasOf(trace, d.itemId);
    SlotIsPlace(trace, k, d.itemId);
    PendingRefuses(ds, d);
    if DeltaError(ds, d).None? {
      PendingExtends(ds, d);
      MeansAfterDelta(trace, slots, ids, d, k);
    }
  }

  /** Folding a delta into a new slot. */
  lemma NewDeltaFolded(trace: seq<Event>, slots: seq<OutputSlot>, ids: map<string, PendingKind>, d: Delta)
    requires Means(trace, slots, ids, None) && d.itemId !in ids
    ensures PendingError(NewPending(d.itemId, KindOf(d)), d).None? && DeltaError(DeltasOf(trace, d.itemId), d).None?
    ensures Means(trace + [DeltaEvent(d)], slots + [Pending(Extend(NewPending(d.itemId, KindOf(d)), d))],
                  ids[d.itemId := KindOf(d)], None)
  {
    PendingExtends([], d);
    assert [] + [d] == [d];
    MeansAfterNewDelta(trace, slots, ids, d);
  }

  lemma ItemHasSlot(trace: seq<Event>, slots: seq<OutputSlot>, ids: map<string, PendingKind>, finished: Option<Event>,
                    key: string)
    returns (k: nat)
    requires Means(trace, slots, ids, finished) && key in ids
    ensures HoldsItem(slots, k, key)
  {
    k := ItemHasPlace(trace, key);
    SlotIsPlace(trace, k, key);
  }

  /** Folding a delta into the slot that was found or made for it. */
  lemma DeltaFolded(trace: seq<Event>, before: seq<OutputSlot>, known: map<string, PendingKind>, d: Delta,
                    slots: seq<OutputSlot>, ids: map<string, PendingKind>, k: nat)
    requires Means(trace, before, known, None)
    requires if d.itemId in known
             then known[d.itemId] == KindOf(d) && slots == before && ids == known && HoldsItem(slots, k, d.itemId)
             else
               && k == |before| && ids == known[d.itemId := KindOf(d)]
               && slots == before + [Pending(NewPending(d.itemId, KindOf(d)))]
    ensures k < |slots| && slots[k].Pending?
    ensures PendingError(slots[k].pending, d) == DeltaError(DeltasOf(trace, d.itemId), d)
    ensures PendingError(slots[k].pending, d).None? ==>
              Means(trace + [DeltaEvent(d)], slots[k := Pending(Extend(slots[k].pending, d))], ids, None)
  {
    if d.itemId in known {
      KnownDeltaFolded(trace, before, known, d, k);
    } else {
      NewDeltaFolded(trace, before, known, d);
      var next := Pending(Extend(NewPending(d.itemId, KindOf(d)), d));
      assert slots[k := next] == before + [next];
    }
  }

  /** The position of the slot that holds an item, known to be there. */
  method SlotOf(slots: seq<OutputSlot>, key: string, ghost found: nat) returns (at: nat)
    requires HoldsItem(slots, found, key)
    ensures HoldsItem(slots, at, key)
  {
    at := 0;
    while !(slots[at].Pending? && slots[at].pending.itemId == key)
      invariant 0 <= at <= found
      decreases found - at
    {
      at := at + 1;
    }
  }

  class ModelStepCollector {
    var slots: seq<OutputSlot>
    var ids: map<string, PendingKind>
    var finished: Option<Event>
    ghost var trace: seq<Event>

    ghost predicate Valid()
      reads this
    {
      Means(trace, slots, ids, finished)
    }

    constructor ()
      ensures Valid() && trace == []
    {
      slots, ids, finished, trace := [], map[], None, [];
    }

    /** The place of an item: found when its id is known, appended when it is new. */
    method PendingSlot(key: string, kind: PendingKind) returns (r: Result<nat, ReducerError>)
      requires Valid()
      modifies this`slots, this`ids
      ensures key in old(ids) ==>
                && slots == old(slots) && ids == old(ids)
                && if ids[key] != kind then r == Err(InconsistentItemId(key))
                   else r.Ok? && HoldsItem(slots, r.value, key)
      ensures key !in old(ids) ==>
                && r == Ok(|old(slots)|) && ids == old(ids)[key := kind]
                && slots == old(slots) + [Pending(NewPending(key, kind))]
    {
      if key in ids {
        if ids[key] != kind {
          return Err(InconsistentItemId(key));
        }
        ghost var found := ItemHasSlot(trace, slots, ids, finished, key);
        var at := SlotOf(slots, key, found);
        return Ok(at);
      }
      ids := ids[key := kind];
      slots := slots + [Pending(NewPending(key, kind))];
      return Ok(|slots| - 1);
    }

    /** Fold one delta into the slot of its item. */
    method PushDelta(d: Delta) returns (r: Result<(), ReducerError>)
      requires Valid() && finished.None?
      modifies this
      ensures var error := DeltaError(DeltasOf(old(trace), d.itemId), d);
              if error.Some? then r == Err(error.value)
              else r == Ok(()) && Valid() && trace == old(trace) + [DeltaEvent(d)]
    {
      ghost var before, known := slots, ids;
      var at := PendingSlot(d.itemId, KindOf(d));
      if at.Err? {
        KnownKindDiffers(trace, before, known, d);
        return Err(at.error);
      }
      var k := at.value;
      DeltaFolded(trace, before, known, d, slots, ids, k);
      r := FoldInto(d, k);
    }

    /** Fold one delta into slot `k`, whose item takes it or refuses it. */
    method FoldInto(d: Delta, k: nat) returns (r: Result<(), ReducerError>)
      requires finished.None? && k < |slots| && slots[k].Pending?
      requires PendingError(slots[k].pending, d).None? ==>
                 Means(trace + [DeltaEvent(d)], slots[k := Pending(Extend(slots[k].pending, d))], ids, None)
      modifies this`slots, this`trace
      ensures var error := PendingError(old(slots)[k].pending, d);
              if error.Some? then r == Err(error.value)
              else r == Ok(()) && Valid() && trace == old(trace) + [DeltaEvent(d)]
    {
      var extended := FoldDelta(slots[k].pending, d);
      if extended.Err? {
        return Err(extended.error);
      }
      slots := slots[k := Pending(extended.value)];
      trace := trace + [DeltaEvent(d)];
      return Ok(());
    }

    /** Push one event: it is refused exactly for the reason the trace gives. */
    method Push(event: Event) returns (r: Result<(), ReducerError>)
      requires Valid()
      modifies this
      ensures var error := PushError(old(trace), event);
              if error.Some? then r == Err(error.value)
              else r == Ok(()) && Valid() && trace == old(trace) + [event]
    {
      if finished.Some? && !event.Finished? {
        return Err(EventAfterFinished);
      }
      match event {
        case DeltaEvent(delta) =>
          r := PushDelta(delta);
          return;
        case ContinuationEvent(continuation) =>
          slots := slots + [Collected(BlockItem(ContinuationBlock(continuation)))];
        case ServerToolEvent(tool) =>
          slots := slots + [Collected(ServerToolEntry(tool))];
        case GroundingEvent(metadata) =>
          slots := slots + [Collected(GroundingEntry(metadata))];
        case UsageEvent(usage) =>
          slots := slots + [UsageSlot(usage)];
        case Finished(_, _) =>
          if finished.Some? {
            return Err(DuplicateFinished);
          }
          finished := Some(event);
      }
      MeansAfterOther(trace, old(slots), ids, event);
      trace := trace + [event];
      return Ok(());
    }

    method Finish(codec: Json.Codec) returns (r: Result<Step, ReducerError>)
      requires Valid()
      ensures r == FinishOf(codec, trace)
    {
      if finished.None? {
        return Err(MissingFinished);
      }
      var modelId := finished.value.modelId;
      var items, usage := [], [];
      for k := 0 to |slots|
        invariant FinishSlots(codec, slots[..k], modelId) == Ok(Lists(items, usage))
      {
        FinishNext(codec, slots, k, modelId, Lists(items, usage));
        match slots[k] {
          case Collected(item) => items := items + [item];
          case UsageSlot(record) => usage := usage + [record];
          case Pending(pending) =>
            var item := FinishPending(codec, pending, modelId);
            if item.Err? {
              FinishStopsAt(codec, slots, k, modelId);
              return Err(item.error);
            }
            items := items + [item.value];
        }
      }
      assert slots[..|slots|] == slots;
      return Ok(Step(finished.value.kind, Output(modelId, items, usage)));
    }
  }

  lemma {:induction false} FinishStopsAt(codec: Json.Codec, slots: seq<OutputSlot>, k: nat, modelId: string)
    requires k < |slots| && FinishSlots(codec, slots[..k + 1], modelId).Err?
    ensures FinishSlots(codec, slots, modelId) == FinishSlots(codec, slots[..k + 1], modelId)
    decreases |slots|
  {
    if k + 1 < |slots| {
      assert Init(slots)[..k + 1] == slots[..k + 1];
      FinishStopsAt(codec, Init(slots), k, modelId);
    } else {
      assert slots[..k + 1] == slots;
    }
  }

  /** A delta changes the deltas of its own item only. */
  lemma DeltaKeepsOthers(trace: seq<Event>, d: Delta)
    ensures forall id :: DeltasOf(trace + [DeltaEvent(d)], id) ==
                         if id == d.itemId then DeltasOf(trace, id) + [d] else DeltasOf(trace, id)
  {
    assert Init(trace + [DeltaEvent(d)]) == trace;
  }

  lemma OthersKeepDeltas(trace: seq<Event>, e: Event)
    requires !e.DeltaEvent?
    ensures forall id :: DeltasOf(trace + [e], id) == DeltasOf(trace, id)
  {
    assert Init(trace + [e]) == trace;
  }

  datatype CollectionError<E> = StreamError(error: E) | ReducerFailed(reducer: ReducerError)

  function OkValues<E>(events: seq<Result<Event, E>>): seq<Event> {
    if events == [] then []
    else OkValues(Init(events)) + if Latest(events).Ok? then [Latest(events).value] else []
  }

  /** The first failure of the stream or of the reducer. */
  function FirstFailure<E>(events: seq<Result<Event, E>>): Option<CollectionError<E>> {
    if events == [] then None
    else if FirstFailure(Init(events)).Some? then FirstFailure(Init(events))
    else
      match Latest(events)
      case Err(e) => Some(StreamError(e))
      case Ok(event) =>
        match PushError(OkValues(Init(events)), event)
        case Some(e) => Some(ReducerFailed(e))
        case None => None
  }

  lemma {:induction false} FirstFailureStays<E>(events: seq<Result<Event, E>>, k: nat)
    requires k <= |events| && FirstFailure(events[..k]).Some?
    ensures FirstFailure(events) == FirstFailure(events[..k])
    decreases |events|
  {
    if k < |events| {
      assert Init(events)[..k] == events[..k];
      FirstFailureStays(Init(events), k);
    } else {
      assert events[..k] == events;
    }
  }

  /** collect_model_step over a stream of provider events, some of which may be errors. */
  method CollectModelStep<E>(codec: Json.Codec, events: seq<Result<Event, E>>)
    returns (r: Result<Step, CollectionError<E>>)
    ensures r == CollectStream(codec, events)
  {
    var collector := new ModelStepCollector();
    for k := 0 to |events|
      invariant collector.Valid()
      invariant FirstFailure(events[..k]).None?
      invariant collector.trace == OkValues(events[..k])
    {
      StreamStep(events, k);
      if events[k].Err? {
        return Err(StreamError(events[k].error));
      }
      var pushed := collector.Push(events[k].value);
      if pushed.Err? {
        return Err(ReducerFailed(pushed.error));
      }
    }
    assert events[..|events|] == events;
    var step := collector.Finish(codec);
    match step {
      case Ok(s) => return Ok(s);
      case Err(e) => return Err(ReducerFailed(e));
    }
  }

  function CollectStream<E>(codec: Json.Codec, events: seq<Result<Event, E>>): Result<Step, CollectionError<E>> {
    match FirstFailure(events)
    case Some(e) => Err(e)
    case None =>
      match FinishOf(codec, OkValues(events))
      case Ok(step) => Ok(step)
      case Err(e) => Err(ReducerFailed(e))
  }

  lemma StreamStep<E>(events: seq<Result<Event, E>>, k: nat)
    requires k < |events| && FirstFailure(events[..k]).None?
    ensures match events[k] {
              case Err(e) => FirstFailure(events) == Some(StreamError(e))
              case Ok(event) =>
                match PushError(OkValues(events[..k]), event) {
                  case Some(e) => FirstFailure(events) == Some(ReducerFailed(e))
                  case None =>
                    FirstFailure(events[..k + 1]).None? && OkValues(events[..k + 1]) == OkValues(events[..k]) + [event]
                }
            }
  {
    assert Init(events[..k + 1]) == events[..k];
    if FirstFailure(events[..k + 1]).Some? {
      FirstFailureStays(events, k + 1);
    }
  }
}
