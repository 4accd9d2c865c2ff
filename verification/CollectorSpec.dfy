/** When collecting a trace succeeds, what it yields, and which reorderings it does not see. */
module CollectorSpec {
  import opened Prelude
  import opened ModelStep
  import opened Collector
  import Json

  // ---------------------------------------------------------------------------
  // Conditions on the deltas of one item
  // ---------------------------------------------------------------------------

  predicate OneKind(ds: seq<Delta>) {
    forall i, j :: 0 <= i < j < |ds| ==> KindOf(ds[i]) == KindOf(ds[j])
  }

  /** The provider of a reasoning delta, the tool-use id of a tool delta. */
  function Owner(d: Delta): string {
    match d
    case TextDelta(_, _) => ""
    case ReasoningDelta(_, provider, _, _) => provider
    case ToolCallDelta(_, id, _, _) => id
  }

  predicate EmptyThenConstant(ds: seq<Delta>) {
    forall i, j :: 0 <= i < j < |ds| && Owner(ds[i]) != "" ==> Owner(ds[j]) == Owner(ds[i])
  }

  predicate Names(d: Delta, name: string) { d.ToolCallDelta? && d.name == Some(name) }

  ghost predicate NamesAgree(ds: seq<Delta>) {
    forall i, j, n, m :: 0 <= i < |ds| && 0 <= j < |ds| && Names(ds[i], n) && Names(ds[j], m) ==> n == m
  }

  ghost predicate Consistent(ds: seq<Delta>) { OneKind(ds) && EmptyThenConstant(ds) && NamesAgree(ds) }

  /** Some delta of a tool call names the tool, and its arguments are blank or JSON. */
  ghost predicate Complete(codec: Json.Codec, ds: seq<Delta>) {
    (exists d :: d in ds && d.ToolCallDelta?) ==>
      && (exists d, n :: d in ds && Names(d, n))
      && (Json.IsBlank(ArgumentsOf(ds)) || codec.parse(ArgumentsOf(ds)).Some?)
  }

  lemma {:induction false} NameOfIsGiven(ds: seq<Delta>)
    ensures NameOf(ds).Some? ==> exists i :: 0 <= i < |ds| && Names(ds[i], NameOf(ds).value)
    ensures NameOf(ds).None? ==> forall i, n :: 0 <= i < |ds| ==> !Names(ds[i], n)
  {
    if ds != [] {
      NameOfIsGiven(Init(ds));
      if NameOf(ds).Some? {
        if NameOf(Init(ds)).Some? {
          var i :| 0 <= i < |Init(ds)| && Names(Init(ds)[i], NameOf(ds).value);
          assert Names(ds[i], NameOf(ds).value);
        } else {
          assert Names(ds[|ds| - 1], NameOf(ds).value);
        }
      } else {
        assert forall i :: 0 <= i < |ds| - 1 ==> ds[i] == Init(ds)[i];
      }
    }
  }

  /** A delta that fits extends consistent deltas to consistent deltas, and only such a one does. */
  lemma ConsistentSnoc(ds: seq<Delta>, d: Delta)
    requires Consistent(ds)
    ensures Consistent(ds + [d]) <==> DeltaError(ds, d).None?
  {
    var all := ds + [d];
    NameOfIsGiven(ds);
    if ds != [] {
      var last := |ds| - 1;
      assert all[last] == ds[last] && all[|ds|] == d;
      if Consistent(all) {
        assert KindOf(all[last]) == KindOf(all[|ds|]);
        if NameOf(ds).Some? && d.ToolCallDelta? && d.name.Some? {
          var i :| 0 <= i < |ds| && Names(ds[i], NameOf(ds).value);
          assert Names(all[i], NameOf(ds).value) && Names(all[|ds|], d.name.value);
        }
      }
      if DeltaError(ds, d).None? {
        ConsistentExtends(ds, d);
      }
    }
  }

  lemma ConsistentExtends(ds: seq<Delta>, d: Delta)
    requires ds != [] && Consistent(ds) && DeltaError(ds, d).None?
    ensures Consistent(ds + [d])
  {
    var all, last := ds + [d], |ds| - 1;
    forall i, j | 0 <= i < j < |all|
      ensures KindOf(all[i]) == KindOf(all[j])
      ensures Owner(all[i]) != "" ==> Owner(all[j]) == Owner(all[i])
    {
      if j == |ds| && i < last {
        assert KindOf(ds[i]) == KindOf(ds[last]);
        assert Owner(ds[i]) != "" ==> Owner(ds[last]) == Owner(ds[i]);
      }
    }
    NameOfIsGiven(ds);
    forall i, j, n, m | 0 <= i < |all| && 0 <= j < |all| && Names(all[i], n) && Names(all[j], m)
      ensures n == m
    {
      if NameOf(ds).Some? {
        var g :| 0 <= g < |ds| && Names(ds[g], NameOf(ds).value);
        assert i < |ds| ==> n == NameOf(ds).value by { if i < |ds| { assert Names(ds[i], n); } }
        assert j < |ds| ==> m == NameOf(ds).value by { if j < |ds| { assert Names(ds[j], m); } }
      }
    }
  }

  lemma ConsistentInit(ds: seq<Delta>)
    requires ds != [] && Consistent(ds)
    ensures Consistent(Init(ds))
  {
    assert forall i :: 0 <= i < |ds| - 1 ==> Init(ds)[i] == ds[i];
  }

  // ---------------------------------------------------------------------------
  // Acceptance of a whole trace
  // ---------------------------------------------------------------------------

  predicate NoFinished(trace: seq<Event>) { forall e :: e in trace ==> !e.Finished? }

  predicate FinishedLast(trace: seq<Event>) {
    trace != [] && Latest(trace).Finished? && NoFinished(Init(trace))
  }

  ghost predicate ItemsConsistent(trace: seq<Event>) { forall id :: Consistent(DeltasOf(trace, id)) }

  ghost predicate ItemsComplete(codec: Json.Codec, trace: seq<Event>) {
    forall id :: Complete(codec, DeltasOf(trace, id))
  }

  lemma {:induction false} FinishedOfNone(trace: seq<Event>)
    ensures FinishedOf(trace).None? <==> NoFinished(trace)
  {
    if trace != [] {
      FinishedOfNone(Init(trace));
      assert trace == Init(trace) + [Latest(trace)];
    }
  }

  lemma DeltasSnoc(before: seq<Event>, e: Event)
    ensures forall id :: DeltasOf(before + [e], id) ==
                         if e.DeltaEvent? && e.delta.itemId == id then DeltasOf(before, id) + [e.delta]
                         else DeltasOf(before, id)
  {
    if e.DeltaEvent? {
      DeltaKeepsOthers(before, e.delta);
    } else {
      OthersKeepDeltas(before, e);
    }
  }

  lemma ItemsConsistentSnoc(before: seq<Event>, e: Event)
    ensures ItemsConsistent(before + [e]) <==>
              ItemsConsistent(before) && (e.DeltaEvent? ==> DeltaError(DeltasOf(before, e.delta.itemId), e.delta).None?)
  {
    DeltasSnoc(before, e);
    if ItemsConsistent(before + [e]) {
      forall id
        ensures Consistent(DeltasOf(before, id))
      {
        assert Consistent(DeltasOf(before + [e], id));
        if e.DeltaEvent? && e.delta.itemId == id {
          assert Init(DeltasOf(before, id) + [e.delta]) == DeltasOf(before, id);
          ConsistentInit(DeltasOf(before, id) + [e.delta]);
        }
      }
    }
    if ItemsConsistent(before) && e.DeltaEvent? {
      ConsistentSnoc(DeltasOf(before, e.delta.itemId), e.delta);
    }
  }

  /** Pushing succeeds all along iff nothing follows a Finished and every item is consistent. */
  lemma {:induction false} AcceptedIff(trace: seq<Event>)
    ensures Accepted(trace) <==> (trace != [] ==> NoFinished(Init(trace))) && ItemsConsistent(trace)
  {
    if trace == [] {
      assert forall id :: DeltasOf(trace, id) == [];
    } else {
      var before, e := Init(trace), Latest(trace);
      AcceptedIff(before);
      FinishedOfNone(before);
      assert trace == before + [e];
      assert before != [] ==> before == Init(before) + [Latest(before)];
      ItemsConsistentSnoc(before, e);
    }
  }

  lemma {:induction false} FirstErrorIff(trace: seq<Event>)
    ensures FirstError(trace).None? <==> Accepted(trace)
  {
    if trace != [] {
      FirstErrorIff(Init(trace));
    }
  }

  // ---------------------------------------------------------------------------
  // The collected step
  // ---------------------------------------------------------------------------

  /** The finished form of an item whose deltas are consistent and complete. */
  function ItemOf(codec: Json.Codec, ds: seq<Delta>, modelId: string): Item
    requires ds != []
  {
    match Latest(ds)
    case TextDelta(_, _) => BlockItem(TextBlock(TextOfDeltas(ds)))
    case ReasoningDelta(id, provider, _, _) =>
      ReasoningEntry(ReasoningItem(provider, Some(modelId), Some(id), None, SummariesOf(ds)))
    case ToolCallDelta(_, id, _, _) =>
      var name := match NameOf(ds) case Some(n) => n case None => "";
      var input := match codec.parse(ArgumentsOf(ds)) case Some(v) => v case None => Json.Null;
      BlockItem(ToolCallBlock(ClientToolCall(id, name,
        if Json.IsBlank(ArgumentsOf(ds)) then Json.Obj(map[]) else input)))
  }

  function ItemsAt(codec: Json.Codec, trace: seq<Event>, places: seq<Place>, modelId: string): seq<Item> {
    if places == [] then []
    else
      ItemsAt(codec, trace, Init(places), modelId)
      + match Latest(places)
        case ItemPlace(id) =>
          if DeltasOf(trace, id) == [] then [] else [ItemOf(codec, DeltasOf(trace, id), modelId)]
        case ReadyPlace(item) => [item]
        case UsagePlace(_) => []
  }

  function UsagesAt(places: seq<Place>): seq<UsageRecord> {
    if places == [] then []
    else UsagesAt(Init(places)) + if Latest(places).UsagePlace? then [Latest(places).usage] else []
  }

  /** Items by first appearance, each item's deltas put together; usage records in order. */
  function StepOf(codec: Json.Codec, trace: seq<Event>): Step
    requires FinishedLast(trace)
  {
    var end := Latest(trace);
    Step(end.kind, Output(end.modelId, ItemsAt(codec, trace, PlacesOf(trace), end.modelId), UsagesAt(PlacesOf(trace))))
  }

  lemma CompleteFinishes(codec: Json.Codec, ds: seq<Delta>, modelId: string)
    requires ds != [] && Consistent(ds)
    ensures FinishPending(codec, PendingOf(ds), modelId).Ok? <==> Complete(codec, ds)
    ensures Complete(codec, ds) ==> FinishPending(codec, PendingOf(ds), modelId) == Ok(ItemOf(codec, ds, modelId))
  {
    NameOfIsGiven(ds);
    var last := |ds| - 1;
    assert forall i :: 0 <= i < last ==> KindOf(ds[i]) == KindOf(ds[last]);
    if ds[last].ToolCallDelta? {
      assert ds[last] in ds;
      if NameOf(ds).Some? {
        var i :| 0 <= i < |ds| && Names(ds[i], NameOf(ds).value);
        assert ds[i] in ds;
      } else {
        assert forall d, n :: d in ds ==> !Names(d, n);
      }
    } else {
      assert forall d :: d in ds ==> !d.ToolCallDelta?;
    }
  }

  ghost predicate PlacesComplete(codec: Json.Codec, trace: seq<Event>, places: seq<Place>) {
    forall id :: ItemPlace(id) in places ==> Complete(codec, DeltasOf(trace, id))
  }

  /** Finishing slots succeeds iff the items among them are complete. */
  lemma {:induction false} FinishSlotsIff(codec: Json.Codec, trace: seq<Event>, places: seq<Place>,
                                          slots: seq<OutputSlot>, modelId: string)
    requires ItemsConsistent(trace) && |slots| == |places|
    requires forall k :: 0 <= k < |places| ==>
               && (places[k].ItemPlace? ==> DeltasOf(trace, places[k].id) != [])
               && slots[k] == SlotAt(trace, places[k])
    ensures FinishSlots(codec, slots, modelId).Ok? <==> PlacesComplete(codec, trace, places)
    ensures PlacesComplete(codec, trace, places) ==>
              FinishSlots(codec, slots, modelId) == Ok(Lists(ItemsAt(codec, trace, places, modelId), UsagesAt(places)))
    decreases |places|
  {
    if places != [] {
      var last := Latest(places);
      FinishSlotsIff(codec, trace, Init(places), Init(slots), modelId);
      assert places == Init(places) + [last];
      var items, usage := ItemsAt(codec, trace, Init(places), modelId), UsagesAt(Init(places));
      assert items + [] == items && usage + [] == usage;
      if last.ItemPlace? {
        CompleteFinishes(codec, DeltasOf(trace, last.id), modelId);
      }
      assert PlacesComplete(codec, trace, places) <==>
             PlacesComplete(codec, trace, Init(places))
             && (last.ItemPlace? ==> Complete(codec, DeltasOf(trace, last.id)));
    }
  }

  lemma ItemsCompleteIsPlaces(codec: Json.Codec, trace: seq<Event>)
    ensures ItemsComplete(codec, trace) <==> PlacesComplete(codec, trace, PlacesOf(trace))
  {
    forall id
      ensures DeltasOf(trace, id) != [] <==> ItemPlace(id) in PlacesOf(trace)
    {
      PlacesAreItems(trace, id);
    }
  }

  lemma AcceptedAndFinishedIff(trace: seq<Event>)
    ensures FirstError(trace).None? && FinishedOf(trace).Some? <==> FinishedLast(trace) && ItemsConsistent(trace)
    ensures FinishedLast(trace) ==> FinishedOf(trace) == Some(Latest(trace))
  {
    FirstErrorIff(trace);
    AcceptedIff(trace);
    FinishedOfNone(trace);
    if trace != [] {
      assert trace == Init(trace) + [Latest(trace)];
      FinishedOfNone(Init(trace));
    }
  }

  /** Collecting succeeds exactly when there is one Finished, at the end, every item is
      consistent, and every tool call is complete; it then yields the step the trace means. */
  lemma CollectIff(codec: Json.Codec, trace: seq<Event>)
    ensures Collect(codec, trace).Ok? <==>
              FinishedLast(trace) && ItemsConsistent(trace) && ItemsComplete(codec, trace)
    ensures Collect(codec, trace).Ok? ==> Collect(codec, trace).value == StepOf(codec, trace)
  {
    AcceptedAndFinishedIff(trace);
    if FinishedLast(trace) && ItemsConsistent(trace) {
      FinishSlotsIff(codec, trace, PlacesOf(trace), SlotsOf(trace), Latest(trace).modelId);
      ItemsCompleteIsPlaces(codec, trace);
    }
  }

  // ---------------------------------------------------------------------------
  // Reordering
  // ---------------------------------------------------------------------------

  /** `a` and `b` show the same deltas per item, and the same first appearances and other
      events in the same order. */
  ghost predicate SameShape(a: seq<Event>, b: seq<Event>) {
    && PlacesOf(a) == PlacesOf(b)
    && forall id :: DeltasOf(a, id) == DeltasOf(b, id)
  }

  lemma {:induction false} ItemsAtSame(codec: Json.Codec, a: seq<Event>, b: seq<Event>, places: seq<Place>,
                                       modelId: string)
    requires forall id :: DeltasOf(a, id) == DeltasOf(b, id)
    ensures ItemsAt(codec, a, places, modelId) == ItemsAt(codec, b, places, modelId)
  {
    if places != [] {
      ItemsAtSame(codec, a, b, Init(places), modelId);
    }
  }

  /** Interleaving of items is invisible: any trace of the same shape with the same Finished
      last collects to the same step. */
  lemma InterleavingInvariance(codec: Json.Codec, a: seq<Event>, b: seq<Event>)
    requires Collect(codec, a).Ok?
    requires SameShape(a, b) && FinishedLast(b) && Latest(b) == Latest(a)
    ensures Collect(codec, b) == Collect(codec, a)
  {
    CollectIff(codec, a);
    CollectIff(codec, b);
    ItemsAtSame(codec, a, b, PlacesOf(a), Latest(a).modelId);
    assert ItemsConsistent(b) by {
      assert forall id :: Consistent(DeltasOf(a, id));
    }
    assert ItemsComplete(codec, b) by {
      assert forall id :: Complete(codec, DeltasOf(a, id));
    }
  }

  lemma SwappedSameShape(front: seq<Event>, d: Delta, e: Delta)
    requires d.itemId != e.itemId
    requires DeltasOf(front, d.itemId) != [] && DeltasOf(front, e.itemId) != []
    ensures SameShape(front + [DeltaEvent(d), DeltaEvent(e)], front + [DeltaEvent(e), DeltaEvent(d)])
  {
    var a, b := front + [DeltaEvent(d)], front + [DeltaEvent(e)];
    assert front + [DeltaEvent(d), DeltaEvent(e)] == a + [DeltaEvent(e)];
    assert front + [DeltaEvent(e), DeltaEvent(d)] == b + [DeltaEvent(d)];
    DeltaKeepsOthers(front, d);
    DeltaKeepsOthers(front, e);
    DeltaKeepsOthers(a, e);
    DeltaKeepsOthers(b, d);
    PlacesAfterDelta(front, d);
    PlacesAfterDelta(front, e);
    PlacesAfterDelta(a, e);
    PlacesAfterDelta(b, d);
  }

  /** The elementary reordering: neighbouring deltas of two items that both appeared before. */
  lemma NeighboursCommute(codec: Json.Codec, front: seq<Event>, d: Delta, e: Delta, back: seq<Event>)
    requires d.itemId != e.itemId
    requires DeltasOf(front, d.itemId) != [] && DeltasOf(front, e.itemId) != []
    requires Collect(codec, front + [DeltaEvent(d), DeltaEvent(e)] + back).Ok?
    ensures Collect(codec, front + [DeltaEvent(e), DeltaEvent(d)] + back) ==
            Collect(codec, front + [DeltaEvent(d), DeltaEvent(e)] + back)
  {
    var a, b := front + [DeltaEvent(d), DeltaEvent(e)], front + [DeltaEvent(e), DeltaEvent(d)];
    SwappedSameShape(front, d, e);
    SameShapeBehind(a, b, back);
    CollectIff(codec, a + back);
    assert a[|a| - 1] == DeltaEvent(e);
    assert back == [] ==> a + back == a;
    assert Latest(a + back) == Latest(back) == Latest(b + back);
    assert Init(a + back) == a + Init(back) && Init(b + back) == b + Init(back);
    assert NoFinished(Init(b + back)) by {
      assert forall x :: x in b <==> x in a;
    }
    InterleavingInvariance(codec, a + back, b + back);
  }

  lemma {:induction false} SameShapeBehind(a: seq<Event>, b: seq<Event>, back: seq<Event>)
    requires SameShape(a, b)
    ensures SameShape(a + back, b + back)
  {
    if back == [] {
      assert a + back == a && b + back == b;
    } else {
      SameShapeBehind(a, b, Init(back));
      assert Init(a + back) == a + Init(back) && Init(b + back) == b + Init(back);
      assert Latest(a + back) == Latest(b + back) == Latest(back);
    }
  }
}
