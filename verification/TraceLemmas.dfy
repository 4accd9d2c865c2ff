/** How the reading of a trace splits over concatenation. */
module TraceLemmas {
  import opened Prelude
  import opened ModelStep
  import opened Collector
  import opened CollectorSpec
  import Json

  lemma {:induction false} DeltasOfAppend(a: seq<Event>, b: seq<Event>, id: string)
    ensures DeltasOf(a + b, id) == DeltasOf(a, id) + DeltasOf(b, id)
  {
    if b == [] {
      assert a + b == a;
    } else {
      assert Init(a + b) == a + Init(b) && Latest(a + b) == Latest(b);
      DeltasOfAppend(a, Init(b), id);
    }
  }

  /** Items that carry neither text nor a tool call. */
  predicate Silent(item: Item) { item.BlockItem? ==> item.block.ContinuationBlock? }

  /** One more event adds at most one place: an item's, if it is the item's first delta. */
  lemma PlacesStep(a: seq<Event>, b: seq<Event>, e: Event)
    ensures var before, after := PlacesOf(a + b), PlacesOf(a + b + [e]);
            || after == before
            || (after != [] && Init(after) == before
                && (Latest(after).ItemPlace? ==>
                      DeltasOf(a, Latest(after).id) == [] && DeltasOf(b + [e], Latest(after).id) != []))
  {
    assert Init(a + b + [e]) == a + b && Init(b + [e]) == b;
    if e.DeltaEvent? {
      PlacesAreItems(a + b, e.delta.itemId);
      DeltasOfAppend(a, b, e.delta.itemId);
    }
  }

  lemma PlacesMore(a: seq<Event>, b: seq<Event>, e: Event, before: seq<Place>, after: seq<Place>)
    requires forall k :: |PlacesOf(a)| <= k < |before| && before[k].ItemPlace? ==>
               DeltasOf(a, before[k].id) == [] && DeltasOf(b, before[k].id) != []
    requires after == before || (after != [] && Init(after) == before && (Latest(after).ItemPlace? ==>
                                   DeltasOf(a, Latest(after).id) == [] && DeltasOf(b + [e], Latest(after).id) != []))
    ensures forall k :: |PlacesOf(a)| <= k < |after| && after[k].ItemPlace? ==>
              DeltasOf(a, after[k].id) == [] && DeltasOf(b + [e], after[k].id) != []
  {
    forall k | |PlacesOf(a)| <= k < |after| && after[k].ItemPlace?
      ensures DeltasOf(a, after[k].id) == [] && DeltasOf(b + [e], after[k].id) != []
    {
      DeltasOfAppend(b, [e], after[k].id);
      if k < |before| {
        assert after[k] == before[k];
      }
    }
  }

  /** Places a suffix adds: items it starts, and what its other events fill at once. */
  lemma {:induction false} PlacesExtend(a: seq<Event>, b: seq<Event>)
    ensures |PlacesOf(a)| <= |PlacesOf(a + b)|
    ensures PlacesOf(a + b)[..|PlacesOf(a)|] == PlacesOf(a)
    ensures forall k :: |PlacesOf(a)| <= k < |PlacesOf(a + b)| && PlacesOf(a + b)[k].ItemPlace? ==>
              DeltasOf(a, PlacesOf(a + b)[k].id) == [] && DeltasOf(b, PlacesOf(a + b)[k].id) != []
    decreases |b|
  {
    if b == [] {
      assert a + b == a;
      assert PlacesOf(a)[..|PlacesOf(a)|] == PlacesOf(a);
    } else {
      var front, e := Init(b), Latest(b);
      assert b == front + [e] && a + b == a + front + [e];
      PlacesExtend(a, front);
      PlacesStep(a, front, e);
      PlacesMore(a, front, e, PlacesOf(a + front), PlacesOf(a + b));
    }
  }

  lemma {:induction false} ReadyPlacesSilent(trace: seq<Event>)
    ensures forall p :: p in PlacesOf(trace) && p.ReadyPlace? ==> Silent(p.item)
  {
    if trace != [] {
      ReadyPlacesSilent(Init(trace));
    }
  }

  lemma {:induction false} TextOfAppend(a: seq<Item>, b: seq<Item>)
    ensures TextOf(a + b) == TextOf(a) + TextOf(b)
    ensures CallsOf(a + b) == CallsOf(a) + CallsOf(b)
  {
    if a == [] {
      assert a + b == b;
    } else {
      assert (a + b)[0] == a[0] && (a + b)[1..] == a[1..] + b;
      TextOfAppend(a[1..], b);
      Assoc(TextIn(a[0]), TextOf(a[1..]), TextOf(b));
      Assoc(CallsIn(a[0]), CallsOf(a[1..]), CallsOf(b));
    }
  }

  lemma {:induction false} ItemsAtAppend(codec: Json.Codec, trace: seq<Event>, p: seq<Place>, q: seq<Place>,
                                         modelId: string)
    ensures ItemsAt(codec, trace, p + q, modelId) ==
            ItemsAt(codec, trace, p, modelId) + ItemsAt(codec, trace, q, modelId)
  {
    if q == [] {
      assert p + q == p;
    } else {
      assert Init(p + q) == p + Init(q) && Latest(p + q) == Latest(q);
      ItemsAtAppend(codec, trace, p, Init(q), modelId);
    }
  }

  /** A place that yields no text and no call. */
  predicate SilentPlace(trace: seq<Event>, p: Place) {
    match p
    case ItemPlace(id) => DeltasOf(trace, id) != [] ==> Latest(DeltasOf(trace, id)).ReasoningDelta?
    case ReadyPlace(item) => Silent(item)
    case UsagePlace(_) => true
  }

  lemma {:induction false} SilentPlacesSayNothing(codec: Json.Codec, trace: seq<Event>, places: seq<Place>,
                                                  modelId: string)
    requires forall p :: p in places ==> SilentPlace(trace, p)
    ensures TextOf(ItemsAt(codec, trace, places, modelId)) == ""
            && CallsOf(ItemsAt(codec, trace, places, modelId)) == []
  {
    if places != [] {
      SilentPlacesSayNothing(codec, trace, Init(places), modelId);
      assert SilentPlace(trace, Latest(places));
      var last := ItemsAt(codec, trace, places, modelId)[|ItemsAt(codec, trace, Init(places), modelId)|..];
      assert ItemsAt(codec, trace, places, modelId) == ItemsAt(codec, trace, Init(places), modelId) + last;
      TextOfAppend(ItemsAt(codec, trace, Init(places), modelId), last);
    }
  }

  function LastContinuation(trace: seq<Event>): Option<ProviderContinuation> {
    if trace == [] then None
    else if Latest(trace).ContinuationEvent? then Some(Latest(trace).continuation)
    else LastContinuation(Init(trace))
  }

  function ContinuationAt(places: seq<Place>): Option<ProviderContinuation> {
    if places == [] then None
    else
      var p := Latest(places);
      if p.ReadyPlace? && p.item.BlockItem? && p.item.block.ContinuationBlock? then Some(p.item.block.continuation)
      else ContinuationAt(Init(places))
  }

  lemma {:induction false} ContinuationAtPlaces(trace: seq<Event>)
    ensures ContinuationAt(PlacesOf(trace)) == LastContinuation(trace)
  {
    if trace != [] {
      ContinuationAtPlaces(Init(trace));
      if PlacesOf(trace) != PlacesOf(Init(trace)) {
        assert Init(PlacesOf(trace)) == PlacesOf(Init(trace));
      }
    }
  }

  lemma ContinuationOfSnoc(items: seq<Item>, item: Item)
    ensures ContinuationOf(items + [item]) ==
            if item.BlockItem? && item.block.ContinuationBlock? then Some(item.block.continuation)
            else ContinuationOf(items)
  {
    assert (items + [item])[..|items|] == items;
  }

  /** A place that yields an item yields one. */
  lemma OneItemAtMost(codec: Json.Codec, trace: seq<Event>, places: seq<Place>, modelId: string)
    requires places != []
    ensures var before, items := ItemsAt(codec, trace, Init(places), modelId), ItemsAt(codec, trace, places, modelId);
            items == before || (items != [] && items == before + [Latest(items)])
  {}

  lemma {:induction false} ContinuationInItems(codec: Json.Codec, trace: seq<Event>, places: seq<Place>,
                                               modelId: string)
    ensures ContinuationOf(ItemsAt(codec, trace, places, modelId)) == ContinuationAt(places)
  {
    if places != [] {
      ContinuationInItems(codec, trace, Init(places), modelId);
      var before, items := ItemsAt(codec, trace, Init(places), modelId), ItemsAt(codec, trace, places, modelId);
      OneItemAtMost(codec, trace, places, modelId);
      if items != before {
        ContinuationOfSnoc(before, Latest(items));
      }
    }
  }

  /** The continuation of a collected step is the last continuation event of its trace. */
  lemma CollectedContinuation(codec: Json.Codec, trace: seq<Event>)
    requires FinishedLast(trace)
    ensures StepOf(codec, trace).output.Continuation() == LastContinuation(trace)
  {
    ContinuationAtPlaces(trace);
    ContinuationInItems(codec, trace, PlacesOf(trace), Latest(trace).modelId);
  }

  lemma {:induction false} LastContinuationAppend(a: seq<Event>, b: seq<Event>)
    ensures LastContinuation(a + b) == if LastContinuation(b).Some? then LastContinuation(b) else LastContinuation(a)
  {
    if b == [] {
      assert a + b == a;
    } else {
      assert Init(a + b) == a + Init(b) && Latest(a + b) == Latest(b);
      LastContinuationAppend(a, Init(b));
    }
  }

  lemma {:induction false} NoContinuation(trace: seq<Event>)
    requires forall e :: e in trace ==> !e.ContinuationEvent?
    ensures LastContinuation(trace).None?
  {
    if trace != [] {
      NoContinuation(Init(trace));
    }
  }
}
