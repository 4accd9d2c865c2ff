/** Which stored blocks the reported server tool uses come from. */
module AnthropicServerTools {
  import opened Prelude
  import opened ModelStep
  import opened AnthropicStream

  // ---------------------------------------------------------------------------
  // Requests and results by their ids
  // ---------------------------------------------------------------------------

  predicate IsRequest(raw: Value) { HasType(raw, "server_tool_use") }

  predicate IsResult(raw: Value) { HasType(raw, "web_search_tool_result") }

  /** The id under which a request waits, or a result looks for one. */
  function KeyOf(raw: Value): Option<string> {
    if IsRequest(raw) then Some(raw.GetStrOr("id", ""))
    else if IsResult(raw) then Some(raw.GetStrOr("tool_use_id", ""))
    else None
  }

  lemma KindsDiffer(raw: Value)
    ensures !(IsRequest(raw) && IsResult(raw))
  {
    assert |"server_tool_use"| == 15 && |"web_search_tool_result"| == 22;
  }

  /** The next block with the same id. */
  function NextAt(blocks: seq<Value>, i: nat): (next: Option<nat>)
    requires i < |blocks|
    ensures next.Some? ==>
              && i < next.value < |blocks| && KeyOf(blocks[next.value]) == KeyOf(blocks[i])
              && forall k :: i < k < next.value ==> KeyOf(blocks[k]) != KeyOf(blocks[i])
    ensures next.None? ==> forall k :: i < k < |blocks| ==> KeyOf(blocks[k]) != KeyOf(blocks[i])
  {
    if i == |blocks| - 1 then None
    else if NextAt(Init(blocks), i).Some? then NextAt(Init(blocks), i)
    else if KeyOf(Latest(blocks)) == KeyOf(blocks[i]) then Some(|blocks| - 1)
    else None
  }

  /** A request and the result that answers it. */
  predicate Answered(blocks: seq<Value>, i: nat) {
    i < |blocks| && IsRequest(blocks[i]) && NextAt(blocks, i).Some? && IsResult(blocks[NextAt(blocks, i).value])
  }

  /** A request whose id another request takes over before any result. */
  predicate Superseded(blocks: seq<Value>, i: nat) {
    i < |blocks| && IsRequest(blocks[i]) && NextAt(blocks, i).Some? && IsRequest(blocks[NextAt(blocks, i).value])
  }

  predicate Open(blocks: seq<Value>, i: nat) { i < |blocks| && IsRequest(blocks[i]) && NextAt(blocks, i).None? }

  /** The open request with this id. */
  function OpenAt(blocks: seq<Value>, id: string): (r: Option<nat>)
    ensures r.Some? ==> Open(blocks, r.value) && KeyOf(blocks[r.value]) == Some(id)
    ensures r.None? ==> forall i :: 0 <= i < |blocks| && Open(blocks, i) ==> KeyOf(blocks[i]) != Some(id)
  {
    if blocks == [] then None
    else if KeyOf(Latest(blocks)) == Some(id) then if IsRequest(Latest(blocks)) then Some(|blocks| - 1) else None
    else OpenAt(Init(blocks), id)
  }

  lemma OpenIsOne(blocks: seq<Value>, i: nat, j: nat)
    requires Open(blocks, i) && Open(blocks, j) && KeyOf(blocks[i]) == KeyOf(blocks[j])
    ensures i == j
  {}

  // ---------------------------------------------------------------------------
  // Where a reported use comes from
  // ---------------------------------------------------------------------------

  /** Positions of the blocks a use reports. */
  datatype Origin = Paired(request: nat, response: nat) | Orphan(response: nat) | Unanswered(request: nat)

  /** A result with the request it answers, a result that answers none, or an open request. */
  predicate Sound(blocks: seq<Value>, o: Origin) {
    match o
    case Paired(i, j) => Answered(blocks, i) && NextAt(blocks, i) == Some(j)
    case Orphan(j) => j < |blocks| && IsResult(blocks[j]) && forall i :: 0 <= i < j ==> !Answers(blocks, i, j)
    case Unanswered(i) => Open(blocks, i)
  }

  predicate Answers(blocks: seq<Value>, i: nat, j: nat) { Answered(blocks, i) && NextAt(blocks, i) == Some(j) }

  function UseOf(env: Env, blocks: seq<Value>, o: Origin): ServerToolUse
    requires Sound(blocks, o)
  {
    match o
    case Paired(i, j) => PairedUse(env, blocks[i], blocks[j])
    case Orphan(j) => OrphanUse(env, blocks[j])
    case Unanswered(i) => RequestUse(env, blocks[i])
  }

  predicate Reports(o: Origin, i: nat) {
    match o
    case Paired(request, response) => i == request || i == response
    case Orphan(response) => i == response
    case Unanswered(request) => i == request
  }

  /** How many uses report the block at position `i`. */
  function Times(os: seq<Origin>, i: nat): nat {
    if os == [] then 0 else Times(Init(os), i) + if Reports(Latest(os), i) then 1 else 0
  }

  lemma {:induction false} TimesAppend(a: seq<Origin>, b: seq<Origin>, i: nat)
    ensures Times(a + b, i) == Times(a, i) + Times(b, i)
  {
    if b == [] {
      assert a + b == a;
    } else {
      assert Init(a + b) == a + Init(b);
      TimesAppend(a, Init(b), i);
    }
  }

  ghost predicate Made(env: Env, blocks: seq<Value>, uses: seq<ServerToolUse>, os: seq<Origin>) {
    |uses| == |os| && forall k :: 0 <= k < |os| ==> Sound(blocks, os[k]) && uses[k] == UseOf(env, blocks, os[k])
  }

  /** Every result and every request that was not superseded is reported by exactly one use, and
      nothing else by any. */
  ghost predicate ReportedOnce(env: Env, blocks: seq<Value>, uses: seq<ServerToolUse>) {
    exists os ::
      && Made(env, blocks, uses, os)
      && forall i: nat :: i < |blocks| ==>
           Times(os, i) == if IsResult(blocks[i]) || (IsRequest(blocks[i]) && !Superseded(blocks, i)) then 1 else 0
  }

  // ---------------------------------------------------------------------------
  // One more block
  // ---------------------------------------------------------------------------

  lemma NextSnoc(before: seq<Value>, raw: Value, i: nat)
    requires i < |before|
    ensures NextAt(before + [raw], i) ==
            if NextAt(before, i).Some? then NextAt(before, i)
            else if KeyOf(raw) == KeyOf(before[i]) then Some(|before|) else None
  {
    assert Init(before + [raw]) == before;
  }

  /** What a further block does to an earlier request. */
  lemma FateSnoc(before: seq<Value>, raw: Value, i: nat)
    requires i < |before|
    ensures Answered(before + [raw], i) <==>
              Answered(before, i) || (Open(before, i) && IsResult(raw) && KeyOf(raw) == KeyOf(before[i]))
    ensures Superseded(before + [raw], i) <==>
              Superseded(before, i) || (Open(before, i) && IsRequest(raw) && KeyOf(raw) == KeyOf(before[i]))
    ensures Open(before + [raw], i) <==> Open(before, i) && KeyOf(raw) != KeyOf(before[i])
  {
    NextSnoc(before, raw, i);
  }

  lemma OpenSnoc(before: seq<Value>, raw: Value, id: string)
    ensures OpenAt(before + [raw], id) ==
            if KeyOf(raw) == Some(id) then if IsRequest(raw) then Some(|before|) else None else OpenAt(before, id)
  {
    assert Init(before + [raw]) == before;
  }

  lemma AnswersSnoc(before: seq<Value>, raw: Value, i: nat, j: nat)
    requires i < |before| && j < |before|
    ensures Answers(before + [raw], i, j) <==> Answers(before, i, j)
  {
    NextSnoc(before, raw, i);
  }

  /** Uses made of results stay what they are. */
  lemma SoundSnoc(env: Env, before: seq<Value>, raw: Value, o: Origin)
    requires Sound(before, o) && !o.Unanswered?
    ensures Sound(before + [raw], o) && UseOf(env, before + [raw], o) == UseOf(env, before, o)
  {
    match o {
      case Paired(i, j) => AnswersSnoc(before, raw, i, j);
      case Orphan(j) =>
        forall i | 0 <= i < j
          ensures !Answers(before + [raw], i, j)
        {
          AnswersSnoc(before, raw, i, j);
        }
    }
  }

  // ---------------------------------------------------------------------------
  // Results, in block order
  // ---------------------------------------------------------------------------

  function ResultOrigin(before: seq<Value>, raw: Value): seq<Origin> {
    if !IsResult(raw) then []
    else
      match OpenAt(before, KeyOf(raw).value)
      case Some(i) => [Paired(i, |before|)]
      case None => [Orphan(|before|)]
  }

  function ResultOrigins(blocks: seq<Value>): seq<Origin> {
    if blocks == [] then [] else ResultOrigins(Init(blocks)) + ResultOrigin(Init(blocks), Latest(blocks))
  }

  /** The uses made of the results so far, and the requests that wait. */
  ghost predicate Follows(env: Env, blocks: seq<Value>, s: ServerTools) {
    && Made(env, blocks, s.uses, ResultOrigins(blocks))
    && (forall o :: o in ResultOrigins(blocks) ==> !o.Unanswered?)
    && Waits(blocks, s.waiting)
  }

  predicate WaitsAt(blocks: seq<Value>, waiting: map<string, Value>, id: string) {
    match OpenAt(blocks, id)
    case Some(i) => id in waiting && waiting[id] == blocks[i]
    case None => id !in waiting
  }

  ghost predicate Waits(blocks: seq<Value>, waiting: map<string, Value>) { forall id :: WaitsAt(blocks, waiting, id) }

  lemma ResultIsSound(before: seq<Value>, raw: Value)
    requires IsResult(raw)
    ensures Sound(before + [raw], ResultOrigin(before, raw)[0])
  {
    var all, j := before + [raw], |before|;
    KindsDiffer(raw);
    match OpenAt(before, KeyOf(raw).value) {
      case Some(i) => NextSnoc(before, raw, i);
      case None =>
        forall i | 0 <= i < j
          ensures !Answers(all, i, j)
        {
          FateSnoc(before, raw, i);
          NextSnoc(before, raw, i);
        }
    }
  }

  lemma WaitsSnoc(env: Env, before: seq<Value>, raw: Value, s: ServerTools)
    requires Waits(before, s.waiting)
    ensures Waits(before + [raw], ServerToolStep(env, s, raw).waiting)
  {
    KindsDiffer(raw);
    var waiting := ServerToolStep(env, s, raw).waiting;
    forall id
      ensures WaitsAt(before + [raw], waiting, id)
    {
      OpenSnoc(before, raw, id);
      assert WaitsAt(before, s.waiting, id);
    }
  }

  lemma MadeSnoc(env: Env, before: seq<Value>, raw: Value, uses: seq<ServerToolUse>, os: seq<Origin>)
    requires Made(env, before, uses, os) && forall o :: o in os ==> !o.Unanswered?
    ensures Made(env, before + [raw], uses, os)
  {
    forall k | 0 <= k < |os|
      ensures Sound(before + [raw], os[k]) && uses[k] == UseOf(env, before + [raw], os[k])
    {
      assert os[k] in os;
      SoundSnoc(env, before, raw, os[k]);
    }
  }

  lemma MadeOne(env: Env, before: seq<Value>, raw: Value, s: ServerTools)
    requires Waits(before, s.waiting) && IsResult(raw)
    ensures Sound(before + [raw], ResultOrigin(before, raw)[0])
    ensures ServerToolStep(env, s, raw).uses == s.uses + [UseOf(env, before + [raw], ResultOrigin(before, raw)[0])]
  {
    KindsDiffer(raw);
    ResultIsSound(before, raw);
    assert WaitsAt(before, s.waiting, KeyOf(raw).value);
  }

  lemma {:induction false} StateFollows(env: Env, blocks: seq<Value>)
    ensures Follows(env, blocks, ServerToolsIn(env, blocks))
  {
    if blocks != [] {
      var before, raw := Init(blocks), Latest(blocks);
      var s := ServerToolsIn(env, before);
      assert blocks == before + [raw];
      StateFollows(env, before);
      WaitsSnoc(env, before, raw, s);
      MadeSnoc(env, before, raw, s.uses, ResultOrigins(before));
      if IsResult(raw) {
        MadeOne(env, before, raw, s);
      }
    }
  }

  /** Results are reported once, and a request once as soon as it is answered. */
  predicate TimesOk(blocks: seq<Value>, i: nat) {
    Times(ResultOrigins(blocks), i) == if i < |blocks| && (IsResult(blocks[i]) || Answered(blocks, i)) then 1 else 0
  }

  lemma {:induction false} ResultTimes(blocks: seq<Value>, i: nat)
    ensures TimesOk(blocks, i)
  {
    if blocks != [] {
      var before, raw := Init(blocks), Latest(blocks);
      assert blocks == before + [raw];
      ResultTimes(before, i);
      TimesAppend(ResultOrigins(before), ResultOrigin(before, raw), i);
      KindsDiffer(blocks[if i < |blocks| then i else 0]);
      ResultTime(before, raw, i);
      if i < |before| {
        FateSnoc(before, raw, i);
      }
    }
  }

  /** What the last block adds to the count of position `i`. */
  lemma ResultTime(before: seq<Value>, raw: Value, i: nat)
    ensures Times(ResultOrigin(before, raw), i) ==
            if IsResult(raw) && (i == |before| || OpenAt(before, KeyOf(raw).value) == Some(i)) then 1 else 0
  {
    var os := ResultOrigin(before, raw);
    if os != [] {
      assert Init(os) == [] && Latest(os) == os[0];
    }
  }

  // ---------------------------------------------------------------------------
  // Requests without a result, in any order of their ids
  // ---------------------------------------------------------------------------

  function OpenOrigin(blocks: seq<Value>, id: string): seq<Origin> {
    match OpenAt(blocks, id) case Some(i) => [Unanswered(i)] case None => []
  }

  function OpenOrigins(blocks: seq<Value>, ids: seq<string>): seq<Origin> {
    if ids == [] then [] else OpenOrigins(blocks, Init(ids)) + OpenOrigin(blocks, Latest(ids))
  }

  lemma {:induction false} OpenMade(env: Env, blocks: seq<Value>, waiting: map<string, Value>, ids: seq<string>)
    requires Waits(blocks, waiting)
    ensures Made(env, blocks, RequestUses(env, waiting, ids), OpenOrigins(blocks, ids))
  {
    if ids != [] {
      OpenMade(env, blocks, waiting, Init(ids));
      assert WaitsAt(blocks, waiting, Latest(ids));
    }
  }

  lemma {:induction false} OpenTimes(blocks: seq<Value>, ids: seq<string>, i: nat)
    ensures Times(OpenOrigins(blocks, ids), i) ==
            if Open(blocks, i) then multiset(ids)[KeyOf(blocks[i]).value] else 0
  {
    if ids != [] {
      var front, id := Init(ids), Latest(ids);
      assert ids == front + [id];
      OpenTimes(blocks, front, i);
      TimesAppend(OpenOrigins(blocks, front), OpenOrigin(blocks, id), i);
      OpenTime(blocks, id, i);
    }
  }

  lemma OpenTime(blocks: seq<Value>, id: string, i: nat)
    ensures Times(OpenOrigin(blocks, id), i) == if Open(blocks, i) && KeyOf(blocks[i]) == Some(id) then 1 else 0
  {
    var os := OpenOrigin(blocks, id);
    if os != [] {
      assert Init(os) == [] && Latest(os) == os[0];
    }
    if Open(blocks, i) && OpenAt(blocks, id).Some? && KeyOf(blocks[i]) == Some(id) {
      OpenIsOne(blocks, i, OpenAt(blocks, id).value);
    }
  }

  // ---------------------------------------------------------------------------
  // The account
  // ---------------------------------------------------------------------------

  lemma MadeAppend(env: Env, blocks: seq<Value>, a: seq<ServerToolUse>, x: seq<Origin>,
                   b: seq<ServerToolUse>, y: seq<Origin>)
    requires Made(env, blocks, a, x) && Made(env, blocks, b, y)
    ensures Made(env, blocks, a + b, x + y)
  {
    forall k | 0 <= k < |x + y|
      ensures Sound(blocks, (x + y)[k]) && (a + b)[k] == UseOf(env, blocks, (x + y)[k])
    {
      assert (x + y)[k] == if k < |x| then x[k] else y[k - |x|];
    }
  }

  /** An open request is listed once. */
  lemma ListedTimes(blocks: seq<Value>, waiting: map<string, Value>, order: seq<string>, i: nat)
    requires Waits(blocks, waiting) && ListsOnce(order, waiting.Keys)
    ensures Times(OpenOrigins(blocks, order), i) == if Open(blocks, i) then 1 else 0
  {
    OpenTimes(blocks, order, i);
    if Open(blocks, i) {
      var id := KeyOf(blocks[i]).value;
      assert WaitsAt(blocks, waiting, id);
      assert id in waiting.Keys;
    }
  }

  /** Of all stored blocks, in any iteration order of the hash map: every result is reported by
      exactly one use, with the request it answers if there is one; every other request by exactly
      one use, unless a second request took over its id; and no use reports anything else. */
  lemma ServerToolsReported(env: Env, blocks: seq<Value>)
    requires env.Lawful()
    ensures ReportedOnce(env, blocks, ContentServerTools(env, blocks))
  {
    var s := ServerToolsIn(env, blocks);
    var order := env.hashOrder(s.waiting);
    var results, open := ResultOrigins(blocks), OpenOrigins(blocks, order);
    StateFollows(env, blocks);
    OpenMade(env, blocks, s.waiting, order);
    MadeAppend(env, blocks, s.uses, results, RequestUses(env, s.waiting, order), open);
    forall i: nat | i < |blocks|
      ensures Times(results + open, i) ==
              if IsResult(blocks[i]) || (IsRequest(blocks[i]) && !Superseded(blocks, i)) then 1 else 0
    {
      TimesAppend(results, open, i);
      ResultTimes(blocks, i);
      ListedTimes(blocks, s.waiting, order, i);
      KindsDiffer(blocks[i]);
      FateIsOne(blocks, i);
    }
  }

  /** A request is open, answered or superseded. */
  lemma FateIsOne(blocks: seq<Value>, i: nat)
    requires i < |blocks|
    ensures IsRequest(blocks[i]) <==> Open(blocks, i) || Answered(blocks, i) || Superseded(blocks, i)
    ensures !(Open(blocks, i) && Answered(blocks, i)) && !(Open(blocks, i) && Superseded(blocks, i))
    ensures !(Answered(blocks, i) && Superseded(blocks, i))
  {
    if NextAt(blocks, i).Some? {
      KindsDiffer(blocks[NextAt(blocks, i).value]);
    }
  }

  /** A request is lost when another one with its id follows at once. */
  lemma SecondRequestWins(env: Env, first: Value, second: Value)
    requires env.Lawful() && IsRequest(first) && IsRequest(second) && KeyOf(first) == KeyOf(second)
    ensures Superseded([first, second], 0)
    ensures ContentServerTools(env, [first, second]) == [RequestUse(env, second)]
  {
    var blocks, id := [first, second], KeyOf(first).value;
    assert Init(blocks) == [first] && Init([first]) == [] && Latest(blocks) == second;
    KindsDiffer(first);
    KindsDiffer(second);
    var waiting := map[id := second];
    assert ServerToolsIn(env, [first]) == ServerTools(map[id := first], []);
    assert map[id := first][id := second] == waiting;
    OneListed(env.hashOrder(waiting), id);
    assert Init([id]) == [] && RequestUses(env, waiting, [id]) == [RequestUse(env, second)];
  }

  lemma OneListed(order: seq<string>, id: string)
    requires ListsOnce(order, {id})
    ensures order == [id]
  {
    assert |multiset(order)| == |multiset({id})| == 1;
    assert order[0] in multiset(order);
  }
}
