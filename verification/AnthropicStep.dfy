/** The attempts loop of `step` in crates/chudbot-anthropic/src/llm.rs, around the retried
    request of crates/chudbot-anthropic/src/lib.rs, against any schedule of failures. */
module AnthropicStep {
  import opened Prelude
  import opened ModelStep
  import opened Retry
  import opened CollectorSpec
  import opened AnthropicStream
  import opened AnthropicAttempt

  /** ClassifyError for AnthropicError. */
  function ClassOf(error: AnthropicError): ErrorClass {
    match error
    case Api(status, _) => if status == 429 || 500 <= status <= 599 then ServerTransient else Permanent
    case Transport(_) => Network
    case Decode(_) => Permanent
    case Reference(_) => Permanent
  }

  /** How the server answers the n-th request, counting from 1: an error before any body, or
      a body of finitely many chunks. */
  type World = nat -> Result<seq<Chunk>, AnthropicError>

  /** What an outside observer sees of a step. */
  datatype Action = Request(body: Value) | Yield(event: Event)

  function Requests(body: Value, n: nat): seq<Action> { seq(n, i => Request(body)) }

  function Yields(events: seq<Event>): (log: seq<Action>)
    ensures |log| == |events| && forall i :: 0 <= i < |log| ==> log[i] == Yield(events[i])
  {
    seq(|events|, i requires 0 <= i < |events| => Yield(events[i]))
  }

  /** What the body that answers request `n` makes of an attempt. */
  type Attempts = nat -> Attempted

  ghost predicate Plays(src: Source, world: World, attempts: Attempts) {
    forall n {:trigger Attempt(src, world(n).value)} :: world(n).Ok? ==> attempts(n) == Attempt(src, world(n).value)
  }

  /** The answer to request `n` leads to another request: a body that breaks with a retryable
      error before anything was yielded, or a retryable error instead of a body. */
  ghost predicate Invisible(policy: RetryPolicy, world: World, attempts: Attempts, n: nat) {
    match world(n)
    case Err(e) => policy.ShouldRetry(ClassOf(e))
    case Ok(_) =>
      && attempts(n).events == [] && attempts(n).end.Broke?
      && policy.ShouldRetry(ClassOf(attempts(n).end.error))
  }

  function ResultOf(end: End): Result<(), AnthropicError> {
    match end case Completed => Ok(()) case Broke(e) => Err(e)
  }

  /** A run in the large: some requests, all with the same body; then, from the answer to the
      last of them alone, the yielded events and the result. */
  datatype Seen = Seen(log: seq<Action>, result: Result<(), AnthropicError>)

  function SeenAfter(world: World, attempts: Attempts, body: Value, requests: nat): Seen {
    match world(requests)
    case Err(e) => Seen(Requests(body, requests), Err(e))
    case Ok(_) => Seen(Requests(body, requests) + Yields(attempts(requests).events), ResultOf(attempts(requests).end))
  }

  /** The world as one retried request sees it behind `sent` earlier requests. */
  function Behind(world: World, sent: nat): Operation<seq<Chunk>, AnthropicError> { (n: nat) => world(sent + n) }

  /** The number of calls one retried request makes. */
  function CallsAfter(policy: RetryPolicy, world: World, sent: nat): (calls: nat)
    ensures calls >= 1
  {
    CallsFrom(policy, Behind(world, sent), ClassOf, 1)
  }

  /** Attempt number `attempt`, whose answer is request `n`, is followed by another. */
  predicate TriesAgain(policy: RetryPolicy, world: World, attempts: Attempts, n: nat, attempt: nat) {
    && world(n).Ok?
    && attempts(n).events == [] && attempts(n).end.Broke?
    && RetriesAfter(policy, attempt, ClassOf(attempts(n).end.error))
  }

  /** The number of the request that a step started at `attempt` ends with. */
  function LastRequest(policy: RetryPolicy, world: World, attempts: Attempts, attempt: nat, sent: nat): nat
    decreases policy.maxAttempts - attempt
  {
    var n := sent + CallsAfter(policy, world, sent);
    if TriesAgain(policy, world, attempts, n, attempt) then LastRequest(policy, world, attempts, attempt + 1, n) else n
  }

  /** The calls that each attempt of a step started at `attempt` makes. */
  function CallCounts(policy: RetryPolicy, world: World, attempts: Attempts, attempt: nat, sent: nat):
    (counts: seq<nat>)
    ensures counts != []
    decreases policy.maxAttempts - attempt
  {
    var calls := CallsAfter(policy, world, sent);
    var n := sent + calls;
    [calls] + if TriesAgain(policy, world, attempts, n, attempt)
              then CallCounts(policy, world, attempts, attempt + 1, n) else []
  }

  /** What is slept between the calls of each attempt, and between attempts. */
  function SleptIn(delay: nat -> nat, counts: seq<nat>, attempt: nat): nat {
    if counts == [] then 0
    else
      Total(delay, if counts[0] == 0 then 0 else counts[0] - 1)
      + if |counts| > 1 then delay(attempt) + SleptIn(delay, counts[1..], attempt + 1) else 0
  }

  function SleptFrom(policy: RetryPolicy, delay: nat -> nat, world: World, attempts: Attempts, attempt: nat,
                     sent: nat): nat
  {
    SleptIn(delay, CallCounts(policy, world, attempts, attempt, sent), attempt)
  }

  lemma SleptUnfolds(policy: RetryPolicy, delay: nat -> nat, world: World, attempts: Attempts, attempt: nat, sent: nat)
    ensures var calls := CallsAfter(policy, world, sent);
            SleptFrom(policy, delay, world, attempts, attempt, sent) ==
            Total(delay, calls - 1)
            + if TriesAgain(policy, world, attempts, sent + calls, attempt)
              then delay(attempt) + SleptFrom(policy, delay, world, attempts, attempt + 1, sent + calls) else 0
  {
    var counts := CallCounts(policy, world, attempts, attempt, sent);
    var n := sent + CallsAfter(policy, world, sent);
    if TriesAgain(policy, world, attempts, n, attempt) {
      assert counts[1..] == CallCounts(policy, world, attempts, attempt + 1, n);
    }
  }

  /** post_json_stream: one request with its own retries, continuing after `sent` earlier ones. */
  method PostJsonStream(policy: RetryPolicy, world: World, sent: nat)
    returns (response: Result<seq<Chunk>, AnthropicError>, calls: nat, slept: nat)
    ensures response == world(sent + calls)
    ensures calls == CallsAfter(policy, world, sent) <= Max(1, policy.maxAttempts)
    ensures slept == Total(policy.Delays(), calls - 1)
  {
    response, calls, slept := WithRetry(policy, Behind(world, sent), ClassOf);
    assert Behind(world, sent)(calls) == world(sent + calls);
  }

  /** One pass of the loop behind the answer to request number `n`: what it yields, whether the
      step is over, and its result. */
  method UseAnswer(src: Source, policy: RetryPolicy, world: World, ghost attempts: Attempts, ghost body: Value, n: nat,
                   attempt: nat)
    returns (yielded: seq<Event>, over: bool, result: Result<(), AnthropicError>, slept: nat)
    requires Plays(src, world, attempts)
    ensures over <==> !TriesAgain(policy, world, attempts, n, attempt)
    ensures over ==> Seen(Requests(body, n) + Yields(yielded), result) == SeenAfter(world, attempts, body, n)
    ensures !over ==> attempt < policy.maxAttempts && yielded == []
    ensures slept == if over then 0 else policy.Backoff(attempt)
  {
    if world(n).Err? {
      assert Requests(body, n) + Yields([]) == Requests(body, n);
      return [], true, Err(world(n).error), 0;
    }
    var end;
    yielded, end := StreamAttempt(src, world(n).value);
    assert attempts(n) == Attempted(yielded, end);
    result := ResultOf(end);
    if end.Completed? || yielded != [] {
      over, slept := true, 0;
    } else {
      var again, next;
      again, next, slept := RetryAfterError(policy, attempt, ClassOf(end.error));
      over := !again;
    }
  }

  /** What is still to come leads to these totals. */
  ghost predicate Leads(policy: RetryPolicy, world: World, attempts: Attempts, attempt: nat, sent: nat, slept: nat,
                        all: (nat, nat))
  {
    all == (LastRequest(policy, world, attempts, attempt, sent),
            slept + SleptFrom(policy, policy.Delays(), world, attempts, attempt, sent))
  }

  lemma LeadsOn(policy: RetryPolicy, world: World, attempts: Attempts, attempt: nat, sent: nat, slept: nat,
                all: (nat, nat), calls: nat, waited: nat, delay: nat, over: bool)
    requires Leads(policy, world, attempts, attempt, sent, slept, all)
    requires calls == CallsAfter(policy, world, sent) && waited == Total(policy.Delays(), calls - 1)
    requires over <==> !TriesAgain(policy, world, attempts, sent + calls, attempt)
    requires delay == if over then 0 else policy.Backoff(attempt)
    ensures over ==> all == (sent + calls, slept + waited + delay)
    ensures !over ==> Leads(policy, world, attempts, attempt + 1, sent + calls, slept + waited + delay, all)
  {
    SleptUnfolds(policy, policy.Delays(), world, attempts, attempt, sent);
  }

  /** One attempt: a retried request, then what its answer leads to. */
  method OneAttempt(src: Source, policy: RetryPolicy, world: World, ghost attempts: Attempts, body: Value, sent: nat,
                    attempt: nat, slept: nat, ghost all: (nat, nat))
    returns (log: seq<Action>, over: bool, result: Result<(), AnthropicError>, sent': nat, slept': nat)
    requires Plays(src, world, attempts) && Leads(policy, world, attempts, attempt, sent, slept, all)
    ensures over ==> Seen(Requests(body, sent) + log, result) == SeenAfter(world, attempts, body, sent')
    ensures over ==> all == (sent', slept')
    ensures !over ==> attempt < policy.maxAttempts && Requests(body, sent) + log == Requests(body, sent')
    ensures !over ==> Leads(policy, world, attempts, attempt + 1, sent', slept', all)
  {
    var response, calls, waited := PostJsonStream(policy, world, sent);
    sent' := sent + calls;
    var yielded, delay;
    yielded, over, result, delay := UseAnswer(src, policy, world, attempts, body, sent', attempt);
    log, slept' := Requests(body, calls) + Yields(yielded), slept + waited + delay;
    LogGrows(body, sent, calls, yielded);
    LeadsOn(policy, world, attempts, attempt, sent, slept, all, calls, waited, delay, over);
  }

  lemma LogGrows(body: Value, sent: nat, calls: nat, yielded: seq<Event>)
    ensures Requests(body, sent) + (Requests(body, calls) + Yields(yielded)) ==
            Requests(body, sent + calls) + Yields(yielded)
    ensures yielded == [] ==> Requests(body, sent + calls) + Yields(yielded) == Requests(body, sent + calls)
  {}

  /** One model step, its requests and yielded events logged as they happen. Building the body
      may fail, and then nothing is sent; otherwise it is built once for all requests. */
  method Step(src: Source, policy: RetryPolicy, built: Result<Value, AnthropicError>, world: World,
              ghost attempts: Attempts)
    returns (log: seq<Action>, result: Result<(), AnthropicError>, requests: nat, slept: nat)
    requires Plays(src, world, attempts)
    ensures built.Err? ==> log == [] && result == Err(built.error) && requests == 0 && slept == 0
    ensures built.Ok? ==>
              && (requests, slept) == TotalsOf(policy, world, attempts)
              && Seen(log, result) == SeenAfter(world, attempts, built.value, requests)
  {
    log, requests, slept := [], 0, 0;
    if built.Err? {
      return log, Err(built.error), requests, slept;
    }
    var body, attempt := built.value, 1;
    ghost var all := TotalsOf(policy, world, attempts);
    while true
      invariant Leads(policy, world, attempts, attempt, requests, slept, all)
      invariant log == Requests(body, requests)
      decreases policy.maxAttempts - attempt
    {
      var more, over;
      more, over, result, requests, slept :=
        OneAttempt(src, policy, world, attempts, body, requests, attempt, slept, all);
      log := log + more;
      if over {
        return;
      }
      attempt := attempt + 1;
    }
  }

  /** The requests of a whole step, and what it sleeps. */
  function TotalsOf(policy: RetryPolicy, world: World, attempts: Attempts): (nat, nat) {
    (LastRequest(policy, world, attempts, 1, 0), SleptFrom(policy, policy.Delays(), world, attempts, 1, 0))
  }

  // ---------------------------------------------------------------------------
  // How many requests, and what the earlier ones did
  // ---------------------------------------------------------------------------

  lemma {:induction false} CallsBound<T, E>(policy: RetryPolicy, op: Operation<T, E>, classOf: E -> ErrorClass, n: nat)
    ensures CallsFrom(policy, op, classOf, n) <= Max(n, policy.maxAttempts)
    decreases policy.maxAttempts - n
  {
    if !Ends(policy, op, classOf, n) {
      CallsBound(policy, op, classOf, n + 1);
    }
  }

  lemma RefusedInvisible(policy: RetryPolicy, world: World, attempts: Attempts, sent: nat)
    ensures forall n :: sent < n < sent + CallsAfter(policy, world, sent) ==> Invisible(policy, world, attempts, n)
  {
    var op := Behind(world, sent);
    forall n | sent < n < sent + CallsAfter(policy, world, sent)
      ensures Invisible(policy, world, attempts, n)
    {
      assert !Ends(policy, op, ClassOf, n - sent);
      assert op(n - sent) == world(n);
    }
  }

  lemma OneMore(left: nat, most: nat)
    ensures (left + 1) * most == left * most + most && left * most >= 0
  {}

  /** The requests are at most the square of the attempts allowed. */
  lemma {:induction false} RequestBound(policy: RetryPolicy, world: World, attempts: Attempts, attempt: nat, sent: nat)
    requires 1 <= attempt <= Max(1, policy.maxAttempts)
    ensures var last := LastRequest(policy, world, attempts, attempt, sent); var most := Max(1, policy.maxAttempts);
            sent < last <= sent + (most + 1 - attempt) * most
    decreases policy.maxAttempts - attempt
  {
    var most, n := Max(1, policy.maxAttempts), sent + CallsAfter(policy, world, sent);
    CallsBound(policy, Behind(world, sent), ClassOf, 1);
    OneMore(most - attempt, most);
    if TriesAgain(policy, world, attempts, n, attempt) {
      RequestBound(policy, world, attempts, attempt + 1, n);
    }
  }

  /** Every request before the last was invisible. */
  lemma {:induction false} EarlierRequests(policy: RetryPolicy, world: World, attempts: Attempts, attempt: nat,
                                           sent: nat)
    ensures forall n :: sent < n < LastRequest(policy, world, attempts, attempt, sent) ==>
              Invisible(policy, world, attempts, n)
    decreases policy.maxAttempts - attempt
  {
    var n := sent + CallsAfter(policy, world, sent);
    RefusedInvisible(policy, world, attempts, sent);
    if TriesAgain(policy, world, attempts, n, attempt) {
      EarlierRequests(policy, world, attempts, attempt + 1, n);
    }
  }

  // ---------------------------------------------------------------------------
  // How long a step sleeps
  // ---------------------------------------------------------------------------

  /** Each attempt makes at least one call, and no more than there may be attempts. */
  lemma {:induction false} CountsBound(policy: RetryPolicy, world: World, attempts: Attempts, attempt: nat, sent: nat)
    requires 1 <= attempt <= Max(1, policy.maxAttempts)
    ensures var counts := CallCounts(policy, world, attempts, attempt, sent);
            && |counts| <= Max(1, policy.maxAttempts) + 1 - attempt
            && forall c :: c in counts ==> 1 <= c <= Max(1, policy.maxAttempts)
    decreases policy.maxAttempts - attempt
  {
    var n := sent + CallsAfter(policy, world, sent);
    CallsBound(policy, Behind(world, sent), ClassOf, 1);
    if TriesAgain(policy, world, attempts, n, attempt) {
      CountsBound(policy, world, attempts, attempt + 1, n);
    }
  }

  /** No attempt sleeps longer than `whole` between its calls. */
  lemma {:induction false} SleepBound(delay: nat -> nat, counts: seq<nat>, attempt: nat, whole: nat)
    requires attempt >= 1 && counts != []
    requires forall c :: c in counts ==> c >= 1 && Total(delay, c - 1) <= whole
    ensures SleptIn(delay, counts, attempt) + Total(delay, attempt - 1) <=
            |counts| * whole + Total(delay, attempt + |counts| - 2)
  {
    assert counts[0] in counts;
    OneMore(|counts| - 1, whole);
    if |counts| > 1 {
      assert forall c :: c in counts[1..] ==> c in counts;
      SleepBound(delay, counts[1..], attempt + 1, whole);
      assert Total(delay, attempt) == Total(delay, attempt - 1) + delay(attempt);
    }
  }

  lemma MoreTimes(a: nat, b: nat, whole: nat)
    requires a <= b
    ensures a * whole <= b * whole
  {}

  /** A step sleeps at most as long as one retried request that always fails sleeps, once for
      each attempt it may make and once more between the attempts. */
  lemma StepSleeps(policy: RetryPolicy, world: World, attempts: Attempts)
    ensures var most := Max(1, policy.maxAttempts);
            SleptFrom(policy, policy.Delays(), world, attempts, 1, 0) <= (most + 1) * Total(policy.Delays(), most - 1)
  {
    CountsBound(policy, world, attempts, 1, 0);
    CountsSleep(policy.Delays(), CallCounts(policy, world, attempts, 1, 0), Max(1, policy.maxAttempts));
  }

  lemma CountsSleep(delay: nat -> nat, counts: seq<nat>, most: nat)
    requires 1 <= |counts| <= most && forall c :: c in counts ==> 1 <= c <= most
    ensures SleptIn(delay, counts, 1) <= (most + 1) * Total(delay, most - 1)
  {
    var whole := Total(delay, most - 1);
    forall c | c in counts
      ensures Total(delay, c - 1) <= whole
    {
      TotalMonotone(delay, c - 1, most - 1);
    }
    SleepBound(delay, counts, 1, whole);
    MoreTimes(|counts|, most, whole);
    TotalMonotone(delay, |counts| - 1, most - 1);
    OneMore(most, whole);
  }

  lemma DefaultBackoff()
    ensures Total(DEFAULT_POLICY.Delays(), 2) == 1500 * MILLI
  {
    assert Pow2(0) == 1 && Pow2(1) == 2;
    assert DEFAULT_POLICY.Backoff(1) == 500 * MILLI && DEFAULT_POLICY.Backoff(2) == 1000 * MILLI;
    assert Total(DEFAULT_POLICY.Delays(), 1) == 500 * MILLI;
  }

  // ---------------------------------------------------------------------------
  // Finished ends an attempt, and nothing else does
  // ---------------------------------------------------------------------------

  lemma EndOf<T>(a: seq<T>, b: seq<T>, c: seq<T>, x: T)
    ensures Init(a + b + (c + [x])) == a + b + c && Latest(a + b + (c + [x])) == x
  {}

  lemma ClosingEndsFinished(env: Env, st: StreamState)
    ensures FinishedLast(TerminalEvents(env, st))
  {
    var content := RawContent(st.blocks);
    var text, reasoning := AsEvents(FallbackText(st, content)), AsEvents(FallbackReasoning(env, st, content));
    var cont := match ContinuationFrom(env, content) case Some(c) => [ContinuationEvent(c)] case None => [];
    var tools := ServerToolEvents(ContentServerTools(env, content));
    var ground := GroundingEvents(ContentGrounding(env, content));
    var closing := cont + tools + ground + UsageEvents(env, st);
    EndOf(text, reasoning, closing, Finished(KindOfContent(st, content), ModelOf(env, st)));
    assert NoFinished(text) && NoFinished(reasoning) && NoFinished(cont) && NoFinished(tools) && NoFinished(ground);
    assert NoFinished(UsageEvents(env, st));
  }

  lemma ApplyFinishes(env: Env, st: StreamState, w: Wire)
    requires Apply(env, st, w).result.Ok?
    ensures var outcome := Apply(env, st, w).result.value;
            if outcome.finished then FinishedLast(outcome.events) else NoFinished(outcome.events)
  {
    if w.MessageStop? {
      ClosingEndsFinished(env, st);
    }
  }

  lemma EndsFinishedBehind(a: seq<Event>, b: seq<Event>)
    requires NoFinished(a) && FinishedLast(b)
    ensures FinishedLast(a + b)
  {
    assert Init(a + b) == a + Init(b) && Latest(a + b) == Latest(b);
  }

  lemma {:induction false} FeedFinishes(env: Env, st: StreamState, wires: seq<Wire>)
    ensures var fed := Feed(env, st, wires);
            if fed.status.Done? then FinishedLast(fed.events) else NoFinished(fed.events)
    decreases |wires|
  {
    if wires != [] {
      var applied := Apply(env, st, wires[0]);
      if applied.result.Ok? {
        ApplyFinishes(env, st, wires[0]);
        if !applied.result.value.finished {
          FeedFinishes(env, applied.state, wires[1..]);
          var rest := Feed(env, applied.state, wires[1..]);
          if rest.status.Done? {
            EndsFinishedBehind(applied.result.value.events, rest.events);
          }
        }
      }
    }
  }

  /** An attempt completes exactly when it yields Finished, which is then the last event and
      the only one of its kind. */
  lemma {:induction false} AttemptFinishes(src: Source, buffer: seq<Utf8.Byte>, st: StreamState, chunks: seq<Chunk>)
    ensures var out := AttemptFrom(src, buffer, st, chunks);
            if out.end.Completed? then FinishedLast(out.events) else NoFinished(out.events)
    decreases |chunks|
  {
    if chunks == [] {
      var trailing := Sse.TrailingEvent(buffer);
      if trailing.Ok? && trailing.value.Some? {
        FeedFinishes(src.env, st, [src.WireOf(trailing.value.value)]);
      }
    } else if chunks[0].Ok? {
      var s := Sse.SplitEvents(buffer + chunks[0].value);
      var parsed := Sse.ParseAll(s.segments);
      if parsed.Ok? {
        var fed := Feed(src.env, st, src.Wires(parsed.value));
        FeedFinishes(src.env, st, src.Wires(parsed.value));
        if fed.status.Going? {
          AttemptFinishes(src, s.rest, fed.state, chunks[1..]);
          var rest := AttemptFrom(src, s.rest, fed.state, chunks[1..]);
          if rest.end.Completed? {
            EndsFinishedBehind(fed.events, rest.events);
          }
        }
      }
    }
  }

  lemma LogShape(body: Value, requests: nat, events: seq<Event>, completed: bool)
    requires if completed then FinishedLast(events) else NoFinished(events)
    ensures var log := Requests(body, requests) + Yields(events);
            && (forall i, j :: 0 <= i < j < |log| && log[i].Yield? ==> log[j].Yield?)
            && (forall i :: 0 <= i < |log| && log[i].Yield? && log[i].event.Finished? ==> i == |log| - 1)
            && (forall i :: 0 <= i < |log| && log[i].Request? ==> log[i].body == body)
            && (completed <==> log != [] && Latest(log).Yield? && Latest(log).event.Finished?)
  {
    var log := Requests(body, requests) + Yields(events);
    assert events != [] ==> Latest(log) == Yield(Latest(events));
    assert forall i :: 0 <= i < |events| - 1 ==> events[i] in Init(events);
  }

  /** Every run of a step: no request follows a yielded event; Finished is yielded exactly on
      success, and then last; all requests carry the same body, and those before the last were
      invisible; with the default policy there are at most nine requests and six seconds of sleep. */
  lemma StepIsSafe(src: Source, policy: RetryPolicy, world: World, attempts: Attempts, body: Value, log: seq<Action>,
                   result: Result<(), AnthropicError>)
    requires Plays(src, world, attempts)
    requires Seen(log, result) == SeenAfter(world, attempts, body, LastRequest(policy, world, attempts, 1, 0))
    ensures forall i, j :: 0 <= i < j < |log| && log[i].Yield? ==> log[j].Yield?
    ensures forall i :: 0 <= i < |log| && log[i].Yield? && log[i].event.Finished? ==> i == |log| - 1
    ensures result.Ok? <==> log != [] && Latest(log).Yield? && Latest(log).event.Finished?
    ensures forall n :: 1 <= n < LastRequest(policy, world, attempts, 1, 0) ==> Invisible(policy, world, attempts, n)
    ensures LastRequest(policy, world, attempts, 1, 0) <= Max(1, policy.maxAttempts) * Max(1, policy.maxAttempts)
    ensures forall i :: 0 <= i < |log| && log[i].Request? ==> log[i].body == body
    ensures policy == DEFAULT_POLICY ==>
              && LastRequest(policy, world, attempts, 1, 0) <= 9
              && SleptFrom(policy, policy.Delays(), world, attempts, 1, 0) <= 6000 * MILLI
    ensures SleptFrom(policy, policy.Delays(), world, attempts, 1, 0) <=
            (Max(1, policy.maxAttempts) + 1) * Total(policy.Delays(), Max(1, policy.maxAttempts) - 1)
  {
    EarlierRequests(policy, world, attempts, 1, 0);
    RequestBound(policy, world, attempts, 1, 0);
    StepSleeps(policy, world, attempts);
    DefaultBackoff();
    ExplainedLog(src, world, attempts, body, LastRequest(policy, world, attempts, 1, 0), log, result);
  }

  lemma ExplainedLog(src: Source, world: World, attempts: Attempts, body: Value, requests: nat, log: seq<Action>,
                     result: Result<(), AnthropicError>)
    requires Plays(src, world, attempts) && Seen(log, result) == SeenAfter(world, attempts, body, requests)
    ensures forall i :: 0 <= i < |log| && log[i].Request? ==> log[i].body == body
    ensures forall i, j :: 0 <= i < j < |log| && log[i].Yield? ==> log[j].Yield?
    ensures forall i :: 0 <= i < |log| && log[i].Yield? && log[i].event.Finished? ==> i == |log| - 1
    ensures result.Ok? <==> log != [] && Latest(log).Yield? && Latest(log).event.Finished?
  {
    match world(requests) {
      case Err(_) =>
        LogShape(body, requests, [], false);
        assert Requests(body, requests) + Yields([]) == Requests(body, requests);
      case Ok(chunks) =>
        AttemptFinishes(src, [], INITIAL, chunks);
        assert attempts(requests) == Attempt(src, chunks);
        LogShape(body, requests, attempts(requests).events, attempts(requests).end.Completed?);
    }
  }
}
