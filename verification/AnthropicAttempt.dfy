/** One response stream, from transport chunks to model-step events: the body of the attempts
    loop in crates/chudbot-anthropic/src/llm.rs. */
module AnthropicAttempt {
  import opened Prelude
  import opened Utf8
  import opened ModelStep
  import opened Sse
  import opened SseChunking
  import opened AnthropicStream
  import opened AnthropicAdapter

  // ---------------------------------------------------------------------------
  // Feeding a list of wire events
  // ---------------------------------------------------------------------------

  datatype Status = Going | Done | Failed(error: AnthropicError)

  datatype Fed = Fed(state: StreamState, events: seq<Event>, status: Status)

  function Feed(env: Env, st: StreamState, wires: seq<Wire>): Fed
    decreases |wires|
  {
    if wires == [] then Fed(st, [], Going)
    else
      var applied := Apply(env, st, wires[0]);
      match applied.result
      case Err(e) => Fed(applied.state, [], Failed(e))
      case Ok(outcome) =>
        if outcome.finished then Fed(applied.state, outcome.events, Done)
        else
          var rest := Feed(env, applied.state, wires[1..]);
          Fed(rest.state, outcome.events + rest.events, rest.status)
  }

  lemma {:induction false} FeedAppend(env: Env, st: StreamState, a: seq<Wire>, b: seq<Wire>)
    ensures var first := Feed(env, st, a);
            Feed(env, st, a + b) ==
            if first.status.Going?
            then var rest := Feed(env, first.state, b); Fed(rest.state, first.events + rest.events, rest.status)
            else first
    decreases |a|
  {
    if a == [] {
      assert a + b == b;
      assert [] + Feed(env, st, b).events == Feed(env, st, b).events;
    } else {
      assert (a + b)[0] == a[0] && (a + b)[1..] == a[1..] + b;
      var applied := Apply(env, st, a[0]);
      if applied.result.Ok? && !applied.result.value.finished {
        FeedAppend(env, applied.state, a[1..], b);
        Assoc(applied.result.value.events, Feed(env, applied.state, a[1..]).events,
              Feed(env, Feed(env, applied.state, a[1..]).state, b).events);
      }
    }
  }

  lemma FeedOne(env: Env, st: StreamState, w: Wire)
    ensures var applied := Apply(env, st, w);
            Feed(env, st, [w]) ==
            match applied.result {
              case Err(e) => Fed(applied.state, [], Failed(e))
              case Ok(outcome) => Fed(applied.state, outcome.events, if outcome.finished then Done else Going)
            }
  {
    var applied := Apply(env, st, w);
    if applied.result.Ok? {
      assert applied.result.value.events + [] == applied.result.value.events;
    }
  }

  /** `text` decodes bytes that are known to be UTF-8. */
  datatype Source = Source(env: Env, text: seq<Byte> -> string)
  {
    function TextOf(event: ServerSentEvent): TextEvent {
      TextEvent(match event.event case Some(name) => Some(text(name)) case None => None, text(event.data))
    }

    function WireOf(event: ServerSentEvent): Wire { Classify(env, TextOf(event)) }

    function Wires(events: seq<ServerSentEvent>): seq<Wire> {
      seq(|events|, i requires 0 <= i < |events| => WireOf(events[i]))
    }
  }

  /** A chunk of the body, or the transport error that ends it. */
  type Chunk = Result<seq<Byte>, string>

  datatype End = Completed | Broke(error: AnthropicError)

  /** What one attempt yields, and how it ends. */
  datatype Attempted = Attempted(events: seq<Event>, end: End)

  function BehindEvents(events: seq<Event>, rest: Attempted): Attempted { rest.(events := events + rest.events) }

  /** Feeding the last events of a body: only message_stop completes it. */
  function LastEvents(fed: Fed): Attempted {
    Attempted(fed.events,
              match fed.status
              case Done => Completed
              case Failed(e) => Broke(e)
              case Going => Broke(Decode(NoMessageStop)))
  }

  function AttemptFrom(src: Source, buffer: seq<Byte>, st: StreamState, chunks: seq<Chunk>): Attempted
    decreases |chunks|
  {
    if chunks == [] then
      match TrailingEvent(buffer)
      case Err(Utf8Error(n)) => Attempted([], Broke(Decode(BadUtf8(n))))
      case Ok(None) => Attempted([], Broke(Decode(NoMessageStop)))
      case Ok(Some(event)) => LastEvents(Feed(src.env, st, [src.WireOf(event)]))
    else
      match chunks[0]
      case Err(message) => Attempted([], Broke(Transport(message)))
      case Ok(bytes) =>
        match ParseAll(SplitEvents(buffer + bytes).segments)
        case Err(Utf8Error(n)) => Attempted([], Broke(Decode(BadUtf8(n))))
        case Ok(events) =>
          var fed := Feed(src.env, st, src.Wires(events));
          if fed.status.Going?
          then BehindEvents(fed.events, AttemptFrom(src, SplitEvents(buffer + bytes).rest, fed.state, chunks[1..]))
          else LastEvents(fed)
  }

  function Attempt(src: Source, chunks: seq<Chunk>): Attempted { AttemptFrom(src, [], INITIAL, chunks) }

  // ---------------------------------------------------------------------------
  // The attempt as it runs
  // ---------------------------------------------------------------------------

  lemma {:induction false} FeedSnoc(env: Env, st: StreamState, wires: seq<Wire>, k: nat)
    requires k < |wires| && Feed(env, st, wires[..k]).status.Going?
    ensures var before := Feed(env, st, wires[..k]); var one := Feed(env, before.state, [wires[k]]);
            && Feed(env, st, wires[..k + 1]) == Fed(one.state, before.events + one.events, one.status)
            && (!one.status.Going? ==> Feed(env, st, wires) == Feed(env, st, wires[..k + 1]))
  {
    assert wires[..k + 1] == wires[..k] + [wires[k]];
    FeedAppend(env, st, wires[..k], [wires[k]]);
    assert wires == wires[..k + 1] + wires[k + 1..];
    FeedAppend(env, st, wires[..k + 1], wires[k + 1..]);
  }

  /** The events of one push, up to the one that finishes or fails. */
  method FeedEvents(src: Source, state: AnthropicStreamState, events: seq<ServerSentEvent>)
    returns (yielded: seq<Event>, status: Status)
    modifies state
    ensures Fed(state.View(), yielded, status) == Feed(src.env, old(state.View()), src.Wires(events))
  {
    ghost var wires, start := src.Wires(events), state.View();
    yielded := [];
    for k := 0 to |events|
      invariant Feed(src.env, start, wires[..k]) == Fed(state.View(), yielded, Going)
    {
      FeedSnoc(src.env, start, wires, k);
      FeedOne(src.env, state.View(), wires[k]);
      var outcome := state.StreamEvent(src.env, src.TextOf(events[k]));
      if outcome.Err? {
        assert yielded + [] == yielded;
        return yielded, Failed(outcome.error);
      }
      yielded := yielded + outcome.value.events;
      if outcome.value.finished {
        return yielded, Done;
      }
    }
    assert wires[..|wires|] == wires;
    return yielded, Going;
  }

  method StreamAttempt(src: Source, chunks: seq<Chunk>) returns (yielded: seq<Event>, end: End)
    ensures Attempted(yielded, end) == Attempt(src, chunks)
  {
    var decoder := new SseDecoder();
    var state := new AnthropicStreamState();
    yielded := [];
    assert chunks[0..] == chunks;
    for k := 0 to |chunks|
      invariant Attempt(src, chunks) ==
                BehindEvents(yielded, AttemptFrom(src, decoder.buffer, state.View(), chunks[k..]))
    {
      ghost var buffer := decoder.buffer;
      assert chunks[k..][0] == chunks[k] && chunks[k..][1..] == chunks[k + 1..];
      assert yielded + [] == yielded;
      if chunks[k].Err? {
        return yielded, Broke(Transport(chunks[k].error));
      }
      var pushed := decoder.Push(chunks[k].value);
      if pushed.Err? {
        return yielded, Broke(Decode(BadUtf8(pushed.error.validUpTo)));
      }
      UndecodedIsRest(buffer + chunks[k].value);
      var more, status := FeedEvents(src, state, pushed.value);
      ghost var rest := AttemptFrom(src, decoder.buffer, state.View(), chunks[k + 1..]);
      Assoc(yielded, more, rest.events);
      yielded := yielded + more;
      match status {
        case Going =>
        case Done => return yielded, Completed;
        case Failed(e) => return yielded, Broke(e);
      }
    }
    assert chunks[|chunks|..] == [];
    assert yielded + [] == yielded;
    var last := decoder.Finish();
    match last {
      case Err(e) => return yielded, Broke(Decode(BadUtf8(e.validUpTo)));
      case Ok(None) => return yielded, Broke(Decode(NoMessageStop));
      case Ok(Some(event)) =>
        assert src.Wires([event]) == [src.WireOf(event)];
        var more, status := FeedEvents(src, state, [event]);
        yielded := yielded + more;
        match status {
          case Going => return yielded, Broke(Decode(NoMessageStop));
          case Done => return yielded, Completed;
          case Failed(e) => return yielded, Broke(e);
        }
    }
  }
}
