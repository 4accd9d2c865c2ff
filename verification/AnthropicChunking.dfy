/** When an attempt does not depend on where the transport cuts the body. */
module AnthropicChunking {
  import opened Prelude
  import opened Utf8
  import opened Sse
  import opened SseChunking
  import opened AnthropicStream
  import opened AnthropicAttempt

  /** A body that arrives in these pieces without a transport error. */
  function OkChunks(cut: seq<seq<Byte>>): (chunks: seq<Chunk>)
    ensures |chunks| == |cut| && forall k :: 0 <= k < |cut| ==> chunks[k] == Ok(cut[k])
  {
    seq(|cut|, k requires 0 <= k < |cut| => Ok(cut[k]))
  }

  /** The events decoded before the first ill-formed segment, and its error if there is one. */
  datatype Decoded = Decoded(events: seq<ServerSentEvent>, error: Option<SseDecodeError>)

  function DecodeSegments(segments: seq<seq<Byte>>): Decoded {
    if segments == [] then Decoded([], None)
    else
      match EventOf(segments[0])
      case Err(e) => Decoded([], Some(e))
      case Ok(event) =>
        var rest := DecodeSegments(segments[1..]);
        Decoded((match event case None => [] case Some(ev) => [ev]) + rest.events, rest.error)
  }

  lemma {:induction false} DecodeSegmentsIsParseAll(segments: seq<seq<Byte>>)
    ensures ParseAll(segments) ==
            var d := DecodeSegments(segments); if d.error.Some? then Err(d.error.value) else Ok(d.events)
  {
    if segments != [] {
      DecodeSegmentsIsParseAll(segments[1..]);
      if EventOf(segments[0]) == Ok(None) {
        assert [] + DecodeSegments(segments[1..]).events == DecodeSegments(segments[1..]).events;
      }
    }
  }

  lemma {:induction false} DecodeSegmentsAppend(a: seq<seq<Byte>>, b: seq<seq<Byte>>)
    ensures DecodeSegments(a + b) ==
            var d := DecodeSegments(a);
            if d.error.Some? then d else Decoded(d.events + DecodeSegments(b).events, DecodeSegments(b).error)
  {
    if a == [] {
      assert a + b == b;
      assert [] + DecodeSegments(b).events == DecodeSegments(b).events;
    } else {
      assert (a + b)[0] == a[0] && (a + b)[1..] == a[1..] + b;
      DecodeSegmentsAppend(a[1..], b);
      if EventOf(a[0]).Ok? {
        Assoc(match EventOf(a[0]).value case None => [] case Some(ev) => [ev],
              DecodeSegments(a[1..]).events, DecodeSegments(b).events);
      }
    }
  }

  /** Feed the decoded events; then either the decoding error, or the unterminated tail. */
  function AfterDecoding(src: Source, st: StreamState, d: Decoded, rest: seq<Byte>): Attempted {
    var fed := Feed(src.env, st, src.Wires(d.events));
    if !fed.status.Going? then LastEvents(fed)
    else
      match d.error
      case Some(Utf8Error(n)) => Attempted(fed.events, Broke(Decode(BadUtf8(n))))
      case None => BehindEvents(fed.events, AttemptFrom(src, rest, fed.state, []))
  }

  /** The same attempt, told from the whole body. */
  function WholeFrom(src: Source, st: StreamState, body: seq<Byte>): Attempted {
    AfterDecoding(src, st, DecodeSegments(SplitEvents(body).segments), SplitEvents(body).rest)
  }

  lemma WiresAppend(src: Source, a: seq<ServerSentEvent>, b: seq<ServerSentEvent>)
    ensures src.Wires(a + b) == src.Wires(a) + src.Wires(b)
  {}

  lemma DecodingPeels(src: Source, st: StreamState, d: Decoded, e: Decoded, rest: seq<Byte>)
    requires d.error.None?
    ensures var fed := Feed(src.env, st, src.Wires(d.events));
            AfterDecoding(src, st, Decoded(d.events + e.events, e.error), rest) ==
            if fed.status.Going? then BehindEvents(fed.events, AfterDecoding(src, fed.state, e, rest))
            else LastEvents(fed)
  {
    WiresAppend(src, d.events, e.events);
    FeedAppend(src.env, st, src.Wires(d.events), src.Wires(e.events));
    var fed := Feed(src.env, st, src.Wires(d.events));
    if fed.status.Going? {
      var more := Feed(src.env, fed.state, src.Wires(e.events));
      Assoc(fed.events, more.events, AttemptFrom(src, rest, more.state, []).events);
    }
  }

  /** Peeling the first chunk off the whole body. */
  lemma WholePeels(src: Source, st: StreamState, a: seq<Byte>, b: seq<Byte>)
    ensures var d := DecodeSegments(SplitEvents(a).segments);
            var fed := Feed(src.env, st, src.Wires(d.events));
            WholeFrom(src, st, a + b) ==
            if d.error.Some? then AfterDecoding(src, st, d, [])
            else if !fed.status.Going? then LastEvents(fed)
            else BehindEvents(fed.events, WholeFrom(src, fed.state, SplitEvents(a).rest + b))
  {
    var s, t := SplitEvents(a), SplitEvents(SplitEvents(a).rest + b);
    SplitAppend(a, b);
    DecodeSegmentsAppend(s.segments, t.segments);
    if DecodeSegments(s.segments).error.None? {
      DecodingPeels(src, st, DecodeSegments(s.segments), DecodeSegments(t.segments), t.rest);
    }
  }

  /** Decoding and feeding agree with the whole body, except that a push with an ill-formed
      segment drops the events decoded before it. */
  ghost predicate LosesNothing(src: Source, st: StreamState, body: seq<Byte>) {
    var d := DecodeSegments(SplitEvents(body).segments);
    d.error.Some? ==>
      var fed := Feed(src.env, st, src.Wires(d.events));
      fed.status.Going? && fed.events == []
  }

  lemma {:induction false} AttemptIsWhole(src: Source, buffer: seq<Byte>, st: StreamState, cut: seq<seq<Byte>>)
    requires SplitEvents(buffer).segments == [] && LosesNothing(src, st, buffer + Flatten(cut))
    ensures AttemptFrom(src, buffer, st, OkChunks(cut)) == WholeFrom(src, st, buffer + Flatten(cut))
    decreases |cut|
  {
    if cut == [] {
      assert buffer + Flatten(cut) == buffer;
      RestHasNoBoundary(buffer);
      assert src.Wires([]) == [];
      var out := AttemptFrom(src, buffer, st, []);
      assert [] + out.events == out.events;
    } else {
      var ext, more := buffer + cut[0], Flatten(cut[1..]);
      Assoc(buffer, cut[0], more);
      assert OkChunks(cut)[1..] == OkChunks(cut[1..]);
      WholePeels(src, st, ext, more);
      DecodeSegmentsIsParseAll(SplitEvents(ext).segments);
      RestHasNoBoundary(ext);
      LossesPeel(src, st, ext, more);
      var fed := Feed(src.env, st, src.Wires(DecodeSegments(SplitEvents(ext).segments).events));
      if DecodeSegments(SplitEvents(ext).segments).error.None? && fed.status.Going? {
        AttemptIsWhole(src, SplitEvents(ext).rest, fed.state, cut[1..]);
      }
    }
  }

  lemma LossesPeel(src: Source, st: StreamState, a: seq<Byte>, b: seq<Byte>)
    requires LosesNothing(src, st, a + b)
    ensures LosesNothing(src, st, a)
    ensures var d := DecodeSegments(SplitEvents(a).segments); var fed := Feed(src.env, st, src.Wires(d.events));
            d.error.None? && fed.status.Going? ==> LosesNothing(src, fed.state, SplitEvents(a).rest + b)
  {
    var s, t := SplitEvents(a), SplitEvents(SplitEvents(a).rest + b);
    SplitAppend(a, b);
    DecodeSegmentsAppend(s.segments, t.segments);
    var d, e := DecodeSegments(s.segments), DecodeSegments(t.segments);
    WiresAppend(src, d.events, e.events);
    FeedAppend(src.env, st, src.Wires(d.events), src.Wires(e.events));
  }

  // ---------------------------------------------------------------------------
  // Both directions
  // ---------------------------------------------------------------------------

  lemma DecodeCons(segment: seq<Byte>, segments: seq<seq<Byte>>)
    ensures DecodeSegments([segment] + segments) ==
            match EventOf(segment) {
              case Err(e) => Decoded([], Some(e))
              case Ok(event) =>
                var rest := DecodeSegments(segments);
                Decoded((match event case None => [] case Some(ev) => [ev]) + rest.events, rest.error)
            }
  {
    assert ([segment] + segments)[1..] == segments;
  }

  /** The bytes up to the first ill-formed segment, and from it on. */
  lemma {:induction false} CutBeforeError(body: seq<Byte>) returns (a: seq<Byte>, b: seq<Byte>)
    requires DecodeSegments(SplitEvents(body).segments).error.Some?
    ensures body == a + b && SplitEvents(a).rest == []
    ensures DecodeSegments(SplitEvents(a).segments) == Decoded(DecodeSegments(SplitEvents(body).segments).events, None)
    decreases |body|
  {
    var at := FirstBoundary(body, 0).value;
    var tail := body[at.index + at.len..];
    var head := body[..at.index + at.len];
    SplitStep(body, at, tail);
    DecodeCons(body[..at.index], SplitEvents(tail).segments);
    if EventOf(body[..at.index]).Err? {
      a, b := [], body;
      assert SplitEvents([]) == Split([], []);
    } else {
      var c;
      c, b := CutBeforeError(tail);
      a := head + c;
      assert body == head + tail;
      Assoc(head, c, b);
      HeadIsOneSegment(body, at, c);
      DecodeCons(body[..at.index], SplitEvents(c).segments);
    }
  }

  lemma HeadIsOneSegment(body: seq<Byte>, at: Boundary, c: seq<Byte>)
    requires FirstBoundary(body, 0) == Some(at)
    ensures SplitEvents(body[..at.index + at.len] + c) ==
            Split([body[..at.index]] + SplitEvents(c).segments, SplitEvents(c).rest)
  {
    var head := body[..at.index + at.len];
    assert forall i :: 0 <= i < |head| ==> head[i] == body[i];
    assert BoundaryLenAt(head, at.index) == BoundaryLenAt(body, at.index);
    forall i | 0 <= i < at.index
      ensures BoundaryLenAt(head, i) == 0
    {
      assert BoundaryLenAt(body, i) == 0;
    }
    BoundaryStable(head, c);
    assert (head + c)[at.index + at.len..] == c;
    assert (head + c)[..at.index] == body[..at.index];
    SplitStep(head + c, at, c);
  }

  lemma FlattenOneTwo(a: seq<Byte>, b: seq<Byte>)
    ensures Flatten([a]) == a && Flatten([a, b]) == a + b
  {
    assert [a][1..] == [] && [a, b][1..] == [b] && [b][1..] == [];
    assert Flatten([b]) == b + [] == b;
    assert Flatten([a]) == a + [] == a;
  }

  lemma OneChunk(src: Source, body: seq<Byte>)
    requires DecodeSegments(SplitEvents(body).segments).error.Some?
    ensures Attempt(src, OkChunks([body])).events == []
    ensures Attempt(src, OkChunks([body])).end.Broke? && IsUtf8Error(Attempt(src, OkChunks([body])).end.error)
  {
    assert [] + body == body;
    assert OkChunks([body])[0] == Ok(body);
    DecodeSegmentsIsParseAll(SplitEvents(body).segments);
  }

  lemma FirstChunk(src: Source, a: seq<Byte>, b: seq<Byte>)
    requires DecodeSegments(SplitEvents(a).segments).error.None?
    ensures var fed := Feed(src.env, INITIAL, src.Wires(DecodeSegments(SplitEvents(a).segments).events));
            var out := Attempt(src, OkChunks([a, b]));
            if fed.status.Going? then fed.events <= out.events else out == LastEvents(fed)
  {
    assert [] + a == a;
    assert OkChunks([a, b])[0] == Ok(a);
    DecodeSegmentsIsParseAll(SplitEvents(a).segments);
  }

  /** When something happened before an ill-formed segment, one chunk loses it and two chunks
      do not. */
  lemma CutMatters(src: Source, body: seq<Byte>) returns (a: seq<Byte>, b: seq<Byte>)
    requires !LosesNothing(src, INITIAL, body)
    ensures body == a + b
    ensures Attempt(src, OkChunks([a, b])) != Attempt(src, OkChunks([body]))
  {
    a, b := CutBeforeError(body);
    OneChunk(src, body);
    FirstChunk(src, a, b);
    FeedNeverUtf8(src.env, INITIAL, src.Wires(DecodeSegments(SplitEvents(body).segments).events));
  }

  predicate IsUtf8Error(e: AnthropicError) { e.Decode? && e.reason.BadUtf8? }

  lemma ApplyNeverUtf8(env: Env, st: StreamState, w: Wire)
    ensures Apply(env, st, w).result.Err? ==> !IsUtf8Error(Apply(env, st, w).result.error)
  {}

  lemma {:induction false} FeedNeverUtf8(env: Env, st: StreamState, wires: seq<Wire>)
    ensures Feed(env, st, wires).status.Failed? ==> !IsUtf8Error(Feed(env, st, wires).status.error)
    decreases |wires|
  {
    if wires != [] {
      var applied := Apply(env, st, wires[0]);
      ApplyNeverUtf8(env, st, wires[0]);
      if applied.result.Ok? && !applied.result.value.finished {
        FeedNeverUtf8(env, applied.state, wires[1..]);
      }
    }
  }

  /** An attempt yields the same events and ends the same way in every cut of the body exactly
      when all closed segments are UTF-8, or nothing happened before the first that is not. */
  lemma ChunkingIndependentIff(src: Source, body: seq<Byte>)
    ensures (forall c1, c2 :: Flatten(c1) == body && Flatten(c2) == body ==>
               Attempt(src, OkChunks(c1)) == Attempt(src, OkChunks(c2)))
            <==> LosesNothing(src, INITIAL, body)
  {
    if LosesNothing(src, INITIAL, body) {
      forall c1, c2 | Flatten(c1) == body && Flatten(c2) == body
        ensures Attempt(src, OkChunks(c1)) == Attempt(src, OkChunks(c2))
      {
        assert SplitEvents([]).segments == [] && [] + body == body;
        AttemptIsWhole(src, [], INITIAL, c1);
        AttemptIsWhole(src, [], INITIAL, c2);
      }
    } else {
      var a, b := CutMatters(src, body);
      FlattenOneTwo(a, b);
      FlattenOneTwo(body, []);
      assert Flatten([a, b]) == body && Flatten([body]) == body;
    }
  }
}
