/** Decoding does not depend on where the transport cuts the byte stream. */
module SseChunking {
  import opened Prelude
  import opened Utf8
  import opened Sse

  /** A blank line that is complete stays the first one, whatever bytes follow. */
  lemma BoundaryStable(a: seq<Byte>, b: seq<Byte>)
    requires FirstBoundary(a, 0).Some?
    ensures FirstBoundary(a + b, 0) == FirstBoundary(a, 0)
  {
    var at := FirstBoundary(a, 0).value;
    assert BoundaryLenAt(a + b, at.index) == BoundaryLenAt(a, at.index);
    forall i | 0 <= i < at.index
      ensures BoundaryLenAt(a + b, i) == 0
    {
      assert BoundaryLenAt(a, i) == 0;
    }
  }

  lemma SplitStep(b: seq<Byte>, at: Boundary, tail: seq<Byte>)
    requires FirstBoundary(b, 0) == Some(at) && tail == b[at.index + at.len..]
    ensures SplitEvents(b) == Split([b[..at.index]] + SplitEvents(tail).segments, SplitEvents(tail).rest)
  {}

  /** Bytes behind a complete event leave it the first one. */
  lemma SplitBehind(a: seq<Byte>, b: seq<Byte>, at: Boundary)
    requires FirstBoundary(a, 0) == Some(at)
    ensures var tail := a[at.index + at.len..] + b;
            SplitEvents(a + b) == Split([a[..at.index]] + SplitEvents(tail).segments, SplitEvents(tail).rest)
  {
    BoundaryStable(a, b);
    assert (a + b)[at.index + at.len..] == a[at.index + at.len..] + b;
    assert (a + b)[..at.index] == a[..at.index];
    SplitStep(a + b, at, a[at.index + at.len..] + b);
  }

  lemma {:induction false} SplitAppend(a: seq<Byte>, b: seq<Byte>)
    ensures SplitEvents(a + b) ==
            Split(SplitEvents(a).segments + SplitEvents(SplitEvents(a).rest + b).segments,
                  SplitEvents(SplitEvents(a).rest + b).rest)
    decreases |a|
  {
    match FirstBoundary(a, 0) {
      case None =>
        assert SplitEvents(a) == Split([], a);
        assert [] + SplitEvents(a + b).segments == SplitEvents(a + b).segments;
      case Some(at) =>
        var tail := a[at.index + at.len..];
        SplitStep(a, at, tail);
        SplitBehind(a, b, at);
        SplitAppend(tail, b);
        Assoc([a[..at.index]], SplitEvents(tail).segments, SplitEvents(SplitEvents(tail).rest + b).segments);
    }
  }

  /** What is left behind the last blank line holds no blank line. */
  lemma {:induction false} RestHasNoBoundary(b: seq<Byte>)
    ensures SplitEvents(SplitEvents(b).rest) == Split([], SplitEvents(b).rest)
    decreases |b|
  {
    match FirstBoundary(b, 0) {
      case None =>
      case Some(at) => RestHasNoBoundary(b[at.index + at.len..]);
    }
  }

  lemma {:induction false} ParseAllAppend(xs: seq<seq<Byte>>, ys: seq<seq<Byte>>)
    ensures ParseAll(xs + ys) ==
            match ParseAll(xs) { case Err(e) => Err(e) case Ok(events) => Onto(events, ParseAll(ys)) }
  {
    if xs == [] {
      assert xs + ys == ys;
    } else {
      assert (xs + ys)[0] == xs[0] && (xs + ys)[1..] == xs[1..] + ys;
      ParseAllAppend(xs[1..], ys);
      if EventOf(xs[0]).Ok? && EventOf(xs[0]).value.Some? && ParseAll(xs[1..]).Ok? {
        OntoOnto([EventOf(xs[0]).value.value], ParseAll(xs[1..]).value, ParseAll(ys));
      }
    }
  }

  /** A remainder counts as one more segment, unless it is empty. */
  function Remainder(rest: seq<Byte>): seq<seq<Byte>> { if rest == [] then [] else [rest] }

  /** Pushing the chunks one after another on top of `buffer`, then finishing. */
  function DecodeCut(buffer: seq<Byte>, chunks: seq<seq<Byte>>): Result<seq<ServerSentEvent>, SseDecodeError>
    decreases |chunks|
  {
    if chunks == [] then ParseAll(Remainder(buffer))
    else
      var s := SplitEvents(buffer + chunks[0]);
      match ParseAll(s.segments)
      case Err(e) => Err(e)
      case Ok(events) => Onto(events, DecodeCut(s.rest, chunks[1..]))
  }

  lemma DecodeFrom(a: seq<Byte>, b: seq<Byte>)
    ensures Decode(a + b) ==
            match ParseAll(SplitEvents(a).segments) {
              case Err(e) => Err(e)
              case Ok(events) => Onto(events, Decode(SplitEvents(a).rest + b))
            }
  {
    SplitAppend(a, b);
    var head, tail := SplitEvents(a).segments, SplitEvents(SplitEvents(a).rest + b);
    Assoc(head, tail.segments, Remainder(tail.rest));
    DecodeAsOneList(a + b);
    DecodeAsOneList(SplitEvents(a).rest + b);
    ParseAllAppend(head, tail.segments + Remainder(tail.rest));
  }

  lemma DecodeAsOneList(b: seq<Byte>)
    ensures Decode(b) == ParseAll(SplitEvents(b).segments + Remainder(SplitEvents(b).rest))
  {
    assert SplitEvents(b).segments + [] == SplitEvents(b).segments;
  }

  /** Every cut of a byte string decodes as the uncut string: same events, same error. */
  lemma {:induction false} DecodeCutIsDecode(buffer: seq<Byte>, chunks: seq<seq<Byte>>)
    requires SplitEvents(buffer).segments == []
    ensures DecodeCut(buffer, chunks) == Decode(buffer + Flatten(chunks))
    decreases |chunks|
  {
    if chunks == [] {
      assert buffer + Flatten(chunks) == buffer;
      DecodeAsOneList(buffer);
      assert [] + Remainder(buffer) == Remainder(buffer);
    } else {
      var ext, more := buffer + chunks[0], Flatten(chunks[1..]);
      Assoc(buffer, chunks[0], more);
      DecodeFrom(ext, more);
      RestHasNoBoundary(ext);
      DecodeCutIsDecode(SplitEvents(ext).rest, chunks[1..]);
    }
  }

  /** Two cuts of the same bytes yield the same events, and one fails exactly when the other does. */
  lemma ChunkingIndependence(cut1: seq<seq<Byte>>, cut2: seq<seq<Byte>>)
    requires Flatten(cut1) == Flatten(cut2)
    ensures DecodeCut([], cut1) == DecodeCut([], cut2)
  {
    EmptyStart(cut1);
    EmptyStart(cut2);
  }

  /** Without an ill-formed segment, the buffer left by pushes is the unterminated tail. */
  lemma {:induction false} UndecodedIsRest(b: seq<Byte>)
    requires ParseAll(SplitEvents(b).segments).Ok?
    ensures Undecoded(b) == SplitEvents(b).rest
    decreases |b|
  {
    match FirstBoundary(b, 0) {
      case None =>
      case Some(at) =>
        var tail := SplitEvents(b[at.index + at.len..]);
        assert ([b[..at.index]] + tail.segments)[1..] == tail.segments;
        UndecodedIsRest(b[at.index + at.len..]);
    }
  }

  /** The buffer after pushing the chunks one after another on top of `buffer`. */
  function LeftAfter(buffer: seq<Byte>, chunks: seq<seq<Byte>>): seq<Byte>
    decreases |chunks|
  {
    if chunks == [] then buffer else LeftAfter(Undecoded(buffer + chunks[0]), chunks[1..])
  }

  /** Every push of the chunks succeeds. */
  predicate AllDecode(buffer: seq<Byte>, chunks: seq<seq<Byte>>)
    decreases |chunks|
  {
    chunks != [] ==>
      && ParseAll(SplitEvents(buffer + chunks[0]).segments).Ok?
      && AllDecode(Undecoded(buffer + chunks[0]), chunks[1..])
  }

  lemma ParseSplit(a: seq<Byte>, b: seq<Byte>)
    ensures ParseAll(SplitEvents(a + b).segments).Ok? <==>
            && ParseAll(SplitEvents(a).segments).Ok?
            && ParseAll(SplitEvents(SplitEvents(a).rest + b).segments).Ok?
    ensures SplitEvents(a + b).rest == SplitEvents(SplitEvents(a).rest + b).rest
  {
    SplitAppend(a, b);
    ParseAllAppend(SplitEvents(a).segments, SplitEvents(SplitEvents(a).rest + b).segments);
  }

  /** Whatever the cut: every push succeeds exactly when the joined bytes have no ill-formed closed
      segment, and then the pushes leave the unterminated tail of the joined bytes. */
  lemma {:induction false} PushesLeaveRest(buffer: seq<Byte>, chunks: seq<seq<Byte>>)
    requires SplitEvents(buffer).segments == []
    ensures AllDecode(buffer, chunks) <==> ParseAll(SplitEvents(buffer + Flatten(chunks)).segments).Ok?
    ensures AllDecode(buffer, chunks) ==> LeftAfter(buffer, chunks) == SplitEvents(buffer + Flatten(chunks)).rest
    decreases |chunks|
  {
    if chunks == [] {
      assert buffer + Flatten(chunks) == buffer;
    } else {
      var ext, more := buffer + chunks[0], Flatten(chunks[1..]);
      Assoc(buffer, chunks[0], more);
      ParseSplit(ext, more);
      if ParseAll(SplitEvents(ext).segments).Ok? {
        UndecodedIsRest(ext);
        RestHasNoBoundary(ext);
        PushesLeaveRest(SplitEvents(ext).rest, chunks[1..]);
      }
    }
  }

  /** The decoder object itself: any cut gives the decoding of the joined bytes. */
  method DecodeChunks(chunks: seq<seq<Byte>>) returns (r: Result<seq<ServerSentEvent>, SseDecodeError>)
    ensures r == Decode(Flatten(chunks))
  {
    var decoder := new SseDecoder();
    var events: seq<ServerSentEvent> := [];
    var k := 0;
    EmptyStart(chunks);
    while k < |chunks|
      invariant 0 <= k <= |chunks|
      invariant Decode(Flatten(chunks)) == Onto(events, DecodeCut(decoder.buffer, chunks[k..]))
    {
      ghost var before := decoder.buffer;
      assert chunks[k..][0] == chunks[k] && chunks[k..][1..] == chunks[k + 1..];
      var pushed := decoder.Push(chunks[k]);
      if pushed.Err? {
        return Err(pushed.error);
      }
      PushStep(before, chunks[k..], decoder.buffer, events);
      events := events + pushed.value;
      k := k + 1;
    }
    assert chunks[k..] == [];
    ghost var left := decoder.buffer;
    var last := decoder.Finish();
    FinishStep(left, events);
    match last {
      case Err(e) => return Err(e);
      case Ok(None) =>
      case Ok(Some(event)) => events := events + [event];
    }
    r := Ok(events);
  }

  lemma PushStep(buffer: seq<Byte>, chunks: seq<seq<Byte>>, left: seq<Byte>, events: seq<ServerSentEvent>)
    requires chunks != [] && ParseAll(SplitEvents(buffer + chunks[0]).segments).Ok?
    requires left == Undecoded(buffer + chunks[0])
    ensures Onto(events, DecodeCut(buffer, chunks)) ==
            Onto(events + ParseAll(SplitEvents(buffer + chunks[0]).segments).value, DecodeCut(left, chunks[1..]))
  {
    UndecodedIsRest(buffer + chunks[0]);
    OntoOnto(events, ParseAll(SplitEvents(buffer + chunks[0]).segments).value, DecodeCut(left, chunks[1..]));
  }

  lemma FinishStep(buffer: seq<Byte>, events: seq<ServerSentEvent>)
    ensures Onto(events, DecodeCut(buffer, [])) ==
            match TrailingEvent(buffer) {
              case Err(e) => Err(e)
              case Ok(None) => Ok(events)
              case Ok(Some(event)) => Ok(events + [event])
            }
  {
    assert events + [] == events;
    if buffer != [] {
      assert [buffer][1..] == [];
      assert ParseAll([buffer][1..]) == Ok([]);
      if EventOf(buffer).Ok? && EventOf(buffer).value.Some? {
        var event := EventOf(buffer).value.value;
        assert [event] + [] == [event];
      }
    }
  }

  lemma EmptyStart(chunks: seq<seq<Byte>>)
    ensures Decode(Flatten(chunks)) == DecodeCut([], chunks)
    ensures chunks[0..] == chunks
  {
    assert SplitEvents([]).segments == [];
    DecodeCutIsDecode([], chunks);
    assert [] + Flatten(chunks) == Flatten(chunks);
  }
}
