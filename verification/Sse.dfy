/** The incremental Server-Sent Events decoder of crates/chudbot-api/src/sse.rs. */
module Sse {
  import opened Prelude
  import opened Utf8

  datatype ServerSentEvent = ServerSentEvent(event: Option<seq<Byte>>, data: seq<Byte>)

  /** std::str::Utf8Error: where the first ill-formed character starts. */
  datatype SseDecodeError = Utf8Error(validUpTo: nat)

  // ---------------------------------------------------------------------------
  // Event boundaries
  // ---------------------------------------------------------------------------

  datatype Boundary = Boundary(index: nat, len: nat)

  /** Length of the blank line starting at `i`: 2 for LF LF, 4 for CR LF CR LF, else 0. */
  function BoundaryLenAt(b: seq<Byte>, i: nat): (n: nat)
    ensures n == 0 || (n in {2, 4} && i + n <= |b|)
  {
    if i + 2 <= |b| && b[i] == LF && b[i + 1] == LF then 2
    else if i + 4 <= |b| && b[i] == CR && b[i + 1] == LF && b[i + 2] == CR && b[i + 3] == LF then 4
    else 0
  }

  function FirstBoundary(b: seq<Byte>, from: nat): (r: Option<Boundary>)
    requires from <= |b|
    ensures r.None? ==> forall i :: from <= i < |b| ==> BoundaryLenAt(b, i) == 0
    ensures r.Some? ==>
              && from <= r.value.index < r.value.index + r.value.len <= |b|
              && BoundaryLenAt(b, r.value.index) == r.value.len
              && forall i :: from <= i < r.value.index ==> BoundaryLenAt(b, i) == 0
    decreases |b| - from
  {
    if from == |b| then None
    else if BoundaryLenAt(b, from) > 0 then Some(Boundary(from, BoundaryLenAt(b, from)))
    else FirstBoundary(b, from + 1)
  }

  method FindEventBoundary(buffer: seq<Byte>) returns (r: Option<Boundary>)
    ensures r == FirstBoundary(buffer, 0)
  {
    var index := 0;
    while index < |buffer|
      invariant index <= |buffer|
      invariant FirstBoundary(buffer, 0) == FirstBoundary(buffer, index)
    {
      if index + 2 <= |buffer| && buffer[index..index + 2] == [LF, LF] {
        return Some(Boundary(index, 2));
      }
      if index + 4 <= |buffer| && buffer[index..index + 4] == [CR, LF, CR, LF] {
        var window := buffer[index..index + 4];
        assert window[0] == CR && window[1] == LF && window[2] == CR && window[3] == LF;
        return Some(Boundary(index, 4));
      }
      index := index + 1;
    }
    return None;
  }

  // ---------------------------------------------------------------------------
  // Lines and fields of one event
  // ---------------------------------------------------------------------------

  /** Index of the first `c` in `s`, or |s|. */
  function Find(s: seq<Byte>, c: Byte): (n: nat)
    ensures n <= |s|
    ensures n < |s| ==> s[n] == c
    ensures forall k :: 0 <= k < n ==> s[k] != c
  {
    if s == [] || s[0] == c then 0 else 1 + Find(s[1..], c)
  }

  function StripCr(s: seq<Byte>): (r: seq<Byte>)
    ensures forall b :: b in r ==> b in s
  {
    if s != [] && s[|s| - 1] == CR then s[..|s| - 1] else s
  }

  /** str::lines: an LF ends a line and takes one CR before it along; a last line
      without LF keeps its CR, and nothing follows a final LF. */
  function Lines(text: seq<Byte>): (lines: seq<seq<Byte>>)
    ensures forall l :: l in lines ==> LF !in l
    decreases |text|
  {
    var n := Find(text, LF);
    if text == [] then []
    else if n == |text| then [text]
    else [StripCr(text[..n])] + Lines(text[n + 1..])
  }

  const EVENT: seq<Byte> := [101, 118, 101, 110, 116]
  const DATA: seq<Byte> := [100, 97, 116, 97]
  const COLON: Byte := 58
  const SPACE: Byte := 32

  function FieldName(line: seq<Byte>): seq<Byte> { line[..Find(line, COLON)] }

  function FieldValue(line: seq<Byte>): seq<Byte> {
    var n := Find(line, COLON);
    if n == |line| then []
    else if n + 1 < |line| && line[n + 1] == SPACE then line[n + 2..]
    else line[n + 1..]
  }

  /** The value one raw line gives to field `name`, if any: comments and other fields give none. */
  function ValueIn(raw: seq<Byte>, name: seq<Byte>): seq<seq<Byte>> {
    var line := StripCr(raw);
    if line != [] && line[0] != COLON && FieldName(line) == name then [FieldValue(line)] else []
  }

  /** The values the raw lines give to field `name`, in order. */
  function Values(lines: seq<seq<Byte>>, name: seq<Byte>): seq<seq<Byte>> {
    if lines == [] then [] else ValueIn(lines[0], name) + Values(lines[1..], name)
  }

  function Join(parts: seq<seq<Byte>>): seq<Byte> {
    if parts == [] then []
    else if |parts| == 1 then parts[0]
    else parts[0] + [LF] + Join(parts[1..])
  }

  function Last<T>(xs: seq<T>): Option<T> {
    if xs == [] then None else Some(xs[|xs| - 1])
  }

  /** What one segment between blank lines means: the last `event` value and all `data`
      values joined by LF; nothing at all when it has neither field. */
  function EventOf(bytes: seq<Byte>): Result<Option<ServerSentEvent>, SseDecodeError> {
    if !Valid(bytes) then Err(Utf8Error(ValidUpTo(bytes)))
    else
      var event, data := Values(Lines(bytes), EVENT), Values(Lines(bytes), DATA);
      if event == [] && data == [] then Ok(None)
      else Ok(Some(ServerSentEvent(Last(event), Join(data))))
  }

  lemma {:induction false} ValuesSnoc(lines: seq<seq<Byte>>, k: nat, name: seq<Byte>)
    requires k < |lines|
    ensures Values(lines[..k + 1], name) == Values(lines[..k], name) + ValueIn(lines[k], name)
  {
    var tail, last := lines[1..], ValueIn(lines[k], name);
    assert lines[..k + 1][1..] == tail[..k];
    if k == 0 {
      assert [] + last == last + [] == last;
    } else {
      ValuesSnoc(tail, k - 1, name);
      assert lines[..k][1..] == tail[..k - 1];
      Assoc(ValueIn(lines[0], name), Values(tail[..k - 1], name), last);
    }
  }

  method ParseEvent(bytes: seq<Byte>) returns (r: Result<Option<ServerSentEvent>, SseDecodeError>)
    ensures r == EventOf(bytes)
  {
    if ValidUpTo(bytes) != |bytes| {
      return Err(Utf8Error(ValidUpTo(bytes)));
    }
    var event: Option<seq<Byte>> := None;
    var data: seq<seq<Byte>> := [];
    var lines := Lines(bytes);
    for k := 0 to |lines|
      invariant event == Last(Values(lines[..k], EVENT))
      invariant data == Values(lines[..k], DATA)
    {
      ValuesSnoc(lines, k, EVENT);
      ValuesSnoc(lines, k, DATA);
      var line := StripCr(lines[k]);
      if line == [] || line[0] == COLON {
        continue;
      }
      var field, value := FieldName(line), FieldValue(line);
      if field == EVENT {
        event := Some(value);
      } else if field == DATA {
        data := data + [value];
      }
    }
    assert lines[..|lines|] == lines;
    if event.None? && data == [] {
      return Ok(None);
    }
    return Ok(Some(ServerSentEvent(event, Join(data))));
  }

  // ---------------------------------------------------------------------------
  // The byte stream as a list of segments
  // ---------------------------------------------------------------------------

  datatype Split = Split(segments: seq<seq<Byte>>, rest: seq<Byte>)

  /** The segments closed by a blank line, and the bytes after the last blank line. */
  function SplitEvents(b: seq<Byte>): Split
    decreases |b|
  {
    match FirstBoundary(b, 0)
    case None => Split([], b)
    case Some(at) =>
      var tail := SplitEvents(b[at.index + at.len..]);
      Split([b[..at.index]] + tail.segments, tail.rest)
  }

  /** `events` in front of the outcome of decoding what follows them. */
  function Onto(events: seq<ServerSentEvent>, rest: Result<seq<ServerSentEvent>, SseDecodeError>):
    (r: Result<seq<ServerSentEvent>, SseDecodeError>)
    ensures events == [] ==> r == rest
  {
    match rest
    case Err(e) => Err(e)
    case Ok(more) => assert events == [] ==> events + more == more; Ok(events + more)
  }

  lemma OntoOnto(a: seq<ServerSentEvent>, b: seq<ServerSentEvent>, rest: Result<seq<ServerSentEvent>, SseDecodeError>)
    ensures Onto(a, Onto(b, rest)) == Onto(a + b, rest)
  {
    if rest.Ok? {
      assert a + (b + rest.value) == a + b + rest.value;
    }
  }

  /** Decode segments in order, stopping at the first ill-formed one. */
  function ParseAll(segments: seq<seq<Byte>>): Result<seq<ServerSentEvent>, SseDecodeError> {
    if segments == [] then Ok([])
    else
      match EventOf(segments[0])
      case Err(e) => Err(e)
      case Ok(None) => ParseAll(segments[1..])
      case Ok(Some(ev)) => Onto([ev], ParseAll(segments[1..]))
  }

  /** The whole body: its closed segments, then a non-empty remainder as one more. */
  function Decode(b: seq<Byte>): Result<seq<ServerSentEvent>, SseDecodeError> {
    var s := SplitEvents(b);
    ParseAll(if s.rest == [] then s.segments else s.segments + [s.rest])
  }

  /** Bytes left in the buffer when decoding stops: all segments up to and including the
      first ill-formed one are gone, together with their blank lines. */
  function Undecoded(b: seq<Byte>): seq<Byte>
    decreases |b|
  {
    match FirstBoundary(b, 0)
    case None => b
    case Some(at) =>
      if EventOf(b[..at.index]).Err? then b[at.index + at.len..]
      else Undecoded(b[at.index + at.len..])
  }

  /** The event an unterminated remainder stands for. */
  function TrailingEvent(rest: seq<Byte>): Result<Option<ServerSentEvent>, SseDecodeError> {
    if rest == [] then Ok(None) else EventOf(rest)
  }

  /** What the first closed segment contributes to decoding a buffer. */
  lemma FirstSegment(b: seq<Byte>, at: Boundary, tail: seq<Byte>)
    requires FirstBoundary(b, 0) == Some(at) && tail == b[at.index + at.len..]
    ensures var more := ParseAll(SplitEvents(tail).segments);
            match EventOf(b[..at.index]) {
              case Err(e) => ParseAll(SplitEvents(b).segments) == Err(e) && Undecoded(b) == tail
              case Ok(event) =>
                && ParseAll(SplitEvents(b).segments) == Onto(match event case None => [] case Some(ev) => [ev], more)
                && Undecoded(b) == Undecoded(tail)
            }
  {
    var rest := SplitEvents(tail).segments;
    assert ([b[..at.index]] + rest)[1..] == rest;
  }

  class SseDecoder {
    var buffer: seq<Byte>

    constructor ()
      ensures buffer == []
    {
      buffer := [];
    }

    method Push(chunk: seq<Byte>) returns (r: Result<seq<ServerSentEvent>, SseDecodeError>)
      modifies this
      ensures r == ParseAll(SplitEvents(old(buffer) + chunk).segments)
      ensures buffer == Undecoded(old(buffer) + chunk)
    {
      buffer := buffer + chunk;
      ghost var all := buffer;
      var events: seq<ServerSentEvent> := [];
      var boundary := FindEventBoundary(buffer);
      while boundary.Some?
        invariant boundary == FirstBoundary(buffer, 0)
        invariant Undecoded(all) == Undecoded(buffer)
        invariant ParseAll(SplitEvents(all).segments) == Onto(events, ParseAll(SplitEvents(buffer).segments))
        decreases |buffer|
      {
        var at := boundary.value;
        var event := buffer[..at.index];
        ghost var tail := buffer[at.index + at.len..];
        FirstSegment(buffer, at, tail);
        buffer := buffer[at.index..];
        buffer := buffer[at.len..];
        assert buffer == tail;
        var parsed := ParseEvent(event);
        match parsed {
          case Err(e) =>
            return Err(e);
          case Ok(None) =>
          case Ok(Some(ev)) =>
            OntoOnto(events, [ev], ParseAll(SplitEvents(tail).segments));
            events := events + [ev];
        }
        boundary := FindEventBoundary(buffer);
      }
      assert events + [] == events;
      r := Ok(events);
    }

    method Finish() returns (r: Result<Option<ServerSentEvent>, SseDecodeError>)
      modifies this
      ensures buffer == []
      ensures r == TrailingEvent(old(buffer))
    {
      if buffer == [] {
        return Ok(None);
      }
      var event := buffer;
      buffer := [];
      r := ParseEvent(event);
    }
  }
}
