/** Printing events in the event-stream format (section 9.2.5 of the WHATWG HTML standard)
    and decoding them again. */
module SseRoundTrip {
  import opened Prelude
  import opened Utf8
  import opened Sse
  import opened SseChunking

  /** `data` cut at every LF; at least one part. */
  function SplitLf(data: seq<Byte>): (parts: seq<seq<Byte>>)
    ensures parts != []
    ensures forall p :: p in parts ==> LF !in p
    decreases |data|
  {
    var n := Find(data, LF);
    if n == |data| then [data] else [data[..n]] + SplitLf(data[n + 1..])
  }

  function FieldLine(name: seq<Byte>, value: seq<Byte>): seq<Byte> { name + [COLON, SPACE] + value }

  function DataLines(parts: seq<seq<Byte>>): seq<seq<Byte>> {
    if parts == [] then [] else [FieldLine(DATA, parts[0])] + DataLines(parts[1..])
  }

  function EventLines(event: ServerSentEvent): seq<seq<Byte>> {
    (match event.event case None => [] case Some(name) => [FieldLine(EVENT, name)]) + DataLines(SplitLf(event.data))
  }

  /** An `event` line if there is a name, one `data` line per line of data, a blank line. */
  function PrintAll(events: seq<ServerSentEvent>): seq<Byte> {
    if events == [] then []
    else Join(EventLines(events[0])) + [LF, LF] + PrintAll(events[1..])
  }

  /** The event's strings are UTF-8, as Rust strings always are. */
  predicate WellTyped(event: ServerSentEvent) {
    (event.event.Some? ==> Valid(event.event.value)) && Valid(event.data)
  }

  predicate EndsInCr(s: seq<Byte>) { s != [] && s[|s| - 1] == CR }

  predicate SingleLineName(event: ServerSentEvent) { event.event.Some? ==> LF !in event.event.value }

  /** What a printer can carry: a one-line name, and no CR at the end of a line. */
  predicate Printable(event: ServerSentEvent) {
    && SingleLineName(event)
    && (event.event.Some? ==> !EndsInCr(event.event.value))
    && forall p :: p in SplitLf(event.data) ==> !EndsInCr(p)
  }

  lemma JoinCons(p: seq<Byte>, parts: seq<seq<Byte>>)
    requires parts != []
    ensures Join([p] + parts) == p + [LF] + Join(parts)
  {
    assert ([p] + parts)[1..] == parts;
  }

  lemma {:induction false} JoinSplitLf(data: seq<Byte>)
    ensures Join(SplitLf(data)) == data
    decreases |data|
  {
    var n := Find(data, LF);
    if n < |data| {
      var rest := data[n + 1..];
      JoinSplitLf(rest);
      JoinCons(data[..n], SplitLf(rest));
      assert data == data[..n] + [LF] + rest;
    }
  }

  lemma FindSkips(p: seq<Byte>, c: Byte, rest: seq<Byte>)
    requires c !in p
    ensures Find(p + [c] + rest, c) == |p|
  {
    var s := p + [c] + rest;
    assert s[|p|] == c;
    assert forall k :: 0 <= k < |p| ==> s[k] == p[k];
  }

  lemma FindNone(p: seq<Byte>, c: Byte)
    requires c !in p
    ensures Find(p, c) == |p|
  {
  }

  lemma {:induction false} SplitLfJoin(parts: seq<seq<Byte>>)
    requires parts != [] && forall p :: p in parts ==> LF !in p
    ensures SplitLf(Join(parts)) == parts
    decreases |parts|
  {
    var p := parts[0];
    if |parts| == 1 {
      FindNone(p, LF);
    } else {
      var rest := Join(parts[1..]);
      FindSkips(p, LF, rest);
      SplitLfJoin(parts[1..]);
      assert (p + [LF] + rest)[..|p|] == p && (p + [LF] + rest)[|p| + 1..] == rest;
    }
  }

  // ---------------------------------------------------------------------------
  // The blank line behind a printed event is the first one
  // ---------------------------------------------------------------------------

  predicate PlainLine(l: seq<Byte>) { l != [] && LF !in l && l[0] != CR }

  lemma LineHasNoBoundary(l: seq<Byte>, next: seq<Byte>, i: nat)
    requires PlainLine(l) && i < |l| && next != [] && next[0] != CR
    ensures BoundaryLenAt(l + [LF] + next, i) == 0
  {
    var s := l + [LF] + next;
    assert s[i] == l[i] && l[i] in l;
    if i + 1 < |l| {
      assert s[i + 1] == l[i + 1] && l[i + 1] in l;
    } else {
      assert s[i + 2] == next[0];
    }
  }

  lemma {:induction false} JoinHasNoBoundary(lines: seq<seq<Byte>>, more: seq<Byte>, i: nat)
    requires lines != [] && forall l :: l in lines ==> PlainLine(l)
    requires i < |Join(lines)|
    ensures BoundaryLenAt(Join(lines) + [LF, LF] + more, i) == 0
    decreases |lines|
  {
    var l := lines[0];
    var s := Join(lines) + [LF, LF] + more;
    if |lines| == 1 {
      assert s == l + [LF] + ([LF] + more);
      LineHasNoBoundary(l, [LF] + more, i);
    } else {
      var next := Join(lines[1..]) + [LF, LF] + more;
      assert s == l + [LF] + next;
      assert lines[1] in lines && lines[1][0] in lines[1];
      JoinStartsPlain(lines[1..]);
      assert next[0] == lines[1][0];
      if i < |l| {
        LineHasNoBoundary(l, next, i);
      } else if i == |l| {
        assert s[i] == LF && s[i + 1] == next[0];
      } else {
        assert forall m :: m in lines[1..] ==> m in lines;
        JoinHasNoBoundary(lines[1..], more, i - |l| - 1);
        assert s[|l| + 1..] == next;
        ShiftBoundary(s, |l| + 1, i - |l| - 1);
      }
    }
  }

  lemma JoinStartsPlain(lines: seq<seq<Byte>>)
    requires lines != [] && PlainLine(lines[0])
    ensures Join(lines) != [] && Join(lines)[0] == lines[0][0]
  {
    assert lines[0][0] in lines[0];
  }

  lemma ShiftBoundary(s: seq<Byte>, from: nat, i: nat)
    requires from <= |s|
    ensures BoundaryLenAt(s, from + i) == BoundaryLenAt(s[from..], i)
  {}

  lemma FirstBoundaryAfterLines(lines: seq<seq<Byte>>, more: seq<Byte>)
    requires lines != [] && forall l :: l in lines ==> PlainLine(l)
    ensures FirstBoundary(Join(lines) + [LF, LF] + more, 0) == Some(Boundary(|Join(lines)|, 2))
  {
    var s := Join(lines) + [LF, LF] + more;
    forall i | 0 <= i < |Join(lines)|
      ensures BoundaryLenAt(s, i) == 0
    {
      JoinHasNoBoundary(lines, more, i);
    }
    assert s[|Join(lines)|] == LF && s[|Join(lines)| + 1] == LF;
    assert BoundaryLenAt(s, |Join(lines)|) == 2;
  }

  // ---------------------------------------------------------------------------
  // Reading one printed event
  // ---------------------------------------------------------------------------

  lemma FieldLineReads(name: seq<Byte>, value: seq<Byte>)
    requires name in {EVENT, DATA} && LF !in value
    ensures var l := FieldLine(name, value);
            && PlainLine(l) && l[0] != COLON
            && FieldName(l) == name && FieldValue(l) == value
            && StripCr(l) == FieldLine(name, StripCr(value))
  {
    var l := FieldLine(name, value);
    assert l == name + [COLON] + ([SPACE] + value);
    assert COLON !in name;
    FindSkips(name, COLON, [SPACE] + value);
    assert l[|name| + 1] == SPACE;
    assert l[..|name|] == name && l[|name| + 2..] == value;
    if EndsInCr(value) {
      assert l[..|l| - 1] == FieldLine(name, value[..|value| - 1]);
    }
  }

  /** What is left of the parts of a printed event: a line followed by another loses up to
      two CRs at its end, the last line up to one. */
  function CrTrimmed(parts: seq<seq<Byte>>): seq<seq<Byte>> {
    if parts == [] then []
    else if |parts| == 1 then [StripCr(parts[0])]
    else [StripCr(StripCr(parts[0]))] + CrTrimmed(parts[1..])
  }

  lemma {:induction false} LinesOfJoin(l: seq<Byte>, rest: seq<Byte>)
    requires LF !in l
    ensures Lines(l + [LF] + rest) == [StripCr(l)] + Lines(rest)
    ensures l != [] ==> Lines(l) == [l]
  {
    FindSkips(l, LF, rest);
    assert (l + [LF] + rest)[..|l|] == l && (l + [LF] + rest)[|l| + 1..] == rest;
    FindNone(l, LF);
  }

  lemma {:induction false} DataLinesRead(parts: seq<seq<Byte>>)
    requires parts != [] && forall p :: p in parts ==> LF !in p
    ensures forall l :: l in DataLines(parts) ==> PlainLine(l)
    ensures Values(Lines(Join(DataLines(parts))), DATA) == CrTrimmed(parts)
    ensures Values(Lines(Join(DataLines(parts))), EVENT) == []
    decreases |parts|
  {
    var p := parts[0];
    var l := FieldLine(DATA, p);
    FieldLineReads(DATA, p);
    if |parts| == 1 {
      assert DataLines(parts) == [l];
      LinesOfJoin(l, []);
      FieldLineReads(DATA, StripCr(p));
      assert Values([l], DATA) == [StripCr(p)] + Values([], DATA);
    } else {
      var rest := DataLines(parts[1..]);
      DataLinesRead(parts[1..]);
      assert DataLines(parts)[1..] == rest;
      LinesOfJoin(l, Join(rest));
      FieldLineReads(DATA, StripCr(p));
      FieldLineReads(DATA, StripCr(StripCr(p)));
      var lines := [StripCr(l)] + Lines(Join(rest));
      assert lines[0] == StripCr(l) && lines[1..] == Lines(Join(rest));
    }
  }

  /** Decoding one printed event gives the event back up to the CRs at its line ends. */
  lemma EventLinesRead(event: ServerSentEvent)
    requires SingleLineName(event)
    ensures EventLines(event) != [] && forall l :: l in EventLines(event) ==> PlainLine(l)
    ensures var lines := Lines(Join(EventLines(event)));
            && Values(lines, DATA) == CrTrimmed(SplitLf(event.data))
            && Last(Values(lines, EVENT)) ==
               match event.event case None => None case Some(name) => Some(StripCr(StripCr(name)))
  {
    var parts := SplitLf(event.data);
    var rest := DataLines(parts);
    DataLinesRead(parts);
    match event.event {
      case None =>
        assert EventLines(event) == rest;
      case Some(name) =>
        var l := FieldLine(EVENT, name);
        FieldLineReads(EVENT, name);
        FieldLineReads(EVENT, StripCr(name));
        FieldLineReads(EVENT, StripCr(StripCr(name)));
        assert EventLines(event)[1..] == rest;
        LinesOfJoin(l, Join(rest));
        var lines := [StripCr(l)] + Lines(Join(rest));
        assert lines[0] == StripCr(l) && lines[1..] == Lines(Join(rest));
    }
  }

  // ---------------------------------------------------------------------------
  // UTF-8 survives cutting at LF and joining
  // ---------------------------------------------------------------------------

  lemma {:induction false} ValidCut(a: seq<Byte>, b: seq<Byte>)
    requires Valid(a + [LF] + b)
    ensures Valid(a) && Valid(b)
    decreases |a|
  {
    var s := a + [LF] + b;
    var k := CharLen(s);
    if a == [] {
      assert s[0] == LF && s[1..] == b;
    } else {
      assert s[|a|] == LF;
      assert k <= |a|;
      assert forall i :: 0 <= i < |a| ==> s[i] == a[i];
      assert CharLen(a) == k;
      assert s[k..] == a[k..] + [LF] + b;
      ValidCut(a[k..], b);
    }
  }

  lemma {:induction false} SplitLfValid(data: seq<Byte>)
    requires Valid(data)
    ensures forall p :: p in SplitLf(data) ==> Valid(p)
    decreases |data|
  {
    var n := Find(data, LF);
    if n < |data| {
      assert data == data[..n] + [LF] + data[n + 1..];
      ValidCut(data[..n], data[n + 1..]);
      SplitLfValid(data[n + 1..]);
    }
  }

  lemma {:induction false} JoinValid(lines: seq<seq<Byte>>)
    requires forall l :: l in lines ==> Valid(l)
    ensures Valid(Join(lines))
    decreases |lines|
  {
    if |lines| > 1 {
      JoinValid(lines[1..]);
      AsciiValid([LF]);
      ValidAppend(lines[0], [LF]);
      ValidAppend(lines[0] + [LF], Join(lines[1..]));
    } else if |lines| == 1 {
      assert lines[0] in lines;
    }
  }

  lemma FieldLineValid(name: seq<Byte>, value: seq<Byte>)
    requires name in {EVENT, DATA} && Valid(value)
    ensures Valid(FieldLine(name, value))
  {
    AsciiValid(name + [COLON, SPACE]);
    ValidAppend(name + [COLON, SPACE], value);
  }

  lemma {:induction false} DataLinesValid(parts: seq<seq<Byte>>)
    requires forall p :: p in parts ==> Valid(p)
    ensures forall l :: l in DataLines(parts) ==> Valid(l)
  {
    if parts != [] {
      FieldLineValid(DATA, parts[0]);
      DataLinesValid(parts[1..]);
    }
  }

  lemma PrintedValid(event: ServerSentEvent)
    requires WellTyped(event)
    ensures Valid(Join(EventLines(event)))
  {
    SplitLfValid(event.data);
    DataLinesValid(SplitLf(event.data));
    if event.event.Some? {
      FieldLineValid(EVENT, event.event.value);
    }
    JoinValid(EventLines(event));
  }

  // ---------------------------------------------------------------------------
  // The round trip
  // ---------------------------------------------------------------------------

  /** The event as the decoder reads it back from its printed form. */
  function ReadBack(event: ServerSentEvent): ServerSentEvent {
    ServerSentEvent(
      match event.event case None => None case Some(name) => Some(StripCr(StripCr(name))),
      Join(CrTrimmed(SplitLf(event.data))))
  }

  function ReadBackAll(events: seq<ServerSentEvent>): (r: seq<ServerSentEvent>)
    ensures |r| == |events|
    ensures forall k :: 0 <= k < |events| ==> r[k] == ReadBack(events[k])
  {
    if events == [] then [] else [ReadBack(events[0])] + ReadBackAll(events[1..])
  }

  lemma EventDecodes(event: ServerSentEvent)
    requires WellTyped(event) && SingleLineName(event)
    ensures EventOf(Join(EventLines(event))) == Ok(Some(ReadBack(event)))
  {
    EventLinesRead(event);
    PrintedValid(event);
    assert CrTrimmed(SplitLf(event.data)) != [];
  }

  lemma {:induction false} PrintedDecodes(events: seq<ServerSentEvent>)
    requires forall e :: e in events ==> WellTyped(e) && SingleLineName(e)
    ensures SplitEvents(PrintAll(events)).rest == []
    ensures ParseAll(SplitEvents(PrintAll(events)).segments) == Ok(ReadBackAll(events))
    decreases |events|
  {
    if events != [] {
      var body, more := Join(EventLines(events[0])), PrintAll(events[1..]);
      var s := body + [LF, LF] + more;
      PrintedDecodes(events[1..]);
      EventLinesRead(events[0]);
      FirstBoundaryAfterLines(EventLines(events[0]), more);
      assert s[..|body|] == body && s[|body| + 2..] == more;
      EventDecodes(events[0]);
      FirstSegment(s, Boundary(|body|, 2), more);
    }
  }

  lemma {:induction false} CrTrimmedFixed(parts: seq<seq<Byte>>)
    requires forall p :: p in parts ==> LF !in p
    ensures |CrTrimmed(parts)| == |parts|
    ensures forall k :: 0 <= k < |parts| ==> LF !in CrTrimmed(parts)[k]
    ensures forall k :: 0 <= k < |parts| ==> (CrTrimmed(parts)[k] == parts[k] <==> !EndsInCr(parts[k]))
  {
    if |parts| > 1 {
      var tail := parts[1..];
      CrTrimmedFixed(tail);
      assert CrTrimmed(parts)[1..] == CrTrimmed(tail);
      forall k | 0 < k < |parts|
        ensures CrTrimmed(parts)[k] == CrTrimmed(tail)[k - 1] && parts[k] == tail[k - 1]
      {}
    }
  }

  lemma DataReadBackFixed(data: seq<Byte>)
    ensures Join(CrTrimmed(SplitLf(data))) == data <==> forall p :: p in SplitLf(data) ==> !EndsInCr(p)
  {
    var parts := SplitLf(data);
    var trimmed := CrTrimmed(parts);
    CrTrimmedFixed(parts);
    JoinSplitLf(data);
    SplitLfJoin(trimmed);
    if forall p :: p in parts ==> !EndsInCr(p) {
      assert trimmed == parts;
    } else {
      var k :| 0 <= k < |parts| && EndsInCr(parts[k]);
      assert trimmed[k] != parts[k];
    }
  }

  lemma ReadBackFixed(event: ServerSentEvent)
    ensures ReadBack(event) == event && SingleLineName(event) <==> Printable(event)
  {
    DataReadBackFixed(event.data);
  }

  lemma {:induction false} ValuesOneLine(lines: seq<seq<Byte>>, name: seq<Byte>)
    requires forall l :: l in lines ==> LF !in l
    ensures forall v :: v in Values(lines, name) ==> LF !in v
  {
    if lines != [] {
      assert lines[0] in lines;
      ValuesOneLine(lines[1..], name);
    }
  }

  /** A decoded event never has a name of several lines. */
  lemma {:induction false} DecodedNamesOneLine(segments: seq<seq<Byte>>)
    requires ParseAll(segments).Ok?
    ensures forall e :: e in ParseAll(segments).value ==> SingleLineName(e)
  {
    if segments != [] {
      ValuesOneLine(Lines(segments[0]), EVENT);
      DecodedNamesOneLine(segments[1..]);
    }
  }

  lemma ReadBackAllFixed(events: seq<ServerSentEvent>)
    requires forall e :: e in events ==> SingleLineName(e)
    ensures ReadBackAll(events) == events <==> forall e :: e in events ==> Printable(e)
  {
    forall k | 0 <= k < |events|
      ensures ReadBackAll(events)[k] == events[k] <==> Printable(events[k])
    {
      assert events[k] in events;
      ReadBackFixed(events[k]);
    }
  }

  /** Printed events decode to themselves exactly when every event is printable. */
  lemma RoundTripIff(events: seq<ServerSentEvent>)
    requires forall e :: e in events ==> WellTyped(e)
    ensures Decode(PrintAll(events)) == Ok(events) <==> forall e :: e in events ==> Printable(e)
  {
    if forall e :: e in events ==> SingleLineName(e) {
      PrintedDecodes(events);
      ReadBackAllFixed(events);
    } else if Decode(PrintAll(events)) == Ok(events) {
      var s := SplitEvents(PrintAll(events));
      DecodedNamesOneLine(if s.rest == [] then s.segments else s.segments + [s.rest]);
    }
  }

  /** ... and then in every cut of the printed bytes. */
  lemma RoundTripInEveryCut(events: seq<ServerSentEvent>, cut: seq<seq<Byte>>)
    requires forall e :: e in events ==> WellTyped(e) && Printable(e)
    requires Flatten(cut) == PrintAll(events)
    ensures DecodeCut([], cut) == Ok(events)
  {
    RoundTripIff(events);
    EmptyStart(cut);
  }
}
