/** A response body for which the cut into chunks decides what the caller gets. */
module AnthropicWitnesses {
  import opened Prelude
  import opened Utf8
  import opened Sse
  import opened SseChunking
  import opened SseRoundTrip
  import opened AnthropicStream
  import opened AnthropicAttempt
  import opened AnthropicChunking
  import AnthropicPipeline
  import Json

  // ---------------------------------------------------------------------------
  // Any event with an effect, and then one ill-formed byte
  // ---------------------------------------------------------------------------

  /** A segment that is no UTF-8. */
  const ILL_FORMED: seq<Byte> := [0xFF, LF, LF]

  function Spoiled(event: ServerSentEvent): seq<Byte> { PrintAll([event]) + ILL_FORMED }

  lemma IllFormedDecodes()
    ensures DecodeSegments(SplitEvents(ILL_FORMED).segments) == Decoded([], Some(Utf8Error(0)))
  {
    var b := ILL_FORMED;
    assert BoundaryLenAt(b, 0) == 0 && BoundaryLenAt(b, 1) == 2;
    assert FirstBoundary(b, 1) == Some(Boundary(1, 2));
    assert FirstBoundary(b, 0) == Some(Boundary(1, 2));
    SplitStep(b, Boundary(1, 2), []);
    assert b[..1] == [0xFF];
    assert SplitEvents(b).segments == [[0xFF]] + [] == [[0xFF]];
    assert CharLen([0xFF]) == 0;
  }

  lemma PrintedOnce(event: ServerSentEvent)
    requires WellTyped(event) && Printable(event)
    ensures SplitEvents(PrintAll([event])).rest == []
    ensures DecodeSegments(SplitEvents(PrintAll([event])).segments) == Decoded([event], None)
  {
    PrintedDecodes([event]);
    ReadBackFixed(event);
    assert ReadBackAll([event])[0] == event;
    assert ReadBackAll([event]) == [event];
    DecodeSegmentsIsParseAll(SplitEvents(PrintAll([event])).segments);
  }

  lemma SpoiledDecodes(event: ServerSentEvent)
    requires WellTyped(event) && Printable(event)
    ensures DecodeSegments(SplitEvents(Spoiled(event)).segments) == Decoded([event], Some(Utf8Error(0)))
  {
    var p := PrintAll([event]);
    PrintedOnce(event);
    IllFormedDecodes();
    BehindComplete(p, ILL_FORMED);
    ErrorBehind(SplitEvents(p).segments, SplitEvents(ILL_FORMED).segments, event);
  }

  lemma BehindComplete(a: seq<Byte>, b: seq<Byte>)
    requires SplitEvents(a).rest == []
    ensures SplitEvents(a + b).segments == SplitEvents(a).segments + SplitEvents(b).segments
  {
    SplitAppend(a, b);
    assert [] + b == b;
  }

  lemma ErrorBehind(a: seq<seq<Byte>>, b: seq<seq<Byte>>, event: ServerSentEvent)
    requires DecodeSegments(a) == Decoded([event], None) && DecodeSegments(b) == Decoded([], Some(Utf8Error(0)))
    ensures DecodeSegments(a + b) == Decoded([event], Some(Utf8Error(0)))
  {
    DecodeSegmentsAppend(a, b);
    assert [event] + [] == [event];
  }

  /** Whatever printable event comes first: when it emits something, ends the stream or fails, an
      ill-formed segment behind it makes the cut matter. */
  lemma SpoiledCutMatters(src: Source, event: ServerSentEvent) returns (a: seq<Byte>, b: seq<Byte>)
    requires WellTyped(event) && Printable(event)
    requires var fed := Feed(src.env, INITIAL, [src.WireOf(event)]); fed.events != [] || !fed.status.Going?
    ensures Spoiled(event) == a + b
    ensures Attempt(src, OkChunks([a, b])) != Attempt(src, OkChunks([Spoiled(event)]))
  {
    SpoiledDecodes(event);
    assert src.Wires([event]) == [src.WireOf(event)];
    a, b := CutMatters(src, Spoiled(event));
  }

  // ---------------------------------------------------------------------------
  // A concrete one
  // ---------------------------------------------------------------------------

  /** {"type":"content_block_start","index":0,"content_block":{"type":"text","text":"hello"}} */
  const TYPE_PART := "{\"type\":"
  const KIND_PART := "\"content_block_start\","
  const INDEX_PART := "\"index\":0,\"content_block\":"
  const BLOCK_PART := "{\"type\":\"text\","
  const TEXT_PART := "\"text\":\"hello\"}}"

  const DATA_TEXT := TYPE_PART + KIND_PART + INDEX_PART + BLOCK_PART + TEXT_PART

  const STARTED: Value := Json.Obj(map[
    "type" := Json.Str("content_block_start"), "index" := Json.Int(0), "content_block" := AnthropicPipeline.HELLO])

  predicate IsAscii(c: char) { c < '\U{80}' }

  /** ASCII on one line. */
  predicate Plain(s: string) { forall c :: c in s ==> IsAscii(c) && c != '\n' && c != '\r' }

  function Code(c: char): Byte
    requires IsAscii(c)
  {
    c as int as Byte
  }

  /** Text of one byte a character, and back. */
  function AsciiBytes(s: string): (bytes: seq<Byte>)
    requires forall c :: c in s ==> IsAscii(c)
  {
    seq(|s|, i requires 0 <= i < |s| => Code(s[i]))
  }

  function AsciiText(bytes: seq<Byte>): string { seq(|bytes|, i requires 0 <= i < |bytes| => bytes[i] as int as char) }

  lemma DataIsAscii()
    ensures Plain(DATA_TEXT) && DATA_TEXT[0] == '{' && |DATA_TEXT| > 2
  {
    assert Plain(TYPE_PART) && Plain(KIND_PART) && Plain(INDEX_PART) && Plain(BLOCK_PART) && Plain(TEXT_PART);
    assert TYPE_PART[0] == '{' && |TYPE_PART| == 8;
  }

  /** The body: a text block starts, and a segment follows that is no UTF-8. */
  function StartEvent(): ServerSentEvent {
    DataIsAscii();
    ServerSentEvent(None, AsciiBytes(DATA_TEXT))
  }

  /** Some listing of the keys. */
  ghost function Listing(keys: set<string>): (order: seq<string>)
    ensures ListsOnce(order, keys)
  {
    if keys == {} then []
    else
      var key :| key in keys;
      assert multiset(keys) == multiset(keys - {key}) + multiset{key};
      Listing(keys - {key}) + [key]
  }

  ghost function SampleEnv(): Env {
    Env(Json.TableCodec(map["{}" := Json.EMPTY, DATA_TEXT := STARTED]), "anthropic", "claude",
        (v: Value, model: string) => None, U64_MAX, (waiting: map<string, Value>) => Listing(waiting.Keys))
  }

  ghost const SAMPLE: Source := Source(SampleEnv(), bytes => AsciiText(bytes))

  lemma SampleIsLawful()
    ensures SAMPLE.env.Lawful()
  {
    DataIsAscii();
    assert "{}"[0] == '{' && |"{}"| == 2 && !Json.IsWhitespace('{');
    assert '{' in "{}" && DATA_TEXT[0] in DATA_TEXT;
    Json.TableCodecLawful(map["{}" := Json.EMPTY, DATA_TEXT := STARTED]);
  }

  lemma StartIsPrintable()
    ensures WellTyped(StartEvent()) && Printable(StartEvent())
  {
    DataIsAscii();
    var data := AsciiBytes(DATA_TEXT);
    forall i | 0 <= i < |data|
      ensures data[i] < 0x80 && data[i] != LF && data[i] != CR
    {
      assert DATA_TEXT[i] in DATA_TEXT;
    }
    AsciiValid(data);
    assert LF !in data && CR !in data;
    SplitLfPlain(data);
  }

  lemma SplitLfPlain(data: seq<Byte>)
    requires LF !in data
    ensures SplitLf(data) == [data]
  {
    assert Find(data, LF) == |data|;
  }

  lemma StartWire()
    ensures SAMPLE.WireOf(StartEvent()) == BlockStart(0, AnthropicPipeline.HELLO)
  {
    DataIsAscii();
    assert AsciiText(AsciiBytes(DATA_TEXT)) == DATA_TEXT;
    assert |"type"| == 4 && |"index"| == 5 && |"content_block"| == 13;
    assert STARTED.GetStr("type") == Some("content_block_start");
    assert |"content_block_start"| == 19 && |"message_start"| == |"message_delta"| == 13 && |"message_stop"| == 12
           && |"error"| == 5;
    assert |"content_block_delta"| == 19 && "content_block_start"[14] == 's' && "content_block_delta"[14] == 'd';
    assert |"content_block_stop"| == 18;
  }

  lemma StartEmits(env: Env)
    ensures Feed(env, INITIAL, [BlockStart(0, AnthropicPipeline.HELLO)]).events != []
  {
    AnthropicPipeline.SampleFields();
    FeedOne(env, INITIAL, BlockStart(0, AnthropicPipeline.HELLO));
  }

  /** Delivered in one chunk, the body yields nothing; cut before the ill-formed segment, the
      text block's start is seen. */
  lemma SomeCutMatters() returns (a: seq<Byte>, b: seq<Byte>)
    ensures SAMPLE.env.Lawful() && Spoiled(StartEvent()) == a + b
    ensures Attempt(SAMPLE, OkChunks([a, b])) != Attempt(SAMPLE, OkChunks([Spoiled(StartEvent())]))
  {
    SampleIsLawful();
    StartIsPrintable();
    StartEmits(SAMPLE.env);
    StartWire();
    a, b := SpoiledCutMatters(SAMPLE, StartEvent());
  }
}
