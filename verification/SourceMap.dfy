/** Source positions in crates/chudbot-bin/src/diagnostics.rs: byte offsets to lines and columns,
    and the clipped window of a long line. */
module SourceMap {
  import opened Prelude
  import opened Utf8

  const NEWLINE: Byte := 10

  /** str::is_char_boundary. */
  predicate IsBoundary(s: seq<Byte>, i: nat) { i == 0 || i == |s| || (i < |s| && !Tail(s[i])) }

  /** chars().count(): bytes that start a character (section 3 of RFC 3629). */
  function CharCount(s: seq<Byte>): nat {
    if s == [] then 0 else (if Tail(s[0]) then 0 else 1) + CharCount(s[1..])
  }

  function Newlines(s: seq<Byte>): nat {
    if s == [] then 0 else Newlines(Init(s)) + if Latest(s) == NEWLINE then 1 else 0
  }

  // ---------------------------------------------------------------------------
  // The line index
  // ---------------------------------------------------------------------------

  /** Byte offsets at which lines start. */
  function Starts(s: seq<Byte>): (starts: seq<nat>)
    ensures starts != []
  {
    if s == [] then [0] else Starts(Init(s)) + if Latest(s) == NEWLINE then [|s|] else []
  }

  method NewLineIndex(input: seq<Byte>) returns (starts: seq<nat>)
    ensures starts == Starts(input)
  {
    starts := [0];
    for index := 0 to |input|
      invariant starts == Starts(input[..index])
    {
      assert Init(input[..index + 1]) == input[..index];
      if input[index] == NEWLINE {
        starts := starts + [index + 1];
      }
    }
    assert input[..|input|] == input;
  }

  /** partition_point(|start| start <= byte) on sorted starts. */
  function StartsUpTo(starts: seq<nat>, byte: nat): nat {
    if starts == [] || starts[0] > byte then 0 else 1 + StartsUpTo(starts[1..], byte)
  }

  /** input.get(from..to), or nothing when that is no slice of characters. */
  function Slice(s: seq<Byte>, from: nat, to: nat): seq<Byte> {
    if from <= to <= |s| && IsBoundary(s, from) && IsBoundary(s, to) then s[from..to] else []
  }

  datatype Position = Position(line: nat, column: nat)

  function LineCol(starts: seq<nat>, input: seq<Byte>, byte: nat): Position {
    var b := Min(byte, |input|);
    var n := StartsUpTo(starts, b);
    var line := if n > 0 then n - 1 else 0;
    var lineStart := if line < |starts| then starts[line] else 0;
    Position(line, CharCount(Slice(input, lineStart, b)))
  }

  datatype Range = Range(start: nat, end: nat)

  function LineRange(starts: seq<nat>, input: seq<Byte>, line: nat): Range {
    Range(if line < |starts| then starts[line] else |input|,
          if line + 1 < |starts| then (if starts[line + 1] > 0 then starts[line + 1] - 1 else 0) else |input|)
  }

  // ---------------------------------------------------------------------------
  // Starts and newlines
  // ---------------------------------------------------------------------------

  lemma {:induction false} StartsLaw(s: seq<Byte>)
    ensures |Starts(s)| == Newlines(s) + 1 && Starts(s)[0] == 0
    ensures forall i :: 0 <= i < |Starts(s)| ==> Starts(s)[i] <= |s|
    ensures forall i :: 0 < i < |Starts(s)| ==> Starts(s)[i] > 0 && s[Starts(s)[i] - 1] == NEWLINE
    ensures forall k :: Latest(Starts(s)) <= k < |s| ==> s[k] != NEWLINE
  {
    if s != [] {
      StartsLaw(Init(s));
    }
  }

  /** Later bytes add later starts. */
  lemma {:induction false} StartsExtend(s: seq<Byte>, n: nat)
    requires n <= |s|
    ensures |Starts(s[..n])| <= |Starts(s)| && Starts(s)[..|Starts(s[..n])|] == Starts(s[..n])
    ensures forall i :: |Starts(s[..n])| <= i < |Starts(s)| ==> Starts(s)[i] > n
  {
    if n == |s| {
      assert s[..n] == s;
    } else {
      StartsExtend(Init(s), n);
      assert Init(s)[..n] == s[..n];
    }
  }

  lemma {:induction false} CountsPrefix(starts: seq<nat>, n: nat, byte: nat)
    requires n <= |starts|
    requires forall i :: 0 <= i < n ==> starts[i] <= byte
    requires n < |starts| ==> starts[n] > byte
    ensures StartsUpTo(starts, byte) == n
  {
    if n > 0 {
      CountsPrefix(starts[1..], n - 1, byte);
    }
  }

  lemma LineIsNewlines(input: seq<Byte>, b: nat)
    requires b <= |input|
    ensures StartsUpTo(Starts(input), b) == Newlines(input[..b]) + 1 == |Starts(input[..b])|
    ensures Newlines(input[..b]) < |Starts(input)|
            && Starts(input)[Newlines(input[..b])] == Latest(Starts(input[..b])) <= b
  {
    StartsLaw(input[..b]);
    StartsExtend(input, b);
    var n := |Starts(input[..b])|;
    forall i | 0 <= i < n
      ensures Starts(input)[i] <= b
    {
      assert Starts(input)[i] == Starts(input)[..n][i];
    }
    CountsPrefix(Starts(input), n, b);
    assert Starts(input)[n - 1] == Starts(input)[..n][n - 1];
  }

  // ---------------------------------------------------------------------------
  // Columns
  // ---------------------------------------------------------------------------

  /** Characters of valid text, one well-formed sequence after the other. */
  function Characters(s: seq<Byte>): nat
    decreases |s|
  {
    if CharLen(s) == 0 then 0 else 1 + Characters(s[CharLen(s)..])
  }

  lemma {:induction false} TailsCountNothing(s: seq<Byte>, n: nat)
    requires n <= |s| && forall k :: 0 <= k < n ==> Tail(s[k])
    ensures CharCount(s) == CharCount(s[n..])
  {
    if n > 0 {
      TailsCountNothing(s[1..], n - 1);
      assert s[1..][n - 1..] == s[n..];
    }
  }

  /** Counting bytes that start a character counts the characters. */
  lemma {:induction false} CharCountLaw(s: seq<Byte>)
    requires Valid(s)
    ensures CharCount(s) == Characters(s)
    decreases |s|
  {
    if s != [] {
      var n := CharLen(s);
      assert forall k :: 0 <= k < n - 1 ==> s[1..][k] == s[k + 1];
      TailsCountNothing(s[1..], n - 1);
      assert s[1..][n - 1..] == s[n..];
      CharCountLaw(s[n..]);
    }
  }

  /** Where character number `n` starts. */
  function ByteOf(s: seq<Byte>, n: nat): nat {
    if s == [] || (n == 0 && !Tail(s[0])) then 0
    else 1 + ByteOf(s[1..], if Tail(s[0]) then n else n - 1)
  }

  lemma {:induction false} ByteOfCount(s: seq<Byte>, p: nat)
    requires p == |s| || (p < |s| && !Tail(s[p]))
    ensures ByteOf(s, CharCount(s[..p])) == p
  {
    if p > 0 {
      assert s[..p][1..] == s[1..][..p - 1] && s[..p][0] == s[0];
      ByteOfCount(s[1..], p - 1);
    }
  }

  /** Column and line start recover the offset. */
  predicate Recovers(input: seq<Byte>, start: nat, column: nat, b: nat) {
    start <= |input| && start + ByteOf(input[start..], column) == b
  }

  lemma ColumnRecovers(input: seq<Byte>, start: nat, b: nat)
    requires start <= b <= |input| && (b == |input| || !Tail(input[b]))
    ensures Recovers(input, start, CharCount(input[start..b]), b)
  {
    assert input[start..][..b - start] == input[start..b];
    ByteOfCount(input[start..], b - start);
  }

  /** In valid text a newline is a character of its own. */
  lemma {:induction false} NewlineEndsCharacter(s: seq<Byte>, i: nat)
    requires Valid(s) && i < |s| && s[i] == NEWLINE
    ensures i + 1 < |s| ==> !Tail(s[i + 1])
    decreases |s|
  {
    var k := CharLen(s);
    if i >= k {
      NewlineEndsCharacter(s[k..], i - k);
    } else if i + 1 < |s| {
      assert k == 1;
      assert ValidUpTo(s[1..]) == |s| - 1 && CharLen(s[1..]) > 0;
    }
  }

  /** A line starts at a character. */
  lemma LineStartIsBoundary(input: seq<Byte>, i: nat)
    requires Valid(input) && i < |Starts(input)|
    ensures Starts(input)[i] <= |input| && IsBoundary(input, Starts(input)[i])
  {
    StartsLaw(input);
    if i > 0 {
      NewlineEndsCharacter(input, Starts(input)[i] - 1);
    }
  }

  /** A line index gives, for every offset in valid text: the number of newlines before it; on a
      character boundary, a column that recovers the offset from the start of the line; and
      elsewhere column 0. */
  lemma LineColLaw(input: seq<Byte>, byte: nat)
    requires Valid(input)
    ensures var b := Min(byte, |input|);
            var p := LineCol(Starts(input), input, byte);
            var range := LineRange(Starts(input), input, p.line);
            && p.line == Newlines(input[..b])
            && range.start <= b <= range.end
            && (if IsBoundary(input, b) then Recovers(input, range.start, p.column, b) else p.column == 0)
  {
    var b := Min(byte, |input|);
    var line := Newlines(input[..b]);
    LineIsNewlines(input, b);
    LineColIs(input, byte);
    OffsetInRange(input, b);
    LineStartIsBoundary(input, line);
    ColumnLaw(input, Starts(input)[line], b);
  }

  lemma LineColIs(input: seq<Byte>, byte: nat)
    ensures var b := Min(byte, |input|); var line := Newlines(input[..b]);
            && line < |Starts(input)| && LineRange(Starts(input), input, line).start == Starts(input)[line]
            && LineCol(Starts(input), input, byte) ==
               Position(line, CharCount(Slice(input, Starts(input)[line], b)))
  {
    LineIsNewlines(input, Min(byte, |input|));
  }

  /** The column of an offset, seen from a boundary before it. */
  lemma ColumnLaw(input: seq<Byte>, start: nat, b: nat)
    requires Valid(input) && start <= b <= |input| && IsBoundary(input, start)
    ensures var column := CharCount(Slice(input, start, b));
            if IsBoundary(input, b) then Recovers(input, start, column, b) else column == 0
  {
    if IsBoundary(input, b) {
      if b < |input| {
        StartIsNoTail(input, b);
      }
      ColumnRecovers(input, start, b);
    }
  }

  lemma OffsetInRange(input: seq<Byte>, b: nat)
    requires b <= |input|
    ensures var range := LineRange(Starts(input), input, Newlines(input[..b])); range.start <= b <= range.end
  {
    LineIsNewlines(input, b);
    StartsExtend(input, b);
    StartsLaw(input);
  }

  /** Lines hold no newline, and stand between newlines or the ends of the text. */
  lemma {:induction false} RangeLaw(input: seq<Byte>, line: nat)
    requires line < |Starts(input)|
    ensures var r := LineRange(Starts(input), input, line);
            && r.start <= r.end <= |input|
            && (forall k :: r.start <= k < r.end ==> input[k] != NEWLINE)
            && (r.start == 0 || input[r.start - 1] == NEWLINE)
            && (r.end == |input| || input[r.end] == NEWLINE)
            && (line == 0 <==> r.start == 0)
            && (line + 1 == |Starts(input)| <==> r.end == |input|)
    decreases |input|
  {
    StartsLaw(input);
    if input != [] {
      StartsLaw(Init(input));
      if line < |Starts(Init(input))| {
        RangeLaw(Init(input), line);
      }
    }
  }

  // ---------------------------------------------------------------------------
  // Characters of the decoded text
  // ---------------------------------------------------------------------------

  lemma {:induction false} TextLength(s: seq<Byte>)
    ensures |Text(s)| == Characters(s)
    decreases |s|
  {
    if CharLen(s) > 0 {
      TextLength(s[CharLen(s)..]);
    }
  }

  /** The character that starts at a byte stands in the decoded text behind as many characters as
      start before that byte. */
  lemma {:induction false} CharacterAt(s: seq<Byte>, p: nat)
    requires Valid(s) && p < |s| && !Tail(s[p])
    ensures CharLen(s[p..]) > 0
    ensures CharCount(s[..p]) < |Text(s)| && Text(s)[CharCount(s[..p])] == CodePoint(s[p..])
    decreases |s|
  {
    var k := CharLen(s);
    if p == 0 {
      assert s[p..] == s;
    } else {
      assert k <= p && s[k..][p - k] == s[p];
      CharacterAt(s[k..], p - k);
      CharacterBehind(s, p);
    }
  }

  lemma CharacterBehind(s: seq<Byte>, p: nat)
    requires CharLen(s) > 0 && CharLen(s) <= p < |s|
    ensures s[CharLen(s)..][p - CharLen(s)..] == s[p..]
    ensures CharCount(s[..p]) == 1 + CharCount(s[CharLen(s)..][..p - CharLen(s)])
    ensures Text(s) == [CodePoint(s)] + Text(s[CharLen(s)..])
  {
    SliceOfRest(s, CharLen(s), p);
    FirstCounts(s, p);
  }

  lemma SliceOfRest(s: seq<Byte>, k: nat, p: nat)
    requires k <= p <= |s|
    ensures s[k..][p - k..] == s[p..] && s[k..][..p - k] == s[k..p]
  {}

  lemma FirstCounts(s: seq<Byte>, p: nat)
    requires CharLen(s) > 0 && CharLen(s) <= p <= |s|
    ensures CharCount(s[..p]) == 1 + CharCount(s[CharLen(s)..p])
  {
    var k := CharLen(s);
    assert s[..p][0] == s[0] && forall i :: 0 <= i < k - 1 ==> s[..p][1..][i] == s[i + 1];
    TailsCountNothing(s[..p][1..], k - 1);
    assert s[..p][1..][k - 1..] == s[k..p];
  }

  // ---------------------------------------------------------------------------
  // The window of a long line
  // ---------------------------------------------------------------------------

  const MAX_SOURCE_LINE_CHARS := 160
  const SOURCE_WINDOW_CHARS := 120

  datatype Window = Window(text: string, startCol: nat, endCol: nat)

  /** saturating_sub. */
  function Less(a: nat, b: nat): nat { if a < b then 0 else a - b }

  /** Where the highlight ends: within the line, and behind its start. */
  function HighlightEnd(line: string, startCol: nat, endCol: nat): nat { Max(Min(endCol, |line|), startCol + 1) }

  /** The window shows line[from..to], with dots where it is clipped, and moves columns along. */
  predicate Shows(w: Window, line: string, startCol: nat, endCol: nat, from: nat, to: nat) {
    var before := if from > 0 then "... " else "";
    && from <= to <= |line|
    && w.text == before + line[from..to] + (if to < |line| then " ..." else "")
    && w.startCol == |before| + Less(startCol, from)
    && w.endCol == |before| + Less(HighlightEnd(line, startCol, endCol), from)
  }

  method NewWindow(line: string, startCol: nat, endCol: nat) returns (w: Window)
    ensures exists from: nat, to: nat ::
              && Shows(w, line, startCol, endCol, from, to)
              && (|line| <= MAX_SOURCE_LINE_CHARS ==> from == 0 && to == |line|)
              && (|line| > MAX_SOURCE_LINE_CHARS ==> to - from <= SOURCE_WINDOW_CHARS)
              && (startCol <= |line| ==> from <= startCol)
              && (startCol < |line| ==> startCol < to)
              && (startCol < |line| ==> (HighlightEnd(line, startCol, endCol) <= to <==>
                    |line| <= MAX_SOURCE_LINE_CHARS
                    || HighlightEnd(line, startCol, endCol) - Less(startCol, 48) <= SOURCE_WINDOW_CHARS))
  {
    var highlightEnd := Max(Min(endCol, |line|), startCol + 1);
    if |line| <= MAX_SOURCE_LINE_CHARS {
      w := Window(line, startCol, highlightEnd);
      assert line[0..|line|] == line && "" + line + "" == line;
      assert Shows(w, line, startCol, endCol, 0, |line|);
      return;
    }
    var windowStart := Less(startCol, 48);
    var windowEnd := Min(highlightEnd + 72, |line|);
    if Less(windowEnd, windowStart) < SOURCE_WINDOW_CHARS {
      windowStart := Less(windowEnd, SOURCE_WINDOW_CHARS);
    }
    if Less(windowEnd, windowStart) > SOURCE_WINDOW_CHARS {
      windowEnd := windowStart + SOURCE_WINDOW_CHARS;
    }
    var before := if windowStart > 0 then "... " else "";
    var after := if windowEnd < |line| then " ..." else "";
    w := Window(before + line[windowStart..windowEnd] + after,
                |before| + Less(startCol, windowStart), |before| + Less(highlightEnd, windowStart));
    assert Shows(w, line, startCol, endCol, windowStart, windowEnd);
  }

  /** In every window of an in-range highlight the character at the start column is the original
      one, and the highlight keeps its width. */
  lemma WindowAligned(w: Window, line: string, startCol: nat, endCol: nat, from: nat, to: nat)
    requires Shows(w, line, startCol, endCol, from, to) && from <= startCol < to
    ensures w.startCol < |w.text| && w.text[w.startCol] == line[startCol]
    ensures w.endCol - w.startCol == HighlightEnd(line, startCol, endCol) - startCol > 0
    ensures forall k :: from <= k < to ==> w.text[w.startCol + k - startCol] == line[k]
  {
    var before := if from > 0 then "... " else "";
    var rest := line[from..to] + if to < |line| then " ..." else "";
    assert w.text == before + rest;
    forall k | from <= k < to
      ensures w.text[|before| + (k - from)] == line[k]
    {
      assert rest[k - from] == line[from..to][k - from];
    }
  }

  /** The highlight does not always fit: 200 marked characters of a line of 300 get more carets than
      the window has text. */
  method CaretsOverrun() returns (line: string, w: Window)
    ensures |line| == 300 && w.startCol == 0 && w.endCol > |w.text|
  {
    line := seq(300, _ => 'x');
    w := NewWindow(line, 0, 200);
  }

  // ---------------------------------------------------------------------------
  // The caret under a byte offset
  // ---------------------------------------------------------------------------

  function ByteToCharCol(line: seq<Byte>, byte: nat): nat { CharCount(Slice(line, 0, Min(byte, |line|))) }

  /** The offset of the second character from `start` on, or one byte further if there is none. */
  function NextCharBoundary(input: seq<Byte>, start: nat): nat
    requires start <= |input|
  {
    var k := CharLen(input[start..]);
    if 0 < k && start + k < |input| then start + k else Min(|input|, start + 1)
  }

  lemma LineIsValid(input: seq<Byte>, line: nat)
    requires Valid(input) && line < |Starts(input)|
    ensures var r := LineRange(Starts(input), input, line);
            && r.start <= r.end <= |input| && IsBoundary(input, r.start) && IsBoundary(input, r.end)
            && Valid(input[r.start..r.end])
  {
    var r := LineRange(Starts(input), input, line);
    RangeLaw(input, line);
    LineStartIsBoundary(input, line);
    if r.start < |input| {
      StartIsNoTail(input, r.start);
    }
    SliceIsValid(input, r.start, r.end);
  }

  lemma SliceIsValid(input: seq<Byte>, from: nat, to: nat)
    requires Valid(input) && from <= to <= |input|
    requires from == |input| || !Tail(input[from])
    requires to == |input| || !Tail(input[to])
    ensures Valid(input[from..to])
  {
    BoundaryCut(input, from);
    assert input[from..][..to - from] == input[from..to];
    assert to < |input| ==> input[from..][to - from] == input[to];
    BoundaryCut(input[from..], to - from);
  }

  /** Also the first byte of valid text starts a character. */
  lemma StartIsNoTail(input: seq<Byte>, i: nat)
    requires Valid(input) && IsBoundary(input, i) && i < |input|
    ensures !Tail(input[i])
  {
    assert CharLen(input) > 0;
  }

  /** The character at an offset of a line, in the decoded line. */
  lemma LineCharacterAt(input: seq<Byte>, from: nat, to: nat, b: nat)
    requires from <= b < to <= |input| && Valid(input[from..to]) && !Tail(input[b]) && !Tail(input[from])
    ensures var line := input[from..to]; var column := ByteToCharCol(line, b - from);
            && column == CharCount(Slice(input, from, b)) < |Text(line)|
            && CharLen(input[b..]) > 0 && Text(line)[column] == CodePoint(input[b..])
  {
    var line := input[from..to];
    assert line[b - from] == input[b] && line[..b - from] == input[from..b];
    CharacterAt(line, b - from);
    SameCharacter(input, from, to, b);
    assert Slice(line, 0, b - from) == line[..b - from];
  }

  /** The character at an offset does not depend on what follows its line. */
  lemma SameCharacter(input: seq<Byte>, from: nat, to: nat, b: nat)
    requires from <= b < to <= |input| && CharLen(input[from..to][b - from..]) > 0
    ensures CharLen(input[b..]) > 0 && CodePoint(input[b..]) == CodePoint(input[from..to][b - from..])
  {
    assert input[from..to][b - from..] == input[b..to] && input[b..] == input[b..to] + input[to..];
    CharLenPrefix(input[b..to], input[to..]);
  }

  /** The first line of a label: positions in bytes, columns in characters, one clipped window. */
  method FirstLabelLine(input: seq<Byte>, spanStart: nat, spanEnd: nat) returns (line: nat, w: Window)
    requires Valid(input)
    requires Min(spanEnd, |input|) <= Min(spanStart, |input|) ==> IsBoundary(input, Min(spanStart, |input|))
    ensures var b := Min(spanStart, |input|);
            && line == Newlines(input[..b])
            && (b < |input| && IsBoundary(input, b) && input[b] != NEWLINE ==>
                  && CharLen(input[b..]) > 0
                  && w.startCol < |w.text| && w.text[w.startCol] == CodePoint(input[b..])
                  && w.startCol < w.endCol)
  {
    var lines := NewLineIndex(input);
    var start := Min(spanStart, |input|);
    var end := Max(Min(spanEnd, |input|), start);
    if end == start {
      end := NextCharBoundary(input, start);
    }
    line := LineCol(lines, input, start).line;
    var endLine := LineCol(lines, input, Less(end, 1)).line;
    var range := LineRange(lines, input, line);
    var text := Slice(input, range.start, range.end);
    var highlightEnd := if line == endLine then Less(end, range.start) else Less(range.end, range.start);
    var startCol := ByteToCharCol(text, Less(start, range.start));
    var endCol := Max(ByteToCharCol(text, highlightEnd), startCol + 1);
    LineColLaw(input, start);
    w := NewWindow(Text(text), startCol, endCol);
    if start < |input| && IsBoundary(input, start) && input[start] != NEWLINE {
      StartCharacter(input, start);
      ghost var from: nat, to: nat :| Shows(w, Text(text), startCol, endCol, from, to) && from <= startCol < to;
      WindowAligned(w, Text(text), startCol, endCol, from, to);
    }
  }

  /** In the line of an offset, the column of the offset is that of its character. */
  lemma StartCharacter(input: seq<Byte>, b: nat)
    requires Valid(input) && b < |input| && IsBoundary(input, b) && input[b] != NEWLINE
    ensures var r := LineRange(Starts(input), input, LineCol(Starts(input), input, b).line);
            var text := Slice(input, r.start, r.end); var column := ByteToCharCol(text, Less(b, r.start));
            && column == LineCol(Starts(input), input, b).column < |Text(text)|
            && CharLen(input[b..]) > 0 && Text(text)[column] == CodePoint(input[b..])
  {
    var line := Newlines(input[..b]);
    var r := LineRange(Starts(input), input, line);
    LineIsNewlines(input, b);
    LineIsValid(input, line);
    OffsetInLine(input, b);
    StartIsNoTail(input, b);
    StartIsNoTail(input, r.start);
    LineCharacterAt(input, r.start, r.end, b);
  }

  /** An offset that holds no newline stands before the end of its line. */
  lemma OffsetInLine(input: seq<Byte>, b: nat)
    requires b < |input| && input[b] != NEWLINE
    ensures var r := LineRange(Starts(input), input, Newlines(input[..b])); r.start <= b < r.end
  {
    LineIsNewlines(input, b);
    OffsetInRange(input, b);
    RangeLaw(input, Newlines(input[..b]));
  }
}
