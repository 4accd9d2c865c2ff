/** config_path and toml_key of crates/chudbot-bin/src/diagnostics.rs, with a reader that undoes
    them. */
module ConfigPath {
  import opened Prelude
  import Decimal

  datatype PathPart = Key(name: string) | Index(index: nat)

  predicate IsBareChar(c: char) { 'a' <= c <= 'z' || 'A' <= c <= 'Z' || '0' <= c <= '9' || c == '_' || c == '-' }

  predicate IsBare(name: string) { name != "" && forall c :: c in name ==> IsBareChar(c) }

  function Escape(c: char): string {
    if c == '\\' then "\\\\"
    else if c == '"' then "\\\""
    else if c == '\n' then "\\n"
    else if c == '\r' then "\\r"
    else if c == '\t' then "\\t"
    else [c]
  }

  function EscapeAll(name: string): string {
    if name == "" then "" else EscapeAll(Init(name)) + Escape(Latest(name))
  }

  function KeyText(name: string): string {
    if IsBare(name) then name else "\"" + EscapeAll(name) + "\""
  }

  method TomlKey(value: string) returns (text: string)
    ensures text == KeyText(value)
  {
    if value != "" && forall c :: c in value ==> IsBareChar(c) {
      return value;
    }
    text := "\"";
    for k := 0 to |value|
      invariant text == "\"" + EscapeAll(value[..k])
    {
      assert Init(value[..k + 1]) == value[..k];
      text := text + Escape(value[k]);
    }
    assert value[..|value|] == value;
    text := text + "\"";
  }

  /** The text of one part; a key behind something else is set off by a dot. */
  function PartText(part: PathPart, first: bool): string {
    match part
    case Key(name) => (if first then "" else ".") + KeyText(name)
    case Index(i) => "[" + Decimal.Print(i) + "]"
  }

  function PartsText(parts: seq<PathPart>): string {
    if parts == [] then "" else PartsText(Init(parts)) + PartText(Latest(parts), PartsText(Init(parts)) == "")
  }

  const TOP_LEVEL := "top level"

  function PathText(parts: seq<PathPart>): string { if PartsText(parts) == "" then TOP_LEVEL else PartsText(parts) }

  lemma NextPart(parts: seq<PathPart>, k: nat)
    requires k < |parts|
    ensures var out := PartsText(parts[..k]);
            PartsText(parts[..k + 1]) ==
            match parts[k] {
              case Key(name) => (if out != "" then out + "." else out) + KeyText(name)
              case Index(i) => out + ("[" + Decimal.Print(i) + "]")
            }
  {
    var out := PartsText(parts[..k]);
    assert Init(parts[..k + 1]) == parts[..k];
    if parts[k].Key? {
      Assoc(out, ".", KeyText(parts[k].name));
      assert "" + KeyText(parts[k].name) == KeyText(parts[k].name);
    }
  }

  method ConfigPathText(parts: seq<PathPart>) returns (out: string)
    ensures out == PathText(parts)
  {
    out := "";
    for k := 0 to |parts|
      invariant out == PartsText(parts[..k])
    {
      NextPart(parts, k);
      match parts[k] {
        case Key(key) =>
          if out != "" {
            out := out + ".";
          }
          var text := TomlKey(key);
          out := out + text;
        case Index(index) =>
          out := out + ("[" + Decimal.Print(index) + "]");
      }
    }
    assert parts[..|parts|] == parts;
    if out == "" {
      return TOP_LEVEL;
    }
  }

  // ---------------------------------------------------------------------------
  // Reading a path back
  // ---------------------------------------------------------------------------

  /** Length of the longest prefix of bare characters, and of digits. */
  function BareLen(s: string): (n: nat)
    ensures n <= |s|
  {
    if s == "" || !IsBareChar(s[0]) then 0 else 1 + BareLen(s[1..])
  }

  function DigitsLen(s: string): (n: nat)
    ensures n <= |s| && forall c :: c in s[..n] ==> Decimal.IsDigit(c)
  {
    if s == "" || !Decimal.IsDigit(s[0]) then 0 else 1 + DigitsLen(s[1..])
  }

  function Unescape(c: char): char {
    if c == 'n' then '\n' else if c == 'r' then '\r' else if c == 't' then '\t' else c
  }

  /** A value and the text behind it. */
  datatype Read<T> = Read(value: T, rest: string)

  /** Behind an opening quote: the name up to the closing quote. */
  function Quoted(s: string): Option<Read<string>> {
    if s == "" then None
    else if s[0] == '"' then Some(Read("", s[1..]))
    else if s[0] == '\\' then
      if |s| < 2 then None
      else match Quoted(s[2..]) case None => None case Some(r) => Some(Read([Unescape(s[1])] + r.value, r.rest))
    else match Quoted(s[1..]) case None => None case Some(r) => Some(Read([s[0]] + r.value, r.rest))
  }

  function ReadKey(s: string): Option<Read<string>> {
    if s != "" && s[0] == '"' then Quoted(s[1..])
    else if BareLen(s) == 0 then None
    else Some(Read(s[..BareLen(s)], s[BareLen(s)..]))
  }

  function ReadIndex(s: string): Option<Read<nat>> {
    var n := DigitsLen(s);
    if 0 < n < |s| && s[n] == ']' then Some(Read(Decimal.Read(s[..n]), s[n + 1..])) else None
  }

  function ReadPart(s: string, first: bool): Option<Read<PathPart>> {
    if s != "" && s[0] == '[' then
      match ReadIndex(s[1..]) case None => None case Some(r) => Some(Read(Index(r.value), r.rest))
    else if !first && (s == "" || s[0] != '.') then None
    else
      match ReadKey(if first then s else s[1..])
      case None => None
      case Some(r) => Some(Read(Key(r.value), r.rest))
  }

  function ReadParts(s: string, first: bool): Option<seq<PathPart>>
    decreases |s|
  {
    if s == "" then Some([])
    else
      match ReadPart(s, first)
      case None => None
      case Some(r) =>
        if |r.rest| >= |s| then None
        else match ReadParts(r.rest, false) case None => None case Some(parts) => Some([r.value] + parts)
  }

  function ReadPath(text: string): Option<seq<PathPart>> {
    if text == TOP_LEVEL then Some([]) else ReadParts(text, true)
  }

  // ---------------------------------------------------------------------------
  // The reader undoes the printer
  // ---------------------------------------------------------------------------

  /** Text that can stand behind a part. */
  predicate Separated(rest: string) { rest == "" || rest[0] == '.' || rest[0] == '[' }

  lemma {:induction false} BareLenStops(name: string, rest: string)
    requires forall c :: c in name ==> IsBareChar(c)
    requires rest == "" || !IsBareChar(rest[0])
    ensures BareLen(name + rest) == |name|
  {
    if name == "" {
      assert name + rest == rest;
    } else {
      assert name[0] in name && (name + rest)[1..] == name[1..] + rest;
      BareLenStops(name[1..], rest);
    }
  }

  lemma {:induction false} DigitsLenStops(digits: string, rest: string)
    requires forall c :: c in digits ==> Decimal.IsDigit(c)
    requires rest == "" || !Decimal.IsDigit(rest[0])
    ensures DigitsLen(digits + rest) == |digits|
  {
    if digits == "" {
      assert digits + rest == rest;
    } else {
      assert digits[0] in digits && (digits + rest)[1..] == digits[1..] + rest;
      DigitsLenStops(digits[1..], rest);
    }
  }

  lemma {:induction false} EscapeFront(name: string)
    requires name != ""
    ensures EscapeAll(name) == Escape(name[0]) + EscapeAll(name[1..])
  {
    if |name| == 1 {
      assert Init(name) == "" && name[1..] == "";
    } else {
      EscapeFront(Init(name));
      assert Init(name)[1..] == Init(name[1..]);
      Assoc(Escape(name[0]), EscapeAll(Init(name[1..])), Escape(Latest(name)));
    }
  }

  lemma QuotedPlain(c: char, s: string)
    requires c != '"' && c != '\\'
    ensures Quoted([c] + s) == match Quoted(s) { case None => None case Some(r) => Some(Read([c] + r.value, r.rest)) }
  {
    assert ([c] + s)[1..] == s;
  }

  lemma QuotedEscaped(c: char, s: string)
    ensures Quoted(['\\', c] + s) ==
            match Quoted(s) { case None => None case Some(r) => Some(Read([Unescape(c)] + r.value, r.rest)) }
  {
    assert (['\\', c] + s)[2..] == s;
  }

  /** Every escape reads back as its character. */
  lemma QuotedEscape(c: char, s: string)
    ensures Quoted(Escape(c) + s) ==
            match Quoted(s) { case None => None case Some(r) => Some(Read([c] + r.value, r.rest)) }
  {
    if c == '\\' {
      QuotedEscaped('\\', s);
    } else if c == '"' {
      QuotedEscaped('"', s);
    } else if c == '\n' {
      QuotedEscaped('n', s);
    } else if c == '\r' {
      QuotedEscaped('r', s);
    } else if c == '\t' {
      QuotedEscaped('t', s);
    } else {
      QuotedPlain(c, s);
    }
  }

  lemma {:induction false} QuotedReads(name: string, rest: string)
    ensures Quoted(EscapeAll(name) + ("\"" + rest)) == Some(Read(name, rest))
  {
    if name == "" {
      assert EscapeAll(name) + ("\"" + rest) == "\"" + rest;
      assert ("\"" + rest)[1..] == rest;
    } else {
      EscapeFront(name);
      Assoc(Escape(name[0]), EscapeAll(name[1..]), "\"" + rest);
      QuotedReads(name[1..], rest);
      QuotedEscape(name[0], EscapeAll(name[1..]) + ("\"" + rest));
      assert [name[0]] + name[1..] == name;
    }
  }

  lemma BareKeyReads(name: string, rest: string)
    requires IsBare(name) && Separated(rest)
    ensures ReadKey(name + rest) == Some(Read(name, rest))
  {
    var text := name + rest;
    assert name[0] in name && text[0] == name[0];
    BareLenStops(name, rest);
    assert text[..|name|] == name && text[|name|..] == rest;
  }

  lemma OpenQuote(s: string)
    ensures ReadKey("\"" + s) == Quoted(s)
  {
    assert ("\"" + s)[0] == '"' && ("\"" + s)[1..] == s;
  }

  lemma QuotedKeyReads(name: string, rest: string)
    ensures ReadKey("\"" + EscapeAll(name) + "\"" + rest) == Some(Read(name, rest))
  {
    QuotedReads(name, rest);
    OpenQuote(EscapeAll(name) + ("\"" + rest));
    Assoc("\"" + EscapeAll(name), "\"", rest);
    Assoc("\"", EscapeAll(name), "\"" + rest);
  }

  lemma KeyReads(name: string, rest: string)
    requires Separated(rest)
    ensures ReadKey(KeyText(name) + rest) == Some(Read(name, rest))
  {
    if IsBare(name) {
      BareKeyReads(name, rest);
    } else {
      QuotedKeyReads(name, rest);
    }
  }

  lemma KeyStarts(name: string)
    ensures KeyText(name) != "" && KeyText(name)[0] != '['
  {
    if IsBare(name) {
      assert name[0] in name;
    } else {
      assert KeyText(name)[0] == '"';
    }
  }

  lemma IndexReads(i: nat, rest: string)
    ensures ReadIndex(Decimal.Print(i) + ("]" + rest)) == Some(Read(i, rest))
  {
    var digits, text := Decimal.Print(i), Decimal.Print(i) + ("]" + rest);
    DigitsLenStops(digits, "]" + rest);
    assert text[..|digits|] == digits && text[|digits| + 1..] == rest;
    Decimal.ReadPrint(i);
  }

  lemma DotThenKey(s: string)
    ensures ReadPart("." + s, false) ==
            match ReadKey(s) { case None => None case Some(r) => Some(Read(Key(r.value), r.rest)) }
  {
    assert ("." + s)[0] == '.' && ("." + s)[1..] == s;
  }

  lemma KeyPartReads(name: string, first: bool, rest: string)
    requires Separated(rest)
    ensures ReadPart(PartText(Key(name), first) + rest, first) == Some(Read(Key(name), rest))
  {
    var key := KeyText(name);
    KeyReads(name, rest);
    KeyStarts(name);
    if first {
      assert "" + key == key && (key + rest)[0] == key[0];
    } else {
      DotThenKey(key + rest);
      Assoc(".", key, rest);
    }
  }

  lemma BracketThenIndex(s: string, first: bool)
    ensures ReadPart("[" + s, first) ==
            match ReadIndex(s) { case None => None case Some(r) => Some(Read(Index(r.value), r.rest)) }
  {
    assert ("[" + s)[0] == '[' && ("[" + s)[1..] == s;
  }

  lemma IndexPartReads(i: nat, first: bool, rest: string)
    ensures ReadPart(PartText(Index(i), first) + rest, first) == Some(Read(Index(i), rest))
  {
    var digits := Decimal.Print(i);
    Assoc("[" + digits, "]", rest);
    Assoc("[", digits, "]" + rest);
    BracketThenIndex(digits + ("]" + rest), first);
    IndexReads(i, rest);
  }

  lemma PartReads(part: PathPart, first: bool, rest: string)
    requires Separated(rest)
    ensures ReadPart(PartText(part, first) + rest, first) == Some(Read(part, rest))
  {
    match part {
      case Key(name) => KeyPartReads(name, first, rest);
      case Index(i) => IndexPartReads(i, first, rest);
    }
  }

  /** A part prints some text, which sets it off when it is not the first. */
  lemma PartStarts(part: PathPart, first: bool)
    ensures PartText(part, first) != "" && (!first ==> Separated(PartText(part, first)))
  {
    match part {
      case Key(name) => KeyStarts(name);
      case Index(i) => assert PartText(part, first)[0] == '[';
    }
  }

  /** Parts behind something else, read from the front. */
  function Behind(parts: seq<PathPart>): string {
    if parts == [] then "" else PartText(parts[0], false) + Behind(parts[1..])
  }

  lemma {:induction false} BehindSnoc(parts: seq<PathPart>, part: PathPart)
    ensures Behind(parts + [part]) == Behind(parts) + PartText(part, false)
  {
    if parts == [] {
      assert [] + [part] == [part] && [part][1..] == [];
      assert Behind([part]) == PartText(part, false) + "";
    } else {
      assert (parts + [part])[0] == parts[0] && (parts + [part])[1..] == parts[1..] + [part];
      BehindSnoc(parts[1..], part);
      Assoc(PartText(parts[0], false), Behind(parts[1..]), PartText(part, false));
    }
  }

  lemma PartsTextSnoc(parts: seq<PathPart>, part: PathPart)
    requires PartsText(parts) != ""
    ensures PartsText(parts + [part]) == PartsText(parts) + PartText(part, false)
  {
    assert Init(parts + [part]) == parts;
  }

  lemma PartsTextOne(part: PathPart)
    ensures PartsText([part]) == PartText(part, true)
  {
    assert Init([part]) == [] && Latest([part]) == part;
    assert "" + PartText(part, true) == PartText(part, true);
  }

  lemma {:induction false} PartsTextFront(part: PathPart, parts: seq<PathPart>)
    ensures PartsText([part] + parts) == PartText(part, true) + Behind(parts) && PartsText([part] + parts) != ""
    decreases |parts|
  {
    PartStarts(part, true);
    if parts == [] {
      PartsTextOne(part);
      assert [part] + parts == [part] && PartText(part, true) + "" == PartText(part, true);
    } else {
      var front, last := Init(parts), Latest(parts);
      assert parts == front + [last];
      Assoc([part], front, [last]);
      PartsTextFront(part, front);
      PartsTextSnoc([part] + front, last);
      BehindSnoc(front, last);
      Assoc(PartText(part, true), Behind(front), PartText(last, false));
    }
  }

  /** A part in front of a text that reads as some parts. */
  lemma OneMoreReads(part: PathPart, parts: seq<PathPart>, first: bool, rest: string)
    requires Separated(rest) && ReadParts(rest, false) == Some(parts)
    ensures ReadParts(PartText(part, first) + rest, first) == Some([part] + parts)
    ensures !first ==> Separated(PartText(part, first) + rest)
  {
    PartReads(part, first, rest);
    PartStarts(part, first);
    var text := PartText(part, first) + rest;
    assert text != "" && text[0] == PartText(part, first)[0];
  }

  lemma {:induction false} BehindReads(parts: seq<PathPart>)
    ensures Separated(Behind(parts)) && ReadParts(Behind(parts), false) == Some(parts)
  {
    if parts != [] {
      BehindReads(parts[1..]);
      OneMoreReads(parts[0], parts[1..], false, Behind(parts[1..]));
      assert [parts[0]] + parts[1..] == parts;
    }
  }

  lemma PartsRead(parts: seq<PathPart>)
    ensures ReadParts(PartsText(parts), true) == Some(parts)
  {
    if parts != [] {
      PartsTextFront(parts[0], parts[1..]);
      BehindReads(parts[1..]);
      OneMoreReads(parts[0], parts[1..], true, Behind(parts[1..]));
      assert [parts[0]] + parts[1..] == parts;
    }
  }

  /** No path of parts prints as the text of the empty path. */
  lemma TopLevelIsFree()
    ensures ReadParts(TOP_LEVEL, true).None?
  {
    BareLenStops("top", " level");
    assert TOP_LEVEL == "top" + " level";
    assert TOP_LEVEL[..3] == "top" && TOP_LEVEL[3..] == " level";
    assert ReadPart(" level", false).None?;
  }

  /** The reader recovers every path from its printed form, dotted, quoted, empty and indexed
      parts and the empty path included. */
  lemma PathReadsBack(parts: seq<PathPart>)
    ensures ReadPath(PathText(parts)) == Some(parts)
  {
    PartsRead(parts);
    TopLevelIsFree();
    if parts != [] {
      PartsTextFront(parts[0], parts[1..]);
      assert [parts[0]] + parts[1..] == parts;
    }
  }

  /** Hence different paths never print alike. */
  lemma PathInjective(p: seq<PathPart>, q: seq<PathPart>)
    ensures PathText(p) == PathText(q) <==> p == q
  {
    PathReadsBack(p);
    PathReadsBack(q);
  }
}
