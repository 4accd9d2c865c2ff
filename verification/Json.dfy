/** JSON values, and the text form as a pair of functions a caller supplies. */
module Json {
  import opened Prelude

  datatype Value =
    | Null
    | Bool(b: bool)
    | Int(n: int)
    | Float(r: real)
    | Str(s: string)
    | Arr(items: seq<Value>)
    | Obj(fields: map<string, Value>)
  {
    function Get(key: string): Option<Value> {
      if Obj? && key in fields then Some(fields[key]) else None
    }

    function AsStr(): Option<string> {
      if Str? then Some(s) else None
    }

    function GetStr(key: string): Option<string> {
      match Get(key) case Some(v) => v.AsStr() case None => None
    }

    function GetStrOr(key: string, default: string): string {
      match GetStr(key) case Some(v) => v case None => default
    }

    /** Insert a field; a value that is no object stays as it is. */
    function SetField(key: string, next: Value): Value {
      if Obj? then Obj(fields[key := next]) else this
    }

    /** Append to a string field, creating it when absent; any other value stays as it is. */
    function AppendStringField(key: string, delta: string): Value {
      if !Obj? then this
      else if key !in fields then Obj(fields[key := Str(delta)])
      else if fields[key].Str? then Obj(fields[key := Str(fields[key].s + delta)])
      else this
    }
  }

  /** The characters with the Unicode White_Space property. */
  predicate IsWhitespace(c: char) {
    || '\t' <= c <= '\r' || c == ' '
    || c in {'\U{85}', '\U{A0}', '\U{1680}', '\U{2028}', '\U{2029}', '\U{202F}', '\U{205F}', '\U{3000}'}
    || '\U{2000}' <= c <= '\U{200A}'
  }

  /** str::trim leaves nothing of it. */
  predicate IsBlank(s: string) { forall c :: c in s ==> IsWhitespace(c) }

  const EMPTY: Value := Obj(map[])

  /** Reading and writing JSON text. */
  datatype Codec = Codec(parse: string -> Option<Value>, render: Value -> string)
  {
    /** The empty object parses back from its text, and blank text is no JSON. */
    ghost predicate Lawful() {
      && parse(render(EMPTY)) == Some(EMPTY)
      && (forall s: string :: IsBlank(s) ==> parse(s).None?)
    }

    lemma EmptyIsNotBlank()
      requires Lawful()
      ensures !IsBlank(render(EMPTY))
    {}
  }

  /** A codec that knows a few texts, and prints everything as the empty object. */
  function TableCodec(table: map<string, Value>): Codec {
    Codec(s => if s in table then Some(table[s]) else None, v => "{}")
  }

  /** Lawful codecs exist, for any further texts they are to read. */
  lemma TableCodecLawful(table: map<string, Value>)
    requires "{}" in table && table["{}"] == EMPTY
    requires forall s :: s in table ==> !IsBlank(s)
    ensures TableCodec(table).Lawful()
  {}
}
