/** UTF-8 well-formedness on bytes, after sections 3 and 4 of RFC 3629. */
module Utf8 {

  newtype Byte = b: int | 0 <= b < 0x100

  const LF: Byte := 10
  const CR: Byte := 13

  predicate Tail(b: Byte) { 0x80 <= b <= 0xBF }

  predicate TailsAt(s: seq<Byte>, from: nat, to: nat) {
    to <= |s| && forall k :: from <= k < to ==> Tail(s[k])
  }

  /** Length of the well-formed character at the head of `s`; 0 when there is none. */
  function CharLen(s: seq<Byte>): (n: nat)
    ensures n <= |s| && n <= 4
    ensures n == 1 ==> s[0] < 0x80
    ensures n > 1 ==> s[0] >= 0xC2 && TailsAt(s, 1, n)
  {
    if s == [] then 0
    else if s[0] < 0x80 then 1
    else if 0xC2 <= s[0] <= 0xDF then
      if TailsAt(s, 1, 2) then 2 else 0
    else if 0xE0 <= s[0] <= 0xEF then
      if TailsAt(s, 1, 3) && (s[0] == 0xE0 ==> s[1] >= 0xA0) && (s[0] == 0xED ==> s[1] <= 0x9F) then 3 else 0
    else if 0xF0 <= s[0] <= 0xF4 then
      if TailsAt(s, 1, 4) && (s[0] == 0xF0 ==> s[1] >= 0x90) && (s[0] == 0xF4 ==> s[1] <= 0x8F) then 4 else 0
    else 0
  }

  /** Number of bytes before the first ill-formed character. */
  function ValidUpTo(s: seq<Byte>): (n: nat)
    ensures n <= |s|
    decreases |s|
  {
    var k := CharLen(s);
    if k == 0 then 0 else k + ValidUpTo(s[k..])
  }

  predicate Valid(s: seq<Byte>) { ValidUpTo(s) == |s| }

  /** The character at the head of `s`, decoded as section 3 of RFC 3629 says. */
  function CodePoint(s: seq<Byte>): char
    requires CharLen(s) > 0
  {
    if CharLen(s) == 1 then s[0] as int as char
    else if CharLen(s) == 2 then ((s[0] as int - 0xC0) * 0x40 + Six(s[1])) as char
    else if CharLen(s) == 3 then ((s[0] as int - 0xE0) * 0x1000 + Six(s[1]) * 0x40 + Six(s[2])) as char
    else ((s[0] as int - 0xF0) * 0x4_0000 + Six(s[1]) * 0x1000 + Six(s[2]) * 0x40 + Six(s[3])) as char
  }

  /** The six bits a tail byte carries. */
  function Six(b: Byte): (n: nat)
    requires Tail(b)
    ensures n < 0x40
  {
    b as int - 0x80
  }

  /** The text that well-formed bytes stand for. */
  function Text(s: seq<Byte>): string
    decreases |s|
  {
    if CharLen(s) == 0 then "" else [CodePoint(s)] + Text(s[CharLen(s)..])
  }

  /** Every byte below 0x80 is a character of its own. */
  predicate Ascii(s: seq<Byte>) { forall b :: b in s ==> b < 0x80 }

  lemma CharLenPrefix(s: seq<Byte>, t: seq<Byte>)
    requires CharLen(s) > 0
    ensures CharLen(s + t) == CharLen(s) && CodePoint(s + t) == CodePoint(s)
  {
    assert forall k :: 0 <= k < |s| ==> (s + t)[k] == s[k];
  }

  /** A character needs its own bytes only. */
  lemma CharLenCut(s: seq<Byte>, n: nat)
    requires CharLen(s) > 0 && CharLen(s) <= n <= |s|
    ensures CharLen(s[..n]) == CharLen(s)
  {
    assert forall k :: 0 <= k < n ==> s[..n][k] == s[k];
  }

  /** A boundary splits well-formed bytes into well-formed bytes. */
  lemma {:induction false} BoundaryCut(s: seq<Byte>, p: nat)
    requires Valid(s) && (p == |s| || (p < |s| && !Tail(s[p])))
    ensures Valid(s[..p]) && Valid(s[p..])
    decreases |s|
  {
    var k := CharLen(s);
    if p == 0 {
      assert s[p..] == s;
    } else {
      assert k <= p;
      assert s[k..][..p - k] == s[..p][k..] && s[k..][p - k..] == s[p..];
      BoundaryCut(s[k..], p - k);
      CharLenCut(s, p);
    }
  }

  /** Behind a well-formed string, validity is decided by what follows. */
  lemma {:induction false} ValidAppend(s: seq<Byte>, t: seq<Byte>)
    requires Valid(s)
    ensures ValidUpTo(s + t) == |s| + ValidUpTo(t)
    ensures Valid(s + t) <==> Valid(t)
    decreases |s|
  {
    var k := CharLen(s);
    if s == [] {
      assert s + t == t;
    } else {
      CharLenPrefix(s, t);
      assert (s + t)[k..] == s[k..] + t;
      ValidAppend(s[k..], t);
    }
  }

  lemma {:induction false} AsciiValid(s: seq<Byte>)
    requires Ascii(s)
    ensures Valid(s)
  {
    if s != [] {
      assert s[0] in s;
      assert forall b :: b in s[1..] ==> b in s;
      AsciiValid(s[1..]);
    }
  }
}
