/** edit_distance of crates/chudbot-bin/src/diagnostics.rs: one rolling row of costs, and what
    the number it returns means. */
module EditDistance {
  import opened Prelude

  /** One more edit, or none when the last characters agree. */
  function Best(above: nat, before: nat, diagonal: nat, same: bool): nat {
    Min(Min(above + 1, before + 1), diagonal + if same then 0 else 1)
  }

  /** The cost table, read from the ends of both words. */
  function Lev(a: string, b: string): nat
    decreases |a| + |b|
  {
    if a == [] then |b|
    else if b == [] then |a|
    else
      Best(Lev(Init(a), b), Lev(a, Init(b)), Lev(Init(a), Init(b)), Latest(a) == Latest(b))
  }

  /** The same, by prefix lengths. */
  function Cell(a: string, b: string, i: nat, j: nat): nat
    requires i <= |a| && j <= |b|
    decreases i + j
  {
    if i == 0 then j
    else if j == 0 then i
    else Best(Cell(a, b, i - 1, j), Cell(a, b, i, j - 1), Cell(a, b, i - 1, j - 1), a[i - 1] == b[j - 1])
  }

  predicate Starts(p: string, word: string) { |p| <= |word| && forall k :: 0 <= k < |p| ==> p[k] == word[k] }

  lemma StartsShorter(p: string, word: string)
    requires Starts(p, word) && p != []
    ensures Starts(Init(p), word) && |Init(p)| == |p| - 1 && Latest(p) == word[|p| - 1]
  {}

  lemma {:induction false} CellIsLev(a: string, b: string, p: string, q: string)
    requires Starts(p, a) && Starts(q, b)
    ensures Cell(a, b, |p|, |q|) == Lev(p, q)
    decreases |p| + |q|
  {
    if p != [] && q != [] {
      StartsShorter(p, a);
      StartsShorter(q, b);
      CellIsLev(a, b, Init(p), q);
      CellIsLev(a, b, p, Init(q));
      CellIsLev(a, b, Init(p), Init(q));
      CellStep(a, b, |p| - 1, |q| - 1);
    }
  }

  lemma CellStep(a: string, b: string, i: nat, j: nat)
    requires i < |a| && j < |b|
    ensures Cell(a, b, i + 1, j + 1) ==
            Best(Cell(a, b, i, j + 1), Cell(a, b, i + 1, j), Cell(a, b, i, j), a[i] == b[j])
  {}

  /** Columns before `done` hold the next row, the others the current one. */
  predicate HalfDone(left: string, right: string, i: nat, done: nat, row: seq<nat>)
    requires i < |left| && done <= |row| == |right| + 1
  {
    && (forall k {:trigger row[k]} :: 0 <= k < done ==> row[k] == Cell(left, right, i + 1, k))
    && (forall k {:trigger row[k]} :: done <= k < |row| ==> row[k] == Cell(left, right, i, k))
  }

  lemma OneMoreDone(left: string, right: string, i: nat, j: nat, row: seq<nat>, next: nat)
    requires i < |left| && j < |right| && |row| == |right| + 1 && HalfDone(left, right, i, j + 1, row)
    requires next == Best(row[j + 1], row[j], Cell(left, right, i, j), left[i] == right[j])
    ensures HalfDone(left, right, i, j + 2, row[j + 1 := next])
  {
    CellStep(left, right, i, j);
  }

  /** One row of the table is overwritten by the next, left to right. */
  method NextRow(left: string, right: string, i: nat, costs: array<nat>)
    requires i < |left| && costs.Length == |right| + 1
    requires forall k {:trigger costs[k]} :: 0 <= k < costs.Length ==> costs[k] == Cell(left, right, i, k)
    modifies costs
    ensures forall k {:trigger costs[k]} :: 0 <= k < costs.Length ==> costs[k] == Cell(left, right, i + 1, k)
  {
    var previous := costs[0];
    costs[0] := i + 1;
    for j := 0 to |right|
      invariant previous == Cell(left, right, i, j)
      invariant HalfDone(left, right, i, j + 1, costs[..])
    {
      var insertion := costs[j + 1] + 1;
      var deletion := costs[j] + 1;
      var substitution := previous + if left[i] != right[j] then 1 else 0;
      ghost var row := costs[..];
      assert row[j + 1] == costs[j + 1] && row[j] == costs[j];
      previous := costs[j + 1];
      costs[j + 1] := Min(Min(insertion, deletion), substitution);
      assert costs[..] == row[j + 1 := costs[j + 1]];
      OneMoreDone(left, right, i, j, row, costs[j + 1]);
    }
    assert forall k :: 0 <= k < costs.Length ==> costs[k] == costs[..][k];
  }

  method Distance(left: string, right: string) returns (distance: nat)
    ensures distance == Lev(left, right)
  {
    var costs := new nat[|right| + 1](k => k);
    for i := 0 to |left|
      invariant forall k {:trigger costs[k]} :: 0 <= k < costs.Length ==> costs[k] == Cell(left, right, i, k)
    {
      NextRow(left, right, i, costs);
    }
    CellIsLev(left, right, left, right);
    return costs[|right|];
  }

  // ---------------------------------------------------------------------------
  // Edit scripts
  // ---------------------------------------------------------------------------

  /** One edit of a word, at any position. */
  datatype Edit = Insert(at: nat, c: char) | Delete(at: nat) | Substitute(at: nat, c: char)

  predicate Applies(e: Edit, word: string) { if e.Insert? then e.at <= |word| else e.at < |word| }

  function Edited(e: Edit, word: string): string
    requires Applies(e, word)
  {
    match e
    case Insert(at, c) => word[..at] + [c] + word[at..]
    case Delete(at) => word[..at] + word[at + 1..]
    case Substitute(at, c) => word[..at] + [c] + word[at + 1..]
  }

  /** The script turns `a` into `b`, one edit after the other. */
  predicate Turns(script: seq<Edit>, a: string, b: string) {
    if script == [] then a == b
    else Applies(script[0], a) && Turns(script[1..], Edited(script[0], a), b)
  }

  lemma {:induction false} TurnsThen(s: seq<Edit>, t: seq<Edit>, a: string, b: string, c: string)
    requires Turns(s, a, b) && Turns(t, b, c)
    ensures Turns(s + t, a, c)
  {
    if s == [] {
      assert s + t == t;
    } else {
      assert (s + t)[0] == s[0] && (s + t)[1..] == s[1..] + t;
      TurnsThen(s[1..], t, Edited(s[0], a), b, c);
    }
  }

  lemma EditedInFront(e: Edit, word: string, tail: string)
    requires Applies(e, word)
    ensures Applies(e, word + tail) && Edited(e, word + tail) == Edited(e, word) + tail
  {
    assert (word + tail)[..e.at] == word[..e.at];
    match e {
      case Insert(at, c) => assert (word + tail)[at..] == word[at..] + tail;
      case Delete(at) => assert (word + tail)[at + 1..] == word[at + 1..] + tail;
      case Substitute(at, c) => assert (word + tail)[at + 1..] == word[at + 1..] + tail;
    }
  }

  lemma {:induction false} TurnsInFront(s: seq<Edit>, a: string, b: string, tail: string)
    requires Turns(s, a, b)
    ensures Turns(s, a + tail, b + tail)
  {
    if s != [] {
      EditedInFront(s[0], a, tail);
      TurnsInFront(s[1..], Edited(s[0], a), b, tail);
    }
  }

  lemma TurnsByOne(e: Edit, a: string)
    requires Applies(e, a)
    ensures Turns([e], a, Edited(e, a))
  {
    assert [e][1..] == [];
  }

  // ---------------------------------------------------------------------------
  // A script of that length exists
  // ---------------------------------------------------------------------------

  lemma InsertLast(script: seq<Edit>, a: string, b: string) returns (longer: seq<Edit>)
    requires b != [] && Turns(script, a, Init(b))
    ensures Turns(longer, a, b) && |longer| == |script| + 1
  {
    var last := Insert(|b| - 1, Latest(b));
    TurnsByOne(last, Init(b));
    assert Edited(last, Init(b)) == b;
    TurnsThen(script, [last], a, Init(b), b);
    longer := script + [last];
  }

  lemma DeleteFirst(script: seq<Edit>, a: string, b: string) returns (longer: seq<Edit>)
    requires a != [] && Turns(script, Init(a), b)
    ensures Turns(longer, a, b) && |longer| == |script| + 1
  {
    var first := Delete(|a| - 1);
    TurnsByOne(first, a);
    assert Edited(first, a) == Init(a);
    TurnsThen([first], script, a, Init(a), b);
    longer := [first] + script;
  }

  lemma SubstituteOne(front: string, c: char, d: char)
    ensures Turns([Substitute(|front|, d)], front + [c], front + [d])
  {
    var edit := Substitute(|front|, d);
    TurnsByOne(edit, front + [c]);
    assert (front + [c])[..|front|] == front && (front + [c])[|front| + 1..] == [];
    assert Edited(edit, front + [c]) == front + [d];
  }

  lemma SubstituteLast(script: seq<Edit>, a: string, c: char, b: string, d: char) returns (longer: seq<Edit>)
    requires Turns(script, a, b)
    ensures Turns(longer, a + [c], b + [d]) && |longer| == |script| + if c != d then 1 else 0
  {
    TurnsInFront(script, a, b, [c]);
    longer := script;
    if c != d {
      SubstituteOne(b, c, d);
      longer := script + [Substitute(|b|, d)];
      TurnsThen(script, [Substitute(|b|, d)], a + [c], b + [c], b + [d]);
    }
  }

  lemma SplitLast(word: string)
    requires word != []
    ensures Init(word) + [Latest(word)] == word
  {}

  lemma KeepOrSubstitute(script: seq<Edit>, a: string, b: string) returns (longer: seq<Edit>)
    requires a != [] && b != [] && Turns(script, Init(a), Init(b))
    ensures Turns(longer, a, b) && |longer| == |script| + if Latest(a) != Latest(b) then 1 else 0
  {
    longer := SubstituteLast(script, Init(a), Latest(a), Init(b), Latest(b));
    SplitLast(a);
    SplitLast(b);
  }

  lemma {:induction false} ScriptExists(a: string, b: string) returns (script: seq<Edit>)
    ensures Turns(script, a, b) && |script| == Lev(a, b)
    decreases |a| + |b|
  {
    if a == [] && b == [] {
      script := [];
    } else if b != [] && (a == [] || Lev(a, b) == Lev(a, Init(b)) + 1) {
      script := ScriptExists(a, Init(b));
      script := InsertLast(script, a, b);
    } else if b == [] || Lev(a, b) == Lev(Init(a), b) + 1 {
      script := ScriptExists(Init(a), b);
      script := DeleteFirst(script, a, b);
    } else {
      script := ScriptExists(Init(a), Init(b));
      script := KeepOrSubstitute(script, a, b);
    }
  }

  // ---------------------------------------------------------------------------
  // No script is shorter
  // ---------------------------------------------------------------------------

  lemma {:induction false} LevSame(a: string)
    ensures Lev(a, a) == 0
  {
    if a != [] {
      LevSame(Init(a));
    }
  }

  /** Appending one character costs at most one. */
  lemma LevGrowsLeft(a: string, c: char, b: string)
    ensures Lev(a + [c], b) <= Lev(a, b) + 1
    ensures b != [] ==> Lev(a + [c], b) <= Lev(a, Init(b)) + 1
  {
    assert Init(a + [c]) == a;
  }

  lemma LevGrowsRight(a: string, b: string)
    requires b != []
    ensures Lev(a, b) <= Lev(a, Init(b)) + 1
  {}

  /** Dropping the last character costs at most one. */
  lemma {:induction false} LevShrinks(a: string, c: char, b: string)
    ensures Lev(a, b) <= Lev(a + [c], b) + 1
    decreases |b|
  {
    assert Init(a + [c]) == a;
    if b != [] {
      LevShrinks(a, c, Init(b));
      LevGrowsRight(a, b);
    }
  }

  /** Changing the last character costs at most one. */
  lemma {:induction false} LevChanges(a: string, c: char, d: char, b: string)
    ensures Lev(a + [c], b) <= Lev(a + [d], b) + 1
    decreases |b|
  {
    assert Init(a + [c]) == a && Init(a + [d]) == a;
    LevGrowsLeft(a, c, b);
    if b != [] {
      LevChanges(a, c, d, Init(b));
      LevGrowsRight(a + [c], b);
    }
  }

  lemma LevLastEdit(x: string, u: string, v: string, b: string)
    requires |u| <= 1 && |v| <= 1
    ensures Lev(x + u, b) <= Lev(x + v, b) + 1
  {
    assert u == [] || u == [u[0]];
    assert v == [] || v == [v[0]];
    assert x + [] == x;
    if u != [] && v != [] {
      LevChanges(x, u[0], v[0], b);
    } else if u != [] {
      LevGrowsLeft(x, u[0], b);
    } else if v != [] {
      LevShrinks(x, v[0], b);
    }
  }

  /** Words that differ in one place, by at most one character, are at most one further away. */
  lemma {:induction false} LevOneEdit(x: string, u: string, v: string, y: string, b: string)
    requires |u| <= 1 && |v| <= 1
    ensures Lev(x + u + y, b) <= Lev(x + v + y, b) + 1
    decreases |y| + |b|
  {
    if y == [] {
      assert x + u + y == x + u && x + v + y == x + v;
      LevLastEdit(x, u, v, b);
    } else {
      var p, q := x + u + y, x + v + y;
      assert Init(p) == x + u + Init(y) && Init(q) == x + v + Init(y) && Latest(p) == Latest(q);
      if b != [] {
        LevOneEdit(x, u, v, Init(y), b);
        LevOneEdit(x, u, v, y, Init(b));
        LevOneEdit(x, u, v, Init(y), Init(b));
      }
    }
  }

  lemma EditCostsOne(e: Edit, a: string, b: string)
    requires Applies(e, a)
    ensures Lev(a, b) <= Lev(Edited(e, a), b) + 1
  {
    match e {
      case Insert(at, c) =>
        assert a == a[..at] + [] + a[at..];
        LevOneEdit(a[..at], [], [c], a[at..], b);
      case Delete(at) =>
        assert a == a[..at] + [a[at]] + a[at + 1..] && Edited(e, a) == a[..at] + [] + a[at + 1..];
        LevOneEdit(a[..at], [a[at]], [], a[at + 1..], b);
      case Substitute(at, c) =>
        assert a == a[..at] + [a[at]] + a[at + 1..];
        LevOneEdit(a[..at], [a[at]], [c], a[at + 1..], b);
    }
  }

  lemma {:induction false} NoShorterScript(script: seq<Edit>, a: string, b: string)
    requires Turns(script, a, b)
    ensures Lev(a, b) <= |script|
  {
    if script == [] {
      LevSame(a);
    } else {
      NoShorterScript(script[1..], Edited(script[0], a), b);
      EditCostsOne(script[0], a, b);
    }
  }

  // ---------------------------------------------------------------------------
  // A metric
  // ---------------------------------------------------------------------------

  /** The distance is the length of a shortest script of single-character edits. */
  lemma ShortestScript(a: string, b: string, n: nat)
    ensures n == Lev(a, b) <==>
              && (exists script :: Turns(script, a, b) && |script| == n)
              && (forall script :: Turns(script, a, b) ==> n <= |script|)
  {
    var shortest := ScriptExists(a, b);
    forall script | Turns(script, a, b)
      ensures Lev(a, b) <= |script|
    {
      NoShorterScript(script, a, b);
    }
  }

  lemma {:induction false} Symmetric(a: string, b: string)
    ensures Lev(a, b) == Lev(b, a)
    decreases |a| + |b|
  {
    if a != [] && b != [] {
      Symmetric(Init(a), b);
      Symmetric(a, Init(b));
      Symmetric(Init(a), Init(b));
    }
  }

  lemma Triangle(a: string, b: string, c: string)
    ensures Lev(a, c) <= Lev(a, b) + Lev(b, c)
  {
    var s := ScriptExists(a, b);
    var t := ScriptExists(b, c);
    TurnsThen(s, t, a, b, c);
    NoShorterScript(s + t, a, c);
  }

  lemma ZeroOnlyForEqual(a: string, b: string)
    ensures Lev(a, b) == 0 <==> a == b
  {
    LevSame(a);
    var script := ScriptExists(a, b);
  }
}
