/** closest_name of crates/chudbot-bin/src/diagnostics.rs: the suggestion for a misspelt name. */
module ClosestName {
  import opened Prelude
  import EditDistance

  /** Bytes a character takes in UTF-8 (section 3 of RFC 3629). */
  function CharBytes(c: char): nat {
    if c as int < 0x80 then 1 else if c as int < 0x800 then 2 else if c as int < 0x1_0000 then 3 else 4
  }

  /** String::len. */
  function ByteLen(s: string): nat { if s == [] then 0 else CharBytes(s[0]) + ByteLen(s[1..]) }

  /** One is a prefix of the other and the shorter has at least three characters. */
  predicate SharesPrefix(needle: string, candidate: string) {
    (candidate <= needle || needle <= candidate) && Min(|needle|, |candidate|) >= 3
  }

  function MaxDistance(needle: string): nat { Max(|needle| / 3, 2) }

  predicate Within(needle: string, candidate: string) { EditDistance.Lev(needle, candidate) <= MaxDistance(needle) }

  /** The key that is minimised: distance first, then length in bytes. */
  predicate Better(needle: string, c: string, d: string) {
    var x, y := EditDistance.Lev(needle, c), EditDistance.Lev(needle, d);
    x < y || (x == y && ByteLen(c) < ByteLen(d))
  }

  function FirstSharing(needle: string, candidates: seq<string>): Option<string> {
    if candidates == [] then None
    else if SharesPrefix(needle, candidates[0]) then Some(candidates[0])
    else FirstSharing(needle, candidates[1..])
  }

  /** The first candidate within bounds that no other beats. */
  function BestWithin(needle: string, candidates: seq<string>): Option<string> {
    if candidates == [] then None
    else
      match BestWithin(needle, Init(candidates))
      case None => if Within(needle, Latest(candidates)) then Some(Latest(candidates)) else None
      case Some(best) =>
        if Within(needle, Latest(candidates)) && Better(needle, Latest(candidates), best)
        then Some(Latest(candidates)) else Some(best)
  }

  /** `candidates` in the iteration order of the set. */
  function Closest(needle: string, candidates: seq<string>): Option<string> {
    if needle == "" then None
    else if FirstSharing(needle, candidates).Some? then FirstSharing(needle, candidates)
    else BestWithin(needle, candidates)
  }

  // ---------------------------------------------------------------------------
  // What is suggested
  // ---------------------------------------------------------------------------

  predicate FirstSharingAt(needle: string, candidates: seq<string>, i: nat) {
    && i < |candidates| && SharesPrefix(needle, candidates[i])
    && forall j :: 0 <= j < i ==> !SharesPrefix(needle, candidates[j])
  }

  /** Minimal in distance, then in length, then in the order of the set. */
  predicate MinimalAt(needle: string, candidates: seq<string>, i: nat) {
    && i < |candidates| && Within(needle, candidates[i])
    && (forall j :: 0 <= j < |candidates| && Within(needle, candidates[j]) ==>
          !Better(needle, candidates[j], candidates[i]))
    && (forall j :: 0 <= j < i && Within(needle, candidates[j]) ==> Better(needle, candidates[i], candidates[j]))
  }

  lemma {:induction false} FirstSharingFound(needle: string, candidates: seq<string>)
    ensures match FirstSharing(needle, candidates) {
              case Some(c) => exists i: nat :: FirstSharingAt(needle, candidates, i) && candidates[i] == c
              case None => forall i :: 0 <= i < |candidates| ==> !SharesPrefix(needle, candidates[i])
            }
  {
    if candidates != [] && !SharesPrefix(needle, candidates[0]) {
      FirstSharingFound(needle, candidates[1..]);
      if FirstSharing(needle, candidates[1..]).Some? {
        var i: nat :| FirstSharingAt(needle, candidates[1..], i)
                      && candidates[1..][i] == FirstSharing(needle, candidates).value;
        forall j | 0 <= j < i + 1
          ensures !SharesPrefix(needle, candidates[j])
        {
          assert j > 0 ==> candidates[j] == candidates[1..][j - 1];
        }
        assert FirstSharingAt(needle, candidates, i + 1);
      } else {
        assert forall i :: 0 < i < |candidates| ==> candidates[i] == candidates[1..][i - 1];
      }
    } else if candidates != [] {
      assert FirstSharingAt(needle, candidates, 0);
    }
  }

  lemma {:induction false} BestFound(needle: string, candidates: seq<string>)
    ensures match BestWithin(needle, candidates) {
              case Some(c) => exists i: nat :: MinimalAt(needle, candidates, i) && candidates[i] == c
              case None => forall i :: 0 <= i < |candidates| ==> !Within(needle, candidates[i])
            }
  {
    if candidates != [] {
      var front, n := Init(candidates), |candidates| - 1;
      BestFound(needle, front);
      assert forall j :: 0 <= j < n ==> candidates[j] == front[j];
      match BestWithin(needle, front) {
        case None =>
          if Within(needle, candidates[n]) {
            assert MinimalAt(needle, candidates, n);
          }
        case Some(best) =>
          var i: nat :| MinimalAt(needle, front, i) && front[i] == best;
          if Within(needle, candidates[n]) && Better(needle, candidates[n], best) {
            assert MinimalAt(needle, candidates, n);
          } else {
            assert MinimalAt(needle, candidates, i);
          }
      }
    }
  }

  predicate SuggestedAt(needle: string, candidates: seq<string>, i: nat) {
    if exists c :: c in candidates && SharesPrefix(needle, c) then FirstSharingAt(needle, candidates, i)
    else MinimalAt(needle, candidates, i)
  }

  /** The suggestion: the first candidate sharing a prefix; failing that, the minimal candidate
      within the bound; nothing exactly when neither exists or nothing was typed. */
  lemma ClosestLaw(needle: string, candidates: seq<string>)
    ensures match Closest(needle, candidates) {
              case Some(c) =>
                needle != "" && exists i: nat :: SuggestedAt(needle, candidates, i) && candidates[i] == c
              case None =>
                needle == ""
                || forall i :: 0 <= i < |candidates| ==>
                     !SharesPrefix(needle, candidates[i]) && !Within(needle, candidates[i])
            }
  {
    FirstSharingFound(needle, candidates);
    BestFound(needle, candidates);
    if needle != "" && FirstSharing(needle, candidates).Some? {
      var i: nat :| FirstSharingAt(needle, candidates, i) && candidates[i] == FirstSharing(needle, candidates).value;
      assert candidates[i] in candidates;
      assert SuggestedAt(needle, candidates, i);
    } else if needle != "" && BestWithin(needle, candidates).Some? {
      var i: nat :| MinimalAt(needle, candidates, i) && candidates[i] == BestWithin(needle, candidates).value;
      assert SuggestedAt(needle, candidates, i);
    }
  }
}
