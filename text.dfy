/** String helpers the engine relies on: `toLowerCase` (restricted to ASCII)
    and `String.prototype.includes`. */
module Text {

  /** ASCII lower-casing of one character; every other character is kept. */
  function LowerChar(c: char): (r: char)
    ensures !('A' <= r <= 'Z')
    ensures !('A' <= c <= 'Z') ==> r == c
    ensures 'A' <= c <= 'Z' ==> r as int == c as int + 32
  {
    if 'A' <= c <= 'Z' then (c as int + 32) as char else c
  }

  /** `s.toLowerCase()` on ASCII text: same length, each character lowered. */
  function Lower(s: string): (r: string)
    ensures |r| == |s|
    ensures forall i :: 0 <= i < |s| ==> r[i] == LowerChar(s[i])
  {
    if s == [] then [] else [LowerChar(s[0])] + Lower(s[1..])
  }

  /** Lowering twice is lowering once. */
  lemma LowerIdempotent(s: string)
    ensures Lower(Lower(s)) == Lower(s)
  {
    assert forall i :: 0 <= i < |s| ==> Lower(Lower(s))[i] == Lower(s)[i];
  }

  /** `s.includes(w)`: a scan that tries `w` at each start position of `s`. */
  function Contains(s: string, w: string): bool
  {
    if w <= s then true
    else if s == [] then false
    else Contains(s[1..], w)
  }

  /** `w` occurs in `s` starting at position `i`. */
  ghost predicate OccursAt(s: string, w: string, i: int)
  {
    0 <= i <= |s| && w <= s[i..]
  }

  /** The scan agrees with the definition of a substring: some start position
      at which `w` occurs. */
  lemma {:induction false} ContainsIff(s: string, w: string)
    ensures Contains(s, w) <==> exists i :: OccursAt(s, w, i)
  {
    if w <= s {
      assert OccursAt(s, w, 0);
    } else if s == [] {
    } else {
      ContainsIff(s[1..], w);
      if Contains(s[1..], w) {
        var i :| OccursAt(s[1..], w, i);
        assert s[1..][i..] == s[i + 1..];
        assert OccursAt(s, w, i + 1);
      } else {
        forall i | OccursAt(s, w, i) ensures false {
          assert i != 0;
          assert s[1..][i - 1..] == s[i..];
          assert OccursAt(s[1..], w, i - 1);
        }
      }
    }
  }

  /** An occurrence at a known position makes `w` a substring. */
  lemma ContainsAt(s: string, w: string, i: nat)
    requires i + |w| <= |s| && s[i..i + |w|] == w
    ensures Contains(s, w)
  {
    assert OccursAt(s, w, i);
    ContainsIff(s, w);
  }

  /** A word with a character that the text lacks does not occur in it. */
  lemma {:induction false} MissingCharNotContained(s: string, w: string, k: nat)
    requires k < |w|
    requires forall i :: 0 <= i < |s| ==> s[i] != w[k]
    ensures !Contains(s, w)
  {
    if s != [] {
      if |w| <= |s| {
        assert s[..|w|][k] != w[k];
      }
      MissingCharNotContained(s[1..], w, k);
    }
  }
}
