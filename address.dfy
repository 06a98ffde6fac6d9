/**
 * Token addresses are used as map keys after lower-casing them, so that the
 * same address written with any mix of letter case names the same entry.
 */
module Address {
  /** Lower-casing of one character; only the ASCII letters A-Z change. */
  function LowerChar(c: char): (d: char)
    ensures 'A' <= c <= 'Z' ==> d as int == c as int + 32
    ensures !('A' <= c <= 'Z') ==> d == c
    ensures !('A' <= d <= 'Z')
  {
    if 'A' <= c <= 'Z' then (c as int + 32) as char else c
  }

  /** `s.toLowerCase()`, character by character. */
  function Lower(s: string): (r: string)
    ensures |r| == |s|
  {
    if s == [] then [] else [LowerChar(s[0])] + Lower(s[1..])
  }

  /** Each character of `Lower(s)` is the lower-cased character of `s` at that position. */
  lemma {:induction false} LowerAt(s: string, i: nat)
    requires i < |s|
    ensures Lower(s)[i] == LowerChar(s[i])
    decreases |s|
  {
    if i > 0 {
      LowerAt(s[1..], i - 1);
    }
  }

  /** No character of `s` is an upper-case ASCII letter. */
  predicate IsLower(s: string) {
    forall i :: 0 <= i < |s| ==> !('A' <= s[i] <= 'Z')
  }

  /** Two spellings denote the same address when their lower-cased forms agree. */
  predicate SameAddress(a: string, b: string) {
    Lower(a) == Lower(b)
  }

  /** Lower-casing leaves a string that is already lower case alone. */
  lemma LowerFixesLower(s: string)
    requires IsLower(s)
    ensures Lower(s) == s
  {
    var r := Lower(s);
    forall i | 0 <= i < |s|
      ensures r[i] == s[i]
    {
      LowerAt(s, i);
    }
  }

  /** Lower-casing twice is lower-casing once: a key is its own key. */
  lemma LowerIdempotent(s: string)
    ensures IsLower(Lower(s))
    ensures Lower(Lower(s)) == Lower(s)
  {
    forall i | 0 <= i < |s|
      ensures !('A' <= Lower(s)[i] <= 'Z')
    {
      LowerAt(s, i);
    }
    LowerFixesLower(Lower(s));
  }

  /** Every spelling names the same address as its lower-cased form. */
  lemma SameAsLower(s: string)
    ensures SameAddress(s, Lower(s))
  {
    LowerIdempotent(s);
  }
}
