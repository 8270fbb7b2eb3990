/**
 * The two string operations the search box relies on: `toLowerCase` and
 * `includes`. Lower-casing is modelled on the ASCII letters only.
 */
module Text {

  /** Lower-case of one character: A-Z map to a-z, everything else is kept. */
  function LowerChar(c: char): (r: char)
    ensures 'A' <= c <= 'Z' ==> 'a' <= r <= 'z' && r as int - c as int == 32
    ensures !('A' <= c <= 'Z') ==> r == c
    ensures !('A' <= r <= 'Z')
  {
    if 'A' <= c <= 'Z' then (c as int + 32) as char else c
  }

  /** `s.toLowerCase()`, character by character. */
  function Lower(s: string): (r: string)
    ensures |r| == |s|
    ensures forall i :: 0 <= i < |s| ==> r[i] == LowerChar(s[i])
  {
    if s == [] then [] else [LowerChar(s[0])] + Lower(s[1..])
  }

  /** Lower-casing twice is the same as lower-casing once. */
  lemma LowerIdempotent(s: string)
    ensures Lower(Lower(s)) == Lower(s)
  {
    var l := Lower(s);
    assert forall i :: 0 <= i < |s| ==> Lower(l)[i] == l[i];
  }

  /** `q` occurs in `s` starting at position `i`. */
  predicate OccursAt(s: string, q: string, i: int)
  {
    0 <= i <= |s| - |q| && s[i..i + |q|] == q
  }

  /** `s.includes(q)`: `q` occurs in `s` as a contiguous block. */
  predicate Includes(s: string, q: string)
  {
    exists i :: 0 <= i <= |s| - |q| && OccursAt(s, q, i)
  }

  /** Every string includes the empty string. */
  lemma IncludesEmpty(s: string)
    ensures Includes(s, "")
  {
    assert OccursAt(s, "", 0);
  }

  /** Inclusion is transitive: a block of a block of `s` is a block of `s`. */
  lemma IncludesTransitive(s: string, b: string, a: string)
    requires Includes(s, b) && Includes(b, a)
    ensures Includes(s, a)
  {
    var i :| 0 <= i <= |s| - |b| && OccursAt(s, b, i);
    var j :| 0 <= j <= |b| - |a| && OccursAt(b, a, j);
    forall k | 0 <= k < |a|
      ensures s[i + j + k] == a[k]
    {
      assert a[k] == b[j..j + |a|][k] == b[j + k] == s[i..i + |b|][j + k];
    }
    assert OccursAt(s, a, i + j);
  }
}
