/** Case-insensitive substring matching, as Django's `icontains` lookup decides it
    (the database compares both sides after case folding; ASCII letters only here). */
module Text {

  function LowerChar(c: char): char {
    if 'A' <= c <= 'Z' then (c as int + 32) as char else c
  }

  function Lower(s: string): string {
    seq(|s|, i requires 0 <= i < |s| => LowerChar(s[i]))
  }

  /** `sub` occurs in `s` starting at offset `k`. */
  predicate OccursAt(s: string, sub: string, k: int) {
    0 <= k && k + |sub| <= |s| && s[k..k + |sub|] == sub
  }

  lemma OccursShift(s: string, sub: string, k: int)
    requires |s| > 0 && 0 <= k
    ensures OccursAt(s[1..], sub, k) <==> OccursAt(s, sub, k + 1)
  {
    if k + |sub| <= |s| - 1 {
      assert s[1..][k..k + |sub|] == s[k + 1..k + 1 + |sub|];
    }
  }

  /** Substring test: what SQL `LIKE '%sub%'` decides. */
  function Contains(s: string, sub: string): (r: bool)
    ensures r <==> exists k :: OccursAt(s, sub, k)
    decreases |s|
  {
    if |sub| > |s| then
      false
    else if s[..|sub|] == sub then
      assert OccursAt(s, sub, 0);
      true
    else
      assert !OccursAt(s, sub, 0);
      assert (exists k :: OccursAt(s, sub, k)) <==> exists k :: OccursAt(s[1..], sub, k) by {
        if exists k :: OccursAt(s, sub, k) {
          var k :| OccursAt(s, sub, k);
          OccursShift(s, sub, k - 1);
        }
        if exists k :: OccursAt(s[1..], sub, k) {
          var k :| OccursAt(s[1..], sub, k);
          OccursShift(s, sub, k);
        }
      }
      Contains(s[1..], sub)
  }

  /** Django's `field__icontains=value`. */
  function IContains(haystack: string, needle: string): bool {
    Contains(Lower(haystack), Lower(needle))
  }

  /** Lower-casing twice is lower-casing once. */
  lemma LowerIdempotent(s: string)
    ensures Lower(Lower(s)) == Lower(s)
  {
  }

  /** The match ignores the case of both the field and the searched value, and the empty
      value matches every field. */
  lemma IContainsIgnoresCase(haystack: string, needle: string)
    ensures IContains(Lower(haystack), needle) == IContains(haystack, needle)
    ensures IContains(haystack, Lower(needle)) == IContains(haystack, needle)
    ensures IContains(haystack, "")
  {
    LowerIdempotent(haystack);
    LowerIdempotent(needle);
    assert OccursAt(Lower(haystack), Lower(""), 0);
  }

  /** Every value matches a field that equals it up to case. */
  lemma IContainsItself(field: string, value: string)
    requires Lower(field) == Lower(value)
    ensures IContains(field, value)
  {
    assert OccursAt(Lower(field), Lower(value), 0);
  }
}
