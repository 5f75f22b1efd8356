/** Python's `sub in s` test on `str` values, as used by the request router and
    by the `create_table` tool, together with a prefix test used to read tool
    replies back. Strings are sequences of Unicode scalar values; a Python
    `str` may also hold unpaired surrogate code points, which these strings
    cannot. No case folding or normalisation takes place. */
module Strings {

  /** `sub` sits in `s` starting at index `i`. */
  ghost predicate OccursAt(s: string, sub: string, i: int)
  {
    0 <= i && i + |sub| <= |s| && s[i..i + |sub|] == sub
  }

  /** The specification of substring containment: some index starts a copy of `sub`. */
  ghost predicate Occurs(s: string, sub: string)
  {
    exists i :: OccursAt(s, sub, i)
  }

  /** Dropping a first character that does not start an occurrence keeps every
      other occurrence, shifted one place to the left. */
  lemma OccursShift(s: string, sub: string)
    requires |s| > 0 && !OccursAt(s, sub, 0)
    ensures Occurs(s, sub) <==> Occurs(s[1..], sub)
  {
    if Occurs(s, sub) {
      var i :| OccursAt(s, sub, i);
      assert s[1..][i - 1..i - 1 + |sub|] == s[i..i + |sub|];
      assert OccursAt(s[1..], sub, i - 1);
    }
    if Occurs(s[1..], sub) {
      var j :| OccursAt(s[1..], sub, j);
      assert s[1..][j..j + |sub|] == s[j + 1..j + 1 + |sub|];
      assert OccursAt(s, sub, j + 1);
    }
  }

  /** Python's `sub in s` for two `str` values: true exactly when `sub` occurs
      somewhere in `s` (the empty string occurs everywhere). */
  function Contains(s: string, sub: string): (b: bool)
    ensures b <==> Occurs(s, sub)
    decreases |s|
  {
    if |s| < |sub| then
      false
    else if s[..|sub|] == sub then
      assert OccursAt(s, sub, 0);
      true
    else
      OccursShift(s, sub);
      Contains(s[1..], sub)
  }

  /** A string in which some character of `sub` never appears cannot contain `sub`. */
  lemma MissingCharRulesOut(s: string, sub: string, k: int)
    requires 0 <= k < |sub|
    requires forall j :: 0 <= j < |s| ==> s[j] != sub[k]
    ensures !Contains(s, sub)
  {
    if Occurs(s, sub) {
      var i :| OccursAt(s, sub, i);
    }
  }

  /** `s` begins with `p` (Python's `s.startswith(p)`). */
  predicate HasPrefix(s: string, p: string)
  {
    |p| <= |s| && s[..|p|] == p
  }

  /** Whatever follows a prefix can be read back after it. */
  lemma PrefixThenRest(p: string, t: string)
    ensures HasPrefix(p + t, p)
    ensures (p + t)[|p|..] == t
  {
    assert (p + t)[..|p|] == p;
  }
}
