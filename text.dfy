/**
 * Ordinal substring search, as C#'s `string.Contains(string)` performs it.
 * Item names are classified with it.
 */
module Text {

  /** `t` is a prefix of `s`. */
  predicate StartsWith(s: string, t: string) {
    |t| <= |s| && s[..|t|] == t
  }

  /** `s` contains `t`, scanning start positions from the left. */
  predicate Contains(s: string, t: string)
    decreases |s|
  {
    StartsWith(s, t) || (s != [] && Contains(s[1..], t))
  }

  /** `t` occurs in `s` starting at index `i`: the independent reading of "contains". */
  predicate OccursAt(s: string, t: string, i: int) {
    0 <= i && i + |t| <= |s| && s[i..i + |t|] == t
  }

  /** An occurrence at `i` is found by the scan. */
  lemma {:induction false} OccursThenContains(s: string, t: string, i: int)
    requires OccursAt(s, t, i)
    ensures Contains(s, t)
    decreases i
  {
    if i == 0 {
      assert StartsWith(s, t);
    } else {
      assert s[1..][i - 1..i - 1 + |t|] == s[i..i + |t|];
      OccursThenContains(s[1..], t, i - 1);
    }
  }

  /** What the scan finds is an occurrence. */
  lemma {:induction false} ContainsThenOccurs(s: string, t: string) returns (i: int)
    requires Contains(s, t)
    ensures OccursAt(s, t, i)
    decreases |s|
  {
    if StartsWith(s, t) {
      i := 0;
    } else {
      var k := ContainsThenOccurs(s[1..], t);
      assert s[1..][k..k + |t|] == s[k + 1..k + 1 + |t|];
      i := k + 1;
    }
  }

  /** The scan finds `t` exactly when `t` occurs somewhere in `s`. */
  lemma ContainsIffOccurs(s: string, t: string)
    ensures Contains(s, t) <==> exists i :: OccursAt(s, t, i)
  {
    if Contains(s, t) {
      var i := ContainsThenOccurs(s, t);
    }
    if exists i :: OccursAt(s, t, i) {
      var i :| OccursAt(s, t, i);
      OccursThenContains(s, t, i);
    }
  }
}
