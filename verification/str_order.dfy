/** Python's `<` on `str` and `sorted` of a two-element list. */
module StrOrder {

  /**
   * `a < b` on Python strings: compare code points left to right; at the first
   * difference the smaller code point wins, and a proper prefix comes first.
   */
  predicate Less(a: string, b: string)
    ensures |a| < |b| && a == b[..|a|] ==> Less(a, b)
  {
    if |a| == 0 then |b| > 0
    else if |b| == 0 then false
    else if a[0] != b[0] then a[0] < b[0]
    else Less(a[1..], b[1..])
  }

  /**
   * Reference reading of `<`: past a common prefix of length `k`, the first
   * differing code point decides.
   */
  lemma {:induction false} LessAtFirstDifference(a: string, b: string, k: nat)
    requires k < |a| && k < |b| && a[..k] == b[..k] && a[k] != b[k]
    ensures Less(a, b) <==> a[k] < b[k]
  {
    if k > 0 {
      assert a[1..][..k - 1] == a[..k][1..] && b[1..][..k - 1] == b[..k][1..];
      LessAtFirstDifference(a[1..], b[1..], k - 1);
    }
  }

  /** `a <= b` on Python strings. */
  predicate LessEq(a: string, b: string)
  {
    Less(a, b) || a == b
  }

  /** Any two strings are ordered one way or the other, or are equal. */
  lemma {:induction false} LessTotal(a: string, b: string)
    ensures Less(a, b) || a == b || Less(b, a)
  {
    if |a| > 0 && |b| > 0 && a[0] == b[0] {
      LessTotal(a[1..], b[1..]);
      assert a == [a[0]] + a[1..] && b == [b[0]] + b[1..];
    }
  }

  /** No two strings are each below the other; in particular no string is below itself. */
  lemma {:induction false} LessAsymmetric(a: string, b: string)
    ensures !(Less(a, b) && Less(b, a))
  {
    if |a| > 0 && |b| > 0 && a[0] == b[0] {
      LessAsymmetric(a[1..], b[1..]);
    }
  }

  /** `<` on strings is transitive. */
  lemma {:induction false} LessTransitive(a: string, b: string, c: string)
    requires Less(a, b) && Less(b, c)
    ensures Less(a, c)
  {
    if |a| > 0 && a[0] == b[0] && b[0] == c[0] {
      LessTransitive(a[1..], b[1..], c[1..]);
    }
  }

  /**
   * `sorted([a, b])` (what `_x.sort()` leaves in `_x`): Python's stable sort swaps
   * the two elements only when `b < a`. The result holds `a` and `b` and is in order.
   */
  function Sorted2(a: string, b: string): (r: seq<string>)
    ensures r == [a, b] || r == [b, a]
    ensures LessEq(r[0], r[1])
  {
    LessTotal(a, b);
    if Less(b, a) then [b, a] else [a, b]
  }

  /** There is only one ordered arrangement of two strings, and `Sorted2` is it. */
  lemma SortedPairUnique(a: string, b: string, s: seq<string>)
    requires s == [a, b] || s == [b, a]
    requires LessEq(s[0], s[1])
    ensures s == Sorted2(a, b)
  {
    LessAsymmetric(a, b);
  }
}
