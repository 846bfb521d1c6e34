/** Python's `str.strip(c)` for a single character `c`. */
module StrStrip {

  /** Neither the first nor the last character of `s` is `c`. */
  predicate Clean(s: string, c: char)
  {
    s == [] || (s[0] != c && s[|s| - 1] != c)
  }

  /** `s.lstrip(c)`: a suffix of `s`, everything dropped before it is `c`. */
  function StripLeft(s: string, c: char): (r: string)
    ensures |r| <= |s| && r == s[|s| - |r|..]
    ensures forall i :: 0 <= i < |s| - |r| ==> s[i] == c
    ensures r == [] || r[0] != c
  {
    if |s| > 0 && s[0] == c then StripLeft(s[1..], c) else s
  }

  /** `s.rstrip(c)`: a prefix of `s`, everything dropped after it is `c`. */
  function StripRight(s: string, c: char): (r: string)
    ensures |r| <= |s| && r == s[..|r|]
    ensures forall i :: |r| <= i < |s| ==> s[i] == c
    ensures r == [] || r[|r| - 1] != c
  {
    if |s| > 0 && s[|s| - 1] == c then StripRight(s[..|s| - 1], c) else s
  }

  /**
   * `s.strip(c)`: the slice of `s` left once every leading and every trailing `c`
   * is removed; it neither starts nor ends with `c`.
   */
  function Strip(s: string, c: char): (r: string)
    ensures Clean(r, c)
    ensures var i := |s| - |StripLeft(s, c)|;
      && i + |r| <= |s|
      && r == s[i..i + |r|]
      && (forall k :: 0 <= k < i ==> s[k] == c)
      && (forall k :: i + |r| <= k < |s| ==> s[k] == c)
  {
    var l := StripLeft(s, c);
    var r := StripRight(l, c);
    assert r == s[|s| - |l|..][..|r|];
    r
  }

  /** Dropping a run of `c` that ends before a non-`c` (or at the end) is `lstrip`. */
  lemma {:induction false} StripLeftFrom(s: string, c: char, i: nat)
    requires i <= |s|
    requires forall k :: 0 <= k < i ==> s[k] == c
    requires i == |s| || s[i] != c
    ensures StripLeft(s, c) == s[i..]
  {
    if i > 0 {
      StripLeftFrom(s[1..], c, i - 1);
      assert s[1..][i - 1..] == s[i..];
    }
  }

  /** Dropping a trailing run of `c` that starts after a non-`c` (or at 0) is `rstrip`. */
  lemma {:induction false} StripRightTo(s: string, c: char, j: nat)
    requires j <= |s|
    requires forall k :: j <= k < |s| ==> s[k] == c
    requires j == 0 || s[j - 1] != c
    ensures StripRight(s, c) == s[..j]
  {
    if j < |s| {
      StripRightTo(s[..|s| - 1], c, j);
      assert s[..|s| - 1][..j] == s[..j];
    }
  }

  /**
   * Reference characterisation: whenever `s` is a run of `c`, then a slice that
   * does not start or end with `c`, then a run of `c`, `Strip` returns that slice.
   */
  lemma StripRemovesPadding(s: string, c: char, i: nat, j: nat)
    requires i <= j <= |s|
    requires Clean(s[i..j], c)
    requires forall k :: 0 <= k < i ==> s[k] == c
    requires forall k :: j <= k < |s| ==> s[k] == c
    ensures Strip(s, c) == s[i..j]
  {
    if i == j {
      StripLeftFrom(s, c, |s|);
    } else {
      StripLeftFrom(s, c, i);
      StripRightTo(s[i..], c, j - i);
      assert s[i..][..j - i] == s[i..j];
    }
  }

  /** A string that neither starts nor ends with `c` is left as it is. */
  lemma StripOfClean(t: string, c: char)
    requires Clean(t, c)
    ensures Strip(t, c) == t
  {
    StripLeftFrom(t, c, 0);
    assert t[0..] == t;
    StripRightTo(t, c, |t|);
    assert t[..|t|] == t;
  }

  /** Stripping twice is stripping once. */
  lemma StripIdempotent(s: string, c: char)
    ensures Strip(Strip(s, c), c) == Strip(s, c)
  {
    StripOfClean(Strip(s, c), c);
  }
}
