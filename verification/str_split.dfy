/** Python's `str.split(sep)` for a one-character separator, and its inverse `sep.join`. */
module StrSplit {

  /**
   * `s.split(sep)`: the maximal runs between separators, empty runs included,
   * so the empty string gives one empty field.
   */
  function Split(s: string, sep: char): (fields: seq<string>)
    ensures |fields| == multiset(s)[sep] + 1
    ensures forall i :: 0 <= i < |fields| ==> sep !in fields[i]
  {
    if s == [] then [[]]
    else
      assert s == [s[0]] + s[1..];
      var rest := Split(s[1..], sep);
      if s[0] == sep then [[]] + rest
      else [[s[0]] + rest[0]] + rest[1..]
  }

  /** `sep.join(fields)`. */
  function Join(fields: seq<string>, sep: char): string
  {
    if |fields| == 0 then []
    else if |fields| == 1 then fields[0]
    else fields[0] + [sep] + Join(fields[1..], sep)
  }

  /** Extending the first field by `x` extends the joined string by `x`. */
  lemma JoinExtendFirst(x: string, fields: seq<string>, sep: char)
    requires |fields| >= 1
    ensures Join([x + fields[0]] + fields[1..], sep) == x + Join(fields, sep)
  {
    var ext := [x + fields[0]] + fields[1..];
    assert ext[0] == x + fields[0] && ext[1..] == fields[1..];
    if |fields| > 1 {
      assert (x + fields[0]) + [sep] + Join(fields[1..], sep) == x + (fields[0] + [sep] + Join(fields[1..], sep));
    }
  }

  /** Joining the fields of a split gives back the string. */
  lemma {:induction false} JoinSplit(s: string, sep: char)
    ensures Join(Split(s, sep), sep) == s
  {
    if s != [] {
      var rest := Split(s[1..], sep);
      JoinSplit(s[1..], sep);
      if s[0] == sep {
        var fields := [[]] + rest;
        assert Split(s, sep) == fields;
        assert fields[0] == [] && fields[1..] == rest;
        assert Join(fields, sep) == [] + [sep] + s[1..];
      } else {
        assert Split(s, sep) == [[s[0]] + rest[0]] + rest[1..];
        JoinExtendFirst([s[0]], rest, sep);
      }
      assert s == [s[0]] + s[1..];
    }
  }

  /** A separator-free prefix `f` only extends the first field of what follows it. */
  lemma {:induction false} SplitAfterField(f: string, t: string, sep: char)
    requires sep !in f
    ensures Split(f + t, sep) == [f + Split(t, sep)[0]] + Split(t, sep)[1..]
  {
    if f == [] {
      var r := Split(t, sep);
      assert f + t == t;
      assert f + r[0] == r[0];
      assert r == [r[0]] + r[1..];
    } else {
      assert (f + t)[1..] == f[1..] + t;
      SplitAfterField(f[1..], t, sep);
      assert [f[0]] + (f[1..] + Split(t, sep)[0]) == f + Split(t, sep)[0];
    }
  }

  /** Splitting a join of separator-free fields gives back the fields. */
  lemma {:induction false} SplitJoin(fields: seq<string>, sep: char)
    requires |fields| >= 1
    requires forall i :: 0 <= i < |fields| ==> sep !in fields[i]
    ensures Split(Join(fields, sep), sep) == fields
  {
    if |fields| == 1 {
      SplitAfterField(fields[0], [], sep);
      assert fields[0] + [] == fields[0];
    } else {
      var tail := Join(fields[1..], sep);
      SplitJoin(fields[1..], sep);
      assert fields[0] + [sep] + tail == fields[0] + ([sep] + tail);
      var after := [sep] + tail;
      assert after[0] == sep && after[1..] == tail;
      assert Split(after, sep) == [[]] + fields[1..];
      SplitAfterField(fields[0], after, sep);
      assert fields[0] + [] == fields[0];
      assert fields == [fields[0]] + fields[1..];
    }
  }
}
