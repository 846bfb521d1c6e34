/**
 * Python's `template.format(*args)` for templates built from literal text,
 * automatically numbered `{}` fields and the escapes `{{` and `}}`.
 */
module StrFormat {
  import opened PyResult

  /** The template holds no brace at all, so `format` has nothing to replace. */
  predicate BraceFree(t: string)
  {
    '{' !in t && '}' !in t
  }

  /** Put `p` in front of a successful result; pass an exception through. */
  function Prepend(p: string, r: Result<string>): Result<string>
  {
    match r
    case Ok(s) => Ok(p + s)
    case Err(e) => Err(e)
  }

  /**
   * `t.format(*args)`, left to right: each `{}` takes the next argument
   * (IndexError once they run out; arguments left over are ignored),
   * `{{` and `}}` stand for single braces, a single `}` or a `{` at the end
   * is a ValueError. A brace-free template comes back unchanged.
   */
  function Format(t: string, args: seq<string>): (r: Result<string>)
    ensures BraceFree(t) ==> r == Ok(t)
    decreases |t|
  {
    if |t| == 0 then Ok([])
    else if t[0] == '{' then
      if |t| == 1 then Err(ValueError)
      else if t[1] == '}' then
        if |args| == 0 then Err(IndexError) else Prepend(args[0], Format(t[2..], args[1..]))
      else if t[1] == '{' then Prepend("{", Format(t[2..], args))
      else Err(UnsupportedField)
    else if t[0] == '}' then
      if |t| >= 2 && t[1] == '}' then Prepend("}", Format(t[2..], args))
      else Err(ValueError)
    else
      assert t == [t[0]] + t[1..];
      Prepend([t[0]], Format(t[1..], args))
  }

  /** Prepending twice is prepending the concatenation. */
  lemma PrependPrepend(p: string, q: string, r: Result<string>)
    ensures Prepend(p, Prepend(q, r)) == Prepend(p + q, r)
  {
    if r.Ok? {
      assert p + (q + r.value) == (p + q) + r.value;
    }
  }

  /**
   * A `{}` field after brace-free text `a` is replaced by the first argument,
   * and formatting goes on with the rest of the template and the other arguments.
   */
  lemma {:induction false} FormatField(a: string, b: string, x: string, args: seq<string>)
    requires BraceFree(a)
    ensures Format(a + "{}" + b, [x] + args) == Prepend(a + x, Format(b, args))
  {
    var t := a + "{}" + b;
    if a == [] {
      assert t == "{}" + b;
      assert t[0] == '{' && t[1] == '}' && t[2..] == b;
      assert ([x] + args)[0] == x && ([x] + args)[1..] == args;
      assert a + x == x;
    } else {
      assert t[0] == a[0] && t[0] != '{' && t[0] != '}';
      assert t[1..] == a[1..] + "{}" + b;
      assert Format(t, [x] + args) == Prepend([a[0]], Format(t[1..], [x] + args));
      FormatField(a[1..], b, x, args);
      PrependPrepend([a[0]], a[1..] + x, Format(b, args));
      assert [a[0]] + (a[1..] + x) == a + x;
    }
  }

  /** A template with one `{}` field between brace-free texts, given one argument. */
  lemma FormatOneField(a: string, b: string, x: string)
    requires BraceFree(a) && BraceFree(b)
    ensures Format(a + "{}" + b, [x]) == Ok(a + x + b)
  {
    FormatField(a, b, x, []);
    assert [x] + [] == [x];
  }

  /** A `{}` field with no argument left raises IndexError. */
  lemma {:induction false} FormatMissingArgument(a: string, b: string)
    requires BraceFree(a)
    ensures Format(a + "{}" + b, []) == Err(IndexError)
  {
    var t := a + "{}" + b;
    if a == [] {
      assert t[0] == '{' && t[1] == '}';
    } else {
      assert t[0] == a[0] && t[1..] == a[1..] + "{}" + b;
      FormatMissingArgument(a[1..], b);
    }
  }
}
