/**
 * The two pieces of Python string semantics the library relies on:
 * substring membership (`t in s`) and `%`-interpolation of a template
 * with a tuple of strings.
 */
module PyText {
  import opened Wrappers

  /** `t` occurs in `s` starting at index `i`. */
  predicate OccursAt(s: string, t: string, i: int)
  {
    0 <= i && i + |t| <= |s| && s[i..i + |t|] == t
  }

  /** An occurrence of `t` in `s[1..]` at `j` is one in `s` at `j + 1`. */
  lemma OccursInTail(s: string, t: string)
    requires s != []
    ensures forall j :: 0 <= j ==> (OccursAt(s[1..], t, j) <==> OccursAt(s, t, j + 1))
  {
  }

  /** Whatever surrounds it, `b` occurs in `a + b + c` right after `a`. */
  lemma OccursBetween(a: string, b: string, c: string)
    ensures OccursAt(a + b + c, b, |a|) && Contains(a + b + c, b)
  {
  }

  /** Python's `t in s` on strings: scans `s` for a prefix equal to `t`. */
  function Contains(s: string, t: string): (b: bool)
    ensures b <==> exists i :: OccursAt(s, t, i)
    decreases |s|
  {
    if t <= s then
      assert OccursAt(s, t, 0);
      true
    else if s == [] then
      false
    else
      OccursInTail(s, t);
      assert !OccursAt(s, t, 0);
      assert forall i :: OccursAt(s, t, i) ==> i > 0 && OccursAt(s[1..], t, i - 1);
      Contains(s[1..], t)
  }

  /** `p` followed by the text of `o`, if `o` is a text. */
  function Prepend(p: string, o: Option<string>): Option<string>
  {
    match o
    case Some(v) => Some(p + v)
    case None => None
  }

  /**
   * The number of arguments a template consumes: one per `%s`, none for
   * `%%`; `None` when the template holds any other `%` directive, which
   * the library's templates never do.
   */
  function Holes(template: string): Option<nat>
    decreases |template|
  {
    if template == [] then Some(0)
    else if template[0] != '%' then Holes(template[1..])
    else if |template| >= 2 && template[1] == '%' then Holes(template[2..])
    else if |template| >= 2 && template[1] == 's' then
      match Holes(template[2..])
      case Some(n) => Some(n + 1)
      case None => None
    else None
  }

  /**
   * Python's `template % tuple(args)` for string arguments: each `%s` is
   * replaced by the next argument, `%%` by `%`. Too few or too many
   * arguments, or any other directive, is an error (`None`), as Python
   * raises `TypeError` or `ValueError` for them.
   */
  function Format(template: string, args: seq<string>): (r: Option<string>)
    ensures r.Some? <==> Holes(template) == Some(|args|)
    decreases |template|
  {
    if template == [] then
      if args == [] then Some("") else None
    else if template[0] != '%' then
      Prepend([template[0]], Format(template[1..], args))
    else if |template| >= 2 && template[1] == '%' then
      Prepend("%", Format(template[2..], args))
    else if |template| >= 2 && template[1] == 's' && args != [] then
      Prepend(args[0], Format(template[2..], args[1..]))
    else
      None
  }

  /** Template text without a `%` is copied to the output verbatim. */
  lemma {:induction false} FormatLiteral(lit: string, rest: string, args: seq<string>)
    requires '%' !in lit
    ensures Format(lit + rest, args) == Prepend(lit, Format(rest, args))
    decreases |lit|
  {
    if lit == [] {
      assert lit + rest == rest;
      match Format(rest, args)
      case Some(v) => assert lit + v == v;
      case None =>
    } else {
      var t := lit + rest;
      assert t[0] == lit[0] && t[1..] == lit[1..] + rest;
      FormatLiteral(lit[1..], rest, args);
      match Format(rest, args)
      case Some(v) => assert [lit[0]] + (lit[1..] + v) == lit + v;
      case None =>
    }
  }

  /** A `%s` takes the first argument, untouched, and the rest go on. */
  lemma FormatHole(a: string, rest: string, args: seq<string>)
    ensures Format("%s" + rest, [a] + args) == Prepend(a, Format(rest, args))
  {
  }

  /** Interpolating one argument into a template with a single `%s`. */
  lemma FormatOne(before: string, after: string, a: string)
    requires '%' !in before && '%' !in after
    ensures Format(before + "%s" + after, [a]) == Some(before + a + after)
  {
    FormatLiteral(after, "", []);
    assert after + "" == after;
    assert Format(after, []) == Some(after + "");
    FormatHole(a, after, []);
    assert [a] + [] == [a];
    assert before + "%s" + after == before + ("%s" + after);
    FormatLiteral(before, "%s" + after, [a]);
    assert before + (a + after) == before + a + after;
  }

  /** Interpolating two arguments, in order, into a template with two `%s`. */
  lemma FormatTwo(before: string, middle: string, after: string, a: string, b: string)
    requires '%' !in before && '%' !in middle && '%' !in after
    ensures Format(before + "%s" + middle + "%s" + after, [a, b]) == Some(before + a + middle + b + after)
  {
    FormatOne(middle, after, b);
    FormatHole(a, middle + "%s" + after, [b]);
    assert [a] + [b] == [a, b];
    assert before + "%s" + middle + "%s" + after == before + ("%s" + (middle + "%s" + after));
    FormatLiteral(before, "%s" + (middle + "%s" + after), [a, b]);
    assert before + (a + (middle + b + after)) == before + a + middle + b + after;
  }
}
