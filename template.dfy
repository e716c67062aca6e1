/**
 * The `sprintf` calls of the class: formats whose only conversions are `%s`, each
 * replaced by the next argument. The URL templates of the carrier table are such
 * formats with exactly one conversion.
 */
module Template {
  import opened Text

  /** A URL template, kept as the text on either side of its `%s`. */
  datatype UrlTemplate = UrlTemplate(before: Bytes, after: Bytes)

  /** The template as the format string it stands for. */
  function Format(t: UrlTemplate): (f: Bytes)
    ensures |f| == |t.before| + 2 + |t.after|
  {
    t.before + "%s" + t.after
  }

  /** No `%` besides the one that starts the `%s`. */
  predicate ValidTemplate(t: UrlTemplate)
  {
    '%' !in t.before && '%' !in t.after
  }

  /** The template with arg in place of its `%s`. */
  function Render(t: UrlTemplate, arg: Bytes): (r: Bytes)
    ensures |r| == |t.before| + |arg| + |t.after|
  {
    t.before + arg + t.after
  }

  /** Every `%` of f starts a `%s` conversion. */
  predicate WellFormed(f: Bytes)
  {
    if f == [] then true
    else if f[0] == '%' then |f| >= 2 && f[1] == 's' && WellFormed(f[2..])
    else WellFormed(f[1..])
  }

  /** The number of `%` in f; in a well-formed format, the number of conversions. */
  function Conversions(f: Bytes): nat
  {
    if f == [] then 0 else (if f[0] == '%' then 1 else 0) + Conversions(f[1..])
  }

  /** The total length of a list of arguments. */
  function TotalLength(args: seq<Bytes>): nat
  {
    if args == [] then 0 else |args[0]| + TotalLength(args[1..])
  }

  /**
   * `sprintf(f, args...)` for a format whose conversions are all `%s`, given as many
   * arguments as it has conversions: each `%s` becomes the next argument and every
   * other byte is copied.
   */
  function Sprintf(f: Bytes, args: seq<Bytes>): (r: Bytes)
    requires WellFormed(f) && Conversions(f) == |args|
    ensures |r| == |f| - 2 * |args| + TotalLength(args)
  {
    if f == [] then []
    else if f[0] == '%' then
      ConversionStep(f);
      args[0] + Sprintf(f[2..], args[1..])
    else [f[0]] + Sprintf(f[1..], args)
  }

  /** A leading `%s` is one conversion; the rest of the format holds the others. */
  lemma ConversionStep(f: Bytes)
    requires |f| >= 2 && f[0] == '%' && f[1] == 's'
    ensures Conversions(f) == 1 + Conversions(f[2..])
  {
    assert f[1..][1..] == f[2..];
  }

  /** A format without `%` has no conversions and prints as it is. */
  lemma {:induction false} SprintfPlain(f: Bytes)
    requires '%' !in f
    ensures WellFormed(f) && Conversions(f) == 0 && Sprintf(f, []) == f
  {
    if f != [] {
      assert '%' !in f[1..];
      SprintfPlain(f[1..]);
    }
  }

  /** A lone `%s` prints its argument. */
  lemma SprintfConversion(arg: Bytes)
    ensures WellFormed("%s") && Conversions("%s") == 1 && Sprintf("%s", [arg]) == arg
  {
    assert "%s"[2..] == [] && "%s"[1..] == "s" && "s"[1..] == [];
    assert [arg][1..] == [];
  }

  /** Well-formedness and the number of conversions add up over a concatenation. */
  lemma {:induction false} FormatAppend(f: Bytes, g: Bytes)
    requires WellFormed(f) && WellFormed(g)
    ensures WellFormed(f + g) && Conversions(f + g) == Conversions(f) + Conversions(g)
  {
    if f == [] {
      assert f + g == g;
    } else if f[0] == '%' {
      ConversionStep(f);
      FormatAppend(f[2..], g);
      var fg := f + g;
      assert fg[0] == '%' && fg[1] == 's' && fg[2..] == f[2..] + g;
      ConversionStep(fg);
    } else {
      FormatAppend(f[1..], g);
      var fg := f + g;
      assert fg[0] == f[0] && fg[1..] == f[1..] + g;
    }
  }

  /**
   * Formats compose: the two halves of a format take their own arguments, in order,
   * and print next to each other.
   */
  lemma {:induction false} SprintfAppend(f: Bytes, g: Bytes, a: seq<Bytes>, b: seq<Bytes>)
    requires WellFormed(f) && Conversions(f) == |a|
    requires WellFormed(g) && Conversions(g) == |b|
    ensures WellFormed(f + g) && Conversions(f + g) == |a + b|
    ensures Sprintf(f + g, a + b) == Sprintf(f, a) + Sprintf(g, b)
  {
    FormatAppend(f, g);
    if f == [] {
      AppendToEmpty(f, g, a, b);
    } else if f[0] == '%' {
      ConversionStep(f);
      SprintfAppend(f[2..], g, a[1..], b);
      AppendAfterConversion(f, g, a, b);
    } else {
      SprintfAppend(f[1..], g, a, b);
      AppendAfterByte(f, g, a, b);
    }
  }

  /** The step of SprintfAppend for an empty left format. */
  lemma AppendToEmpty(f: Bytes, g: Bytes, a: seq<Bytes>, b: seq<Bytes>)
    requires f == [] && a == []
    requires WellFormed(g) && Conversions(g) == |b|
    ensures WellFormed(f) && Conversions(f) == |a| && Sprintf(f, a) == []
    ensures f + g == g && a + b == b
    ensures Sprintf(f + g, a + b) == Sprintf(f, a) + Sprintf(g, b)
  {
  }

  /** The step of SprintfAppend for a format that starts with `%s`. */
  lemma AppendAfterConversion(f: Bytes, g: Bytes, a: seq<Bytes>, b: seq<Bytes>)
    requires WellFormed(f) && Conversions(f) == |a| && |f| >= 2 && f[0] == '%'
    requires WellFormed(g) && Conversions(g) == |b|
    requires WellFormed(f + g) && Conversions(f + g) == |a + b|
    requires WellFormed(f[2..]) && Conversions(f[2..]) == |a| - 1
    requires WellFormed(f[2..] + g) && Conversions(f[2..] + g) == |a[1..] + b|
    requires Sprintf(f[2..] + g, a[1..] + b) == Sprintf(f[2..], a[1..]) + Sprintf(g, b)
    ensures Sprintf(f + g, a + b) == Sprintf(f, a) + Sprintf(g, b)
  {
    ConversionStep(f);
    DropFirst(a, b, 1);
    DropFirst(f, g, 2);
    SprintfConversionFirst(f + g, f[2..] + g, a + b);
    SprintfConversionFirst(f, f[2..], a);
    Assoc(a[0], Sprintf(f[2..], a[1..]), Sprintf(g, b));
  }

  /** The step of SprintfAppend for a format that starts with another byte. */
  lemma AppendAfterByte(f: Bytes, g: Bytes, a: seq<Bytes>, b: seq<Bytes>)
    requires WellFormed(f) && Conversions(f) == |a| && f != [] && f[0] != '%'
    requires WellFormed(g) && Conversions(g) == |b|
    requires WellFormed(f + g) && Conversions(f + g) == |a + b|
    requires WellFormed(f[1..]) && Conversions(f[1..]) == |a|
    requires WellFormed(f[1..] + g) && Conversions(f[1..] + g) == |a + b|
    requires Sprintf(f[1..] + g, a + b) == Sprintf(f[1..], a) + Sprintf(g, b)
    ensures Sprintf(f + g, a + b) == Sprintf(f, a) + Sprintf(g, b)
  {
    DropFirst(f, g, 1);
    SprintfPlainFirst(f + g, f[1..] + g, a + b);
    SprintfPlainFirst(f, f[1..], a);
    Assoc([f[0]], Sprintf(f[1..], a), Sprintf(g, b));
  }

  /** Dropping the first n elements of a concatenation drops them from its left part. */
  lemma DropFirst<T>(x: seq<T>, y: seq<T>, n: nat)
    requires n <= |x|
    ensures (x + y)[n..] == x[n..] + y
    ensures forall i :: 0 <= i < n ==> (x + y)[i] == x[i]
  {
  }

  /** A format that starts with `%s` prints its first argument, then the rest. */
  lemma SprintfConversionFirst(f: Bytes, rest: Bytes, args: seq<Bytes>)
    requires WellFormed(f) && Conversions(f) == |args|
    requires |f| >= 2 && f[0] == '%' && f[2..] == rest
    ensures WellFormed(rest) && Conversions(rest) == |args| - 1
    ensures Sprintf(f, args) == args[0] + Sprintf(rest, args[1..])
  {
    ConversionStep(f);
  }

  /** A format that starts with another byte prints that byte, then the rest. */
  lemma SprintfPlainFirst(f: Bytes, rest: Bytes, args: seq<Bytes>)
    requires WellFormed(f) && Conversions(f) == |args|
    requires f != [] && f[0] != '%' && f[1..] == rest
    ensures WellFormed(rest) && Conversions(rest) == |args|
    ensures Sprintf(f, args) == [f[0]] + Sprintf(rest, args)
  {
  }

  /** Rendering a valid template is what `sprintf` does with the format it stands for. */
  lemma RenderIsSprintf(t: UrlTemplate, arg: Bytes)
    requires ValidTemplate(t)
    ensures WellFormed(Format(t)) && Conversions(Format(t)) == 1
    ensures Sprintf(Format(t), [arg]) == Render(t, arg)
  {
    SprintfPlain(t.before);
    SprintfPlain(t.after);
    SprintfConversion(arg);
    SprintfAppend(t.before, "%s", [], [arg]);
    SprintfAppend(t.before + "%s", t.after, [arg], []);
    assert [] + [arg] == [arg] && [arg] + [] == [arg];
  }

  /** A format with two `%s` and plain text around them prints the two arguments in place. */
  lemma SprintfTwo(p: Bytes, q: Bytes, r: Bytes, x: Bytes, y: Bytes)
    requires '%' !in p && '%' !in q && '%' !in r
    ensures WellFormed(p + "%s" + q + "%s" + r) && Conversions(p + "%s" + q + "%s" + r) == 2
    ensures Sprintf(p + "%s" + q + "%s" + r, [x, y]) == p + x + q + y + r
  {
    var f := p + "%s" + q;
    var g := "%s" + r;
    RenderIsSprintf(UrlTemplate(p, q), x);
    LeadingConversion(r, y);
    SprintfJoin(f, g, [x], [y], p + x + q, y + r);
    assert [x] + [y] == [x, y];
    Assoc(f, "%s", r);
    Assoc(p + x + q, y, r);
  }

  /** A format that is `%s` and then plain text prints the argument, then the text. */
  lemma LeadingConversion(r: Bytes, y: Bytes)
    requires '%' !in r
    ensures WellFormed("%s" + r) && Conversions("%s" + r) == 1 && Sprintf("%s" + r, [y]) == y + r
  {
    RenderIsSprintf(UrlTemplate([], r), y);
    assert [] + "%s" + r == "%s" + r;
  }

  /** SprintfAppend with the two halves' outputs already known. */
  lemma SprintfJoin(f: Bytes, g: Bytes, a: seq<Bytes>, b: seq<Bytes>, u: Bytes, v: Bytes)
    requires WellFormed(f) && Conversions(f) == |a| && Sprintf(f, a) == u
    requires WellFormed(g) && Conversions(g) == |b| && Sprintf(g, b) == v
    ensures WellFormed(f + g) && Conversions(f + g) == |a + b| && Sprintf(f + g, a + b) == u + v
  {
    SprintfAppend(f, g, a, b);
  }

  /** The template a format with one conversion stands for: the text around its `%s`. */
  function TemplateOf(f: Bytes): (t: UrlTemplate)
    requires WellFormed(f) && Conversions(f) == 1
    ensures ValidTemplate(t) && Format(t) == f
  {
    if f[0] == '%' then
      ConversionStep(f);
      NoConversionsNoPercent(f[2..]);
      assert f == [] + "%s" + f[2..];
      UrlTemplate([], f[2..])
    else
      var t := TemplateOf(f[1..]);
      assert f == [f[0]] + (t.before + "%s" + t.after);
      UrlTemplate([f[0]] + t.before, t.after)
  }

  /** A format without conversions has no `%`. */
  lemma {:induction false} NoConversionsNoPercent(f: Bytes)
    requires Conversions(f) == 0
    ensures '%' !in f
  {
    if f != [] {
      NoConversionsNoPercent(f[1..]);
      assert f == [f[0]] + f[1..];
    }
  }

  /** Every format with a single `%s` prints as the template it stands for. */
  lemma SprintfIsRender(f: Bytes, arg: Bytes)
    requires WellFormed(f) && Conversions(f) == 1
    ensures Sprintf(f, [arg]) == Render(TemplateOf(f), arg)
  {
    RenderIsSprintf(TemplateOf(f), arg);
  }
}
