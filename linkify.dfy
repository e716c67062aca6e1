/**
 * `linkify`: one `preg_replace_callback` pass per (carrier, pattern) in table order,
 * each pass replacing every match in the current text by the carrier's link.
 */
module Linkify {
  import opened Text
  import opened Regex
  import opened Carriers
  import opened Html

  /**
   * The text `preg_replace_callback` produces from s[from..]: the text before the next
   * match, the link for the match, and the rest, searched from the end of the match.
   * Each search sees all of s, so a boundary test may look at the byte before from.
   */
  function ReplaceFrom(c: Carrier, linkAttributes: seq<Attribute>, p: Pattern, s: Bytes, from: nat): Bytes
    requires from <= |s| && Consuming(p.re)
    decreases |s| - from
  {
    match Search(p, s, from)
    case None => s[from..]
    case Some(sp) =>
      SearchNonEmpty(p, s, from);
      s[from..sp.start] + Link(c, linkAttributes, s[sp.start..sp.end]) + ReplaceFrom(c, linkAttributes, p, s, sp.end)
  }

  /** One pass: every non-overlapping match of p in s, left to right, replaced by its link. */
  function ReplaceAll(c: Carrier, linkAttributes: seq<Attribute>, p: Pattern, s: Bytes): Bytes
    requires Consuming(p.re)
  {
    ReplaceFrom(c, linkAttributes, p, s, 0)
  }

  /** The passes for patterns ps of carrier c, in order, each on the previous one's output. */
  function ApplyPatterns(c: Carrier, ps: seq<Pattern>, linkAttributes: seq<Attribute>, s: Bytes): Bytes
    requires forall i :: 0 <= i < |ps| ==> Consuming(ps[i].re)
  {
    if ps == [] then s
    else ReplaceAll(c, linkAttributes, ps[|ps| - 1], ApplyPatterns(c, ps[..|ps| - 1], linkAttributes, s))
  }

  predicate PatternsConsume(c: Carrier)
  {
    forall i :: 0 <= i < |c.patterns| ==> Consuming(c.patterns[i].re)
  }

  /** ValidCarrier in the indexed form the passes use. */
  lemma ValidPatterns(cs: seq<Carrier>)
    requires ValidCarriers(cs)
    ensures forall ci :: 0 <= ci < |cs| ==> PatternsConsume(cs[ci])
  {
    forall ci, i | 0 <= ci < |cs| && 0 <= i < |cs[ci].patterns|
      ensures Consuming(cs[ci].patterns[i].re)
    {
      assert cs[ci] in cs && cs[ci].patterns[i] in cs[ci].patterns;
    }
  }

  /** The passes of carriers cs, in order: what `linkify` returns for the table cs. */
  function ApplyCarriers(cs: seq<Carrier>, linkAttributes: seq<Attribute>, s: Bytes): Bytes
    requires ValidCarriers(cs)
  {
    if cs == [] then s
    else
      ValidPatterns(cs);
      var c := cs[|cs| - 1];
      ApplyPatterns(c, c.patterns, linkAttributes, ApplyCarriers(cs[..|cs| - 1], linkAttributes, s))
  }

  /** `preg_replace_callback(p, fn ($m) => generateHtmlLink(c, $m[0]), s)`. */
  method ReplaceCallback(c: Carrier, linkAttributes: seq<Attribute>, p: Pattern, s: Bytes) returns (r: Bytes)
    requires Consuming(p.re)
    ensures r == ReplaceAll(c, linkAttributes, p, s)
  {
    r := [];
    var pos := 0;
    var m := Search(p, s, 0);
    while m.Some?
      invariant pos <= |s|
      invariant m == Search(p, s, pos)
      invariant r + ReplaceFrom(c, linkAttributes, p, s, pos) == ReplaceAll(c, linkAttributes, p, s)
      decreases |s| - pos
    {
      SearchNonEmpty(p, s, pos);
      var link := GenerateHtmlLink(c, linkAttributes, s[m.value.start..m.value.end]);
      var gap := s[pos..m.value.start];
      ghost var rest := ReplaceFrom(c, linkAttributes, p, s, m.value.end);
      assert ReplaceFrom(c, linkAttributes, p, s, pos) == gap + link + rest;
      Assoc(r, gap + link, rest);
      Assoc(r, gap, link);
      r := r + gap + link;
      pos := m.value.end;
      m := Search(p, s, pos);
    }
    r := r + s[pos..];
  }

  /** `linkify(content)` over the carrier table carriers. */
  method Linkify(carriers: seq<Carrier>, linkAttributes: seq<Attribute>, content: Bytes) returns (r: Bytes)
    requires ValidCarriers(carriers)
    ensures r == ApplyCarriers(carriers, linkAttributes, content)
  {
    ValidPatterns(carriers);
    r := content;
    for ci := 0 to |carriers|
      invariant r == ApplyCarriers(carriers[..ci], linkAttributes, content)
    {
      assert carriers[..ci + 1][..ci] == carriers[..ci];
      var c := carriers[ci];
      ghost var before := r;
      for pi := 0 to |c.patterns|
        invariant r == ApplyPatterns(c, c.patterns[..pi], linkAttributes, before)
      {
        assert c.patterns[..pi + 1][..pi] == c.patterns[..pi];
        r := ReplaceCallback(c, linkAttributes, c.patterns[pi], r);
      }
      assert c.patterns[..|c.patterns|] == c.patterns;
    }
    assert carriers[..|carriers|] == carriers;
  }

  /** A link is longer than the text it wraps by at least `<a >` and `</a>`. */
  lemma LinkLonger(c: Carrier, linkAttributes: seq<Attribute>, tn: Bytes)
    ensures |Link(c, linkAttributes, tn)| >= |tn| + 8
  {
  }

  /**
   * A pass never shortens the text, and it lengthens it exactly when p matches
   * somewhere in it.
   */
  lemma {:induction false} ReplaceFromLength(c: Carrier, linkAttributes: seq<Attribute>, p: Pattern, s: Bytes, from: nat)
    requires from <= |s| && Consuming(p.re)
    ensures |ReplaceFrom(c, linkAttributes, p, s, from)| >= |s| - from
    ensures Search(p, s, from).Some? <==> |ReplaceFrom(c, linkAttributes, p, s, from)| > |s| - from
    decreases |s| - from
  {
    match Search(p, s, from)
    case None =>
    case Some(sp) =>
      SearchNonEmpty(p, s, from);
      ReplaceFromLength(c, linkAttributes, p, s, sp.end);
      LinkLonger(c, linkAttributes, s[sp.start..sp.end]);
  }

  /** A pass leaves the text as it is exactly when p matches nowhere in it. */
  lemma ReplaceAllUnchanged(c: Carrier, linkAttributes: seq<Attribute>, p: Pattern, s: Bytes)
    requires Consuming(p.re)
    ensures ReplaceAll(c, linkAttributes, p, s) == s <==> NoMatchIn(p, s, 0, |s| + 1)
    ensures |ReplaceAll(c, linkAttributes, p, s)| >= |s|
  {
    ReplaceFromLength(c, linkAttributes, p, s, 0);
    if Search(p, s, 0).None? {
      assert s[0..] == s;
    }
  }

  /**
   * The text before the first match is kept, the match is replaced by its link, and
   * the search resumes right after the match.
   */
  lemma ReplaceAllFirst(c: Carrier, linkAttributes: seq<Attribute>, p: Pattern, s: Bytes, start: nat, end: nat)
    requires Consuming(p.re) && start <= |s|
    requires MatchAt(p, s, start) == Some(end)
    requires forall j :: 0 <= j < start ==> MatchAt(p, s, j).None?
    ensures start < end
    ensures ReplaceAll(c, linkAttributes, p, s)
      == s[..start] + Link(c, linkAttributes, s[start..end]) + ReplaceFrom(c, linkAttributes, p, s, end)
  {
    var r := Search(p, s, 0);
    assert r.Some? && r.value.start == start;
    SearchNonEmpty(p, s, 0);
  }

  /** Some pattern of ps matches somewhere in s. */
  predicate AnyMatch(ps: seq<Pattern>, s: Bytes)
  {
    exists i :: 0 <= i < |ps| && !NoMatchIn(ps[i], s, 0, |s| + 1)
  }

  /** The passes of patterns none of which matches s leave s as it is. */
  lemma {:induction false} ApplyPatternsUnchanged(c: Carrier, ps: seq<Pattern>, linkAttributes: seq<Attribute>, s: Bytes)
    requires forall i :: 0 <= i < |ps| ==> Consuming(ps[i].re)
    requires !AnyMatch(ps, s)
    ensures ApplyPatterns(c, ps, linkAttributes, s) == s
  {
    if ps != [] {
      var init := ps[..|ps| - 1];
      assert !AnyMatch(init, s) by {
        forall i | 0 <= i < |init| ensures NoMatchIn(init[i], s, 0, |s| + 1) {
          assert init[i] == ps[i];
        }
      }
      ApplyPatternsUnchanged(c, init, linkAttributes, s);
      ReplaceAllUnchanged(c, linkAttributes, ps[|ps| - 1], s);
    }
  }

  /**
   * The passes of a carrier never shorten the text, and lengthen it when one of
   * its patterns matches it.
   */
  lemma {:induction false} ApplyPatternsLength(c: Carrier, ps: seq<Pattern>, linkAttributes: seq<Attribute>, s: Bytes)
    requires forall i :: 0 <= i < |ps| ==> Consuming(ps[i].re)
    ensures |ApplyPatterns(c, ps, linkAttributes, s)| >= |s|
    ensures AnyMatch(ps, s) ==> |ApplyPatterns(c, ps, linkAttributes, s)| > |s|
  {
    if ps != [] {
      var init := ps[..|ps| - 1];
      var last := ps[|ps| - 1];
      ApplyPatternsLength(c, init, linkAttributes, s);
      var t := ApplyPatterns(c, init, linkAttributes, s);
      ReplaceAllUnchanged(c, linkAttributes, last, t);
      if AnyMatch(ps, s) && !AnyMatch(init, s) {
        ApplyPatternsUnchanged(c, init, linkAttributes, s);
        var i :| 0 <= i < |ps| && !NoMatchIn(ps[i], s, 0, |s| + 1);
        if i < |init| {
          assert init[i] == ps[i];
        }
        ReplaceFromLength(c, linkAttributes, last, s, 0);
      }
    }
  }

  /** Some pattern of some carrier of cs matches somewhere in s. */
  predicate AnyCarrierMatch(cs: seq<Carrier>, s: Bytes)
  {
    exists ci :: 0 <= ci < |cs| && AnyMatch(cs[ci].patterns, s)
  }

  /** The passes of carriers none of whose patterns matches s leave s as it is. */
  lemma {:induction false} ApplyCarriersUnchanged(cs: seq<Carrier>, linkAttributes: seq<Attribute>, s: Bytes)
    requires ValidCarriers(cs)
    requires !AnyCarrierMatch(cs, s)
    ensures ApplyCarriers(cs, linkAttributes, s) == s
  {
    if cs != [] {
      var init := cs[..|cs| - 1];
      assert !AnyCarrierMatch(init, s) by {
        forall ci | 0 <= ci < |init| ensures !AnyMatch(init[ci].patterns, s) {
          assert init[ci] == cs[ci];
        }
      }
      ApplyCarriersUnchanged(init, linkAttributes, s);
      ValidPatterns(cs);
      ApplyPatternsUnchanged(cs[|cs| - 1], cs[|cs| - 1].patterns, linkAttributes, s);
    }
  }

  /** The passes of carriers never shorten the text, and lengthen it when some pattern matches it. */
  lemma {:induction false} ApplyCarriersLength(cs: seq<Carrier>, linkAttributes: seq<Attribute>, s: Bytes)
    requires ValidCarriers(cs)
    ensures |ApplyCarriers(cs, linkAttributes, s)| >= |s|
    ensures AnyCarrierMatch(cs, s) ==> |ApplyCarriers(cs, linkAttributes, s)| > |s|
  {
    if cs != [] {
      var init := cs[..|cs| - 1];
      var last := cs[|cs| - 1];
      ValidPatterns(cs);
      ApplyCarriersLength(init, linkAttributes, s);
      var t := ApplyCarriers(init, linkAttributes, s);
      ApplyPatternsLength(last, last.patterns, linkAttributes, t);
      if AnyCarrierMatch(cs, s) && !AnyCarrierMatch(init, s) {
        ApplyCarriersUnchanged(init, linkAttributes, s);
        forall ci | 0 <= ci < |init| ensures !AnyMatch(cs[ci].patterns, s) {
          assert init[ci] == cs[ci];
        }
      }
    }
  }

  /**
   * `linkify` returns its input as it is exactly when no pattern of the table matches
   * anywhere in it; otherwise the result is longer.
   */
  lemma LinkifyUnchanged(cs: seq<Carrier>, linkAttributes: seq<Attribute>, s: Bytes)
    requires ValidCarriers(cs)
    ensures ApplyCarriers(cs, linkAttributes, s) == s <==> !AnyCarrierMatch(cs, s)
    ensures AnyCarrierMatch(cs, s) ==> |ApplyCarriers(cs, linkAttributes, s)| > |s|
  {
    ApplyCarriersLength(cs, linkAttributes, s);
    if !AnyCarrierMatch(cs, s) {
      ApplyCarriersUnchanged(cs, linkAttributes, s);
    }
  }
}
