/**
 * The fragment of PCRE that the carrier patterns use, with a backtracking matcher
 * that follows PCRE's priority order: the left alternative before the right one,
 * greedy repetition longest first, and the first path that succeeds decides the match.
 */
module Regex {
  import opened Text

  datatype Regex =
    | Empty                                 // matches the empty string
    | Range(lo: Byte, hi: Byte)             // one byte in [lo-hi]
    | Cat(left: Regex, right: Regex)        // left, then right
    | Alt(left: Regex, right: Regex)        // left|right
    | Rep(body: Regex, min: nat, max: nat)  // greedy body{min,max}
    | WordBoundary                          // \b
    | NotAhead(body: Regex)                 // (?!body)

  /** What remains to be matched after the current sub-pattern. */
  datatype Cont = Done | Then(next: Regex, rest: Cont)

  /** A compiled pattern: the expression and whether the /i flag is set. */
  datatype Pattern = Pattern(re: Regex, caseless: bool)

  /** The half-open span s[start..end] of a match. */
  datatype Span = Span(start: nat, end: nat)

  function Size(r: Regex): nat
  {
    match r
    case Cat(a, b) => Size(a) + Size(b) + 1
    case Alt(a, b) => Size(a) + Size(b) + 1
    case Rep(a, _, max) => (Size(a) + 1) * (max + 1)
    case NotAhead(a) => Size(a) + 1
    case _ => 1
  }

  function ContSize(k: Cont): nat
  {
    match k
    case Done => 0
    case Then(r, k') => Size(r) + ContSize(k')
  }

  /** One more iteration of a repetition is smaller than the repetition itself. */
  lemma RepSmaller(a: Regex, min: nat, max: nat)
    requires max > 0
    ensures Size(a) + Size(Rep(a, min, max - 1)) < Size(Rep(a, min, max))
  {
    calc {
      Size(a) + Size(Rep(a, min, max - 1));
      Size(a) + (Size(a) + 1) * max;
      < (Size(a) + 1) * max + Size(a) + 1;
      (Size(a) + 1) * (max + 1);
    }
  }

  /** A byte is in [lo-hi]; under /i also when its other ASCII case is. */
  predicate RangeHas(lo: Byte, hi: Byte, c: Byte, caseless: bool)
  {
    (lo <= c <= hi) || (caseless && ((lo <= Lower(c) <= hi) || (lo <= Upper(c) <= hi)))
  }

  /** Under /i, a byte is in an upper-case letter range exactly when its upper-case form is. */
  lemma CaselessUpperRange(lo: Byte, hi: Byte, c: Byte)
    requires 'A' <= lo <= hi <= 'Z'
    ensures RangeHas(lo, hi, c, true) <==> lo <= Upper(c) <= hi
  {
  }

  /** Under /i, a byte is in a lower-case letter range exactly when its lower-case form is. */
  lemma CaselessLowerRange(lo: Byte, hi: Byte, c: Byte)
    requires 'a' <= lo <= hi <= 'z'
    ensures RangeHas(lo, hi, c, true) <==> lo <= Lower(c) <= hi
  {
  }

  /** /i changes nothing for a range of digits. */
  lemma CaselessDigitRange(lo: Byte, hi: Byte, c: Byte)
    requires '0' <= lo <= hi <= '9'
    ensures RangeHas(lo, hi, c, true) <==> lo <= c <= hi
  {
  }

  /** `\b` holds at i when exactly one of the bytes around i is a word byte. */
  predicate AtBoundary(s: Bytes, i: nat)
    requires i <= |s|
  {
    (0 < i && IsWord(s[i - 1])) != (i < |s| && IsWord(s[i]))
  }

  /**
   * Matches r at position i of s and then the continuation k: the end position of the
   * first path that succeeds in PCRE's order, or None when every path fails.
   */
  function Match(r: Regex, k: Cont, s: Bytes, i: nat, caseless: bool): (m: Option<nat>)
    requires i <= |s|
    ensures m.Some? ==> i <= m.value <= |s|
    decreases Size(r) + ContSize(k), 0
  {
    match r
    case Empty => Resume(k, s, i, caseless)
    case Range(lo, hi) =>
      if i < |s| && RangeHas(lo, hi, s[i], caseless) then Resume(k, s, i + 1, caseless) else None
    case Cat(a, b) => Match(a, Then(b, k), s, i, caseless)
    case Alt(a, b) =>
      var m := Match(a, k, s, i, caseless);
      if m.Some? then m else Match(b, k, s, i, caseless)
    case Rep(a, min, max) =>
      if max == 0 then
        (if min == 0 then Resume(k, s, i, caseless) else None)
      else if min > 0 then
        RepSmaller(a, min - 1, max);
        Match(a, Then(Rep(a, min - 1, max - 1), k), s, i, caseless)
      else
        RepSmaller(a, 0, max);
        var m := Match(a, Then(Rep(a, 0, max - 1), k), s, i, caseless);
        if m.Some? then m else Resume(k, s, i, caseless)
    case WordBoundary =>
      if AtBoundary(s, i) then Resume(k, s, i, caseless) else None
    case NotAhead(a) =>
      if Match(a, Done, s, i, caseless).None? then Resume(k, s, i, caseless) else None
  }

  /** Matches the continuation k at position i. */
  function Resume(k: Cont, s: Bytes, i: nat, caseless: bool): (m: Option<nat>)
    requires i <= |s|
    ensures m.Some? ==> i <= m.value <= |s|
    decreases ContSize(k), 1
  {
    match k
    case Done => Some(i)
    case Then(r, k') => Match(r, k', s, i, caseless)
  }

  /**
   * n bytes in [lo-hi] in a row: the exact count `[lo-hi]{n}` consumes them all and
   * hands on to the continuation, whatever it is.
   */
  lemma {:induction false} RangeRun(lo: Byte, hi: Byte, n: nat, k: Cont, s: Bytes, i: nat, caseless: bool)
    requires i + n <= |s|
    requires forall j :: i <= j < i + n ==> RangeHas(lo, hi, s[j], caseless)
    ensures Match(Rep(Range(lo, hi), n, n), k, s, i, caseless) == Resume(k, s, i + n, caseless)
    decreases n
  {
    if n > 0 {
      RangeRun(lo, hi, n - 1, k, s, i + 1, caseless);
      var k' := Then(Rep(Range(lo, hi), n - 1, n - 1), k);
      assert RangeHas(lo, hi, s[i], caseless);
      assert Match(Range(lo, hi), k', s, i, caseless) == Resume(k', s, i + 1, caseless);
      assert Match(Rep(Range(lo, hi), n, n), k, s, i, caseless) == Match(Range(lo, hi), k', s, i, caseless);
    }
  }

  /** The end of the match of p that starts exactly at i, if there is one. */
  function MatchAt(p: Pattern, s: Bytes, i: nat): (m: Option<nat>)
    requires i <= |s|
    ensures m.Some? ==> i <= m.value <= |s|
  {
    Match(p.re, Done, s, i, p.caseless)
  }

  /** No match of p starts at any position in [lo, hi). */
  predicate NoMatchIn(p: Pattern, s: Bytes, lo: nat, hi: nat)
  {
    forall j :: lo <= j < hi && j <= |s| ==> MatchAt(p, s, j).None?
  }

  /**
   * The leftmost match of p that starts at or after from: what `preg_match` reports
   * for the subject s[from..] read in the context of s.
   */
  function Search(p: Pattern, s: Bytes, from: nat): (r: Option<Span>)
    requires from <= |s|
    ensures r.Some? ==> from <= r.value.start <= r.value.end <= |s|
    ensures r.Some? ==> MatchAt(p, s, r.value.start) == Some(r.value.end)
    ensures r.Some? ==> NoMatchIn(p, s, from, r.value.start)
    ensures r.None? <==> NoMatchIn(p, s, from, |s| + 1)
    decreases |s| - from
  {
    match MatchAt(p, s, from)
    case Some(e) => Some(Span(from, e))
    case None => if from == |s| then None else Search(p, s, from + 1)
  }

  /** Every match of r consumes at least one byte. */
  predicate Consuming(r: Regex)
  {
    match r
    case Range(_, _) => true
    case Cat(a, b) => Consuming(a) || Consuming(b)
    case Alt(a, b) => Consuming(a) && Consuming(b)
    case Rep(a, min, _) => min > 0 && Consuming(a)
    case _ => false
  }

  /** Some part of the continuation k consumes at least one byte. */
  predicate ContConsuming(k: Cont)
  {
    match k
    case Done => false
    case Then(r, k') => Consuming(r) || ContConsuming(k')
  }

  /** A match of a consuming pattern, or one whose continuation consumes, ends after it starts. */
  lemma {:induction false} MatchAdvances(r: Regex, k: Cont, s: Bytes, i: nat, caseless: bool)
    requires i <= |s| && (Consuming(r) || ContConsuming(k))
    ensures Match(r, k, s, i, caseless).Some? ==> Match(r, k, s, i, caseless).value > i
    decreases Size(r) + ContSize(k), 0
  {
    match r
    case Empty => ResumeAdvances(k, s, i, caseless);
    case Range(lo, hi) =>
    case Cat(a, b) => MatchAdvances(a, Then(b, k), s, i, caseless);
    case Alt(a, b) =>
      MatchAdvances(a, k, s, i, caseless);
      MatchAdvances(b, k, s, i, caseless);
    case Rep(a, min, max) =>
      if max == 0 {
        if min == 0 { ResumeAdvances(k, s, i, caseless); }
      } else if min > 0 {
        RepSmaller(a, min - 1, max);
        MatchAdvances(a, Then(Rep(a, min - 1, max - 1), k), s, i, caseless);
      } else {
        RepSmaller(a, 0, max);
        MatchAdvances(a, Then(Rep(a, 0, max - 1), k), s, i, caseless);
        ResumeAdvances(k, s, i, caseless);
      }
    case WordBoundary => ResumeAdvances(k, s, i, caseless);
    case NotAhead(a) => ResumeAdvances(k, s, i, caseless);
  }

  lemma {:induction false} ResumeAdvances(k: Cont, s: Bytes, i: nat, caseless: bool)
    requires i <= |s| && ContConsuming(k)
    ensures Resume(k, s, i, caseless).Some? ==> Resume(k, s, i, caseless).value > i
    decreases ContSize(k), 1
  {
    match k
    case Then(r, k') => MatchAdvances(r, k', s, i, caseless);
  }

  /** A match found by Search for a consuming pattern is never empty. */
  lemma SearchNonEmpty(p: Pattern, s: Bytes, from: nat)
    requires from <= |s| && Consuming(p.re)
    ensures Search(p, s, from).Some? ==> Search(p, s, from).value.start < Search(p, s, from).value.end
  {
    var r := Search(p, s, from);
    if r.Some? {
      MatchAdvances(p.re, Done, s, r.value.start, p.caseless);
    }
  }
}
