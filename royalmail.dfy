/**
 * What the Royal Mail pattern accepts, stated for every subject: a reserved prefix in
 * either case is refused, and every number of the required shape, in either case,
 * matches in full.
 */
module RoyalMailRules {
  import opened Text
  import opened Regex
  import opened Carriers

  /** The prefixes the negative lookahead refuses: EA to EE and CP (upper-case forms). */
  predicate ReservedPrefix(a: Byte, b: Byte)
  {
    (a == 'E' && 'A' <= b <= 'E') || (a == 'C' && b == 'P')
  }

  /** Under /i, two upper-case literals match the two bytes whose upper-case forms they are. */
  lemma PairMatch(a: Byte, b: Byte, s: Bytes, i: nat)
    requires 'A' <= a <= 'Z' && 'A' <= b <= 'Z' && i <= |s|
    ensures Match(Pair(a, b), Done, s, i, true).Some?
      <==> i + 1 < |s| && Upper(s[i]) == a && Upper(s[i + 1]) == b
  {
    var k := Then(Lit(b), Done);
    assert Match(Pair(a, b), Done, s, i, true) == Match(Lit(a), k, s, i, true);
    if i < |s| {
      CaselessUpperRange(a, a, s[i]);
    }
    if i < |s| && RangeHas(a, a, s[i], true) {
      assert Match(Lit(a), k, s, i, true) == Match(Lit(b), Done, s, i + 1, true);
      if i + 1 < |s| {
        CaselessUpperRange(b, b, s[i + 1]);
      }
      if i + 1 < |s| && RangeHas(b, b, s[i + 1], true) {
        assert Match(Lit(b), Done, s, i + 1, true) == Some(i + 2);
      } else {
        assert Match(Lit(b), Done, s, i + 1, true) == None;
      }
    } else {
      assert Match(Lit(a), k, s, i, true) == None;
    }
  }

  /** An alternation matches when either side does. */
  lemma AltSome(x: Regex, y: Regex, k: Cont, s: Bytes, i: nat, caseless: bool)
    requires i <= |s|
    ensures Match(Alt(x, y), k, s, i, caseless).Some?
      <==> Match(x, k, s, i, caseless).Some? || Match(y, k, s, i, caseless).Some?
  {
  }

  /** The lookahead's alternation matches at i exactly when a reserved prefix starts there. */
  lemma ReservedExactly(s: Bytes, i: nat)
    requires i <= |s|
    ensures Match(RoyalMailReserved, Done, s, i, true).Some?
      <==> i + 1 < |s| && ReservedPrefix(Upper(s[i]), Upper(s[i + 1]))
  {
    PairMatch('E', 'A', s, i);
    PairMatch('E', 'B', s, i);
    PairMatch('E', 'C', s, i);
    PairMatch('E', 'D', s, i);
    PairMatch('E', 'E', s, i);
    PairMatch('C', 'P', s, i);
    AltSome(Pair('E', 'E'), Pair('C', 'P'), Done, s, i, true);
    AltSome(Pair('E', 'D'), Alt(Pair('E', 'E'), Pair('C', 'P')), Done, s, i, true);
    AltSome(Pair('E', 'C'), Alt(Pair('E', 'D'), Alt(Pair('E', 'E'), Pair('C', 'P'))), Done, s, i, true);
    AltSome(Pair('E', 'B'), Alt(Pair('E', 'C'), Alt(Pair('E', 'D'), Alt(Pair('E', 'E'), Pair('C', 'P')))),
            Done, s, i, true);
    AltSome(Pair('E', 'A'), Alt(Pair('E', 'B'), Alt(Pair('E', 'C'), Alt(Pair('E', 'D'),
            Alt(Pair('E', 'E'), Pair('C', 'P'))))), Done, s, i, true);
  }

  // The parts of the pattern after the lookahead, as the matcher meets them.
  const Letters: Regex := Times(Alt(Range('A', 'Z'), Range('a', 'z')), 2)
  const Digits: Regex := Times(Range('0', '9'), 9)
  const Tail: Regex := Cat(Pair('G', 'B'), WordBoundary)
  const Body: Regex := Cat(Letters, Cat(Digits, Tail))

  /** The pattern is `\b`, the lookahead, then the body; matching it runs them in turn. */
  lemma PatternSteps(s: Bytes, i: nat)
    requires i <= |s|
    ensures RoyalMailPattern.re == Cat(WordBoundary, Cat(NotAhead(RoyalMailReserved), Body))
    ensures MatchAt(RoyalMailPattern, s, i)
      == if !AtBoundary(s, i) then None
         else if Match(RoyalMailReserved, Done, s, i, true).Some? then None
         else Match(Letters, Then(Cat(Digits, Tail), Done), s, i, true)
  {
  }

  /** A reserved prefix, in either case, is never the start of a Royal Mail match. */
  lemma RejectsReserved(s: Bytes, i: nat)
    requires i + 1 < |s| && ReservedPrefix(Upper(s[i]), Upper(s[i + 1]))
    ensures MatchAt(RoyalMailPattern, s, i).None?
  {
    PatternSteps(s, i);
    ReservedExactly(s, i);
  }

  /** A letter of either case consumes one byte of the letter part. */
  lemma LetterStep(k: Cont, s: Bytes, j: nat)
    requires j < |s| && 'A' <= Upper(s[j]) <= 'Z'
    ensures Match(Alt(Range('A', 'Z'), Range('a', 'z')), k, s, j, true) == Resume(k, s, j + 1, true)
  {
    CaselessUpperRange('A', 'Z', s[j]);
  }

  /** Two letters of either case: the letter part consumes them both. */
  lemma LettersRun(k: Cont, s: Bytes, i: nat)
    requires i + 2 <= |s| && 'A' <= Upper(s[i]) <= 'Z' && 'A' <= Upper(s[i + 1]) <= 'Z'
    ensures Match(Letters, k, s, i, true) == Resume(k, s, i + 2, true)
  {
    var l := Alt(Range('A', 'Z'), Range('a', 'z'));
    LetterStep(Then(Rep(l, 1, 1), k), s, i);
    LetterStep(Then(Rep(l, 0, 0), k), s, i + 1);
  }

  /** `GB` in either case followed by a boundary: the tail consumes the two bytes. */
  lemma TailRun(s: Bytes, j: nat)
    requires j + 2 <= |s| && Upper(s[j]) == 'G' && Upper(s[j + 1]) == 'B'
    requires j + 2 == |s| || !IsWord(s[j + 2])
    ensures Match(Tail, Done, s, j, true) == Some(j + 2)
  {
    CaselessUpperRange('G', 'G', s[j]);
    CaselessUpperRange('B', 'B', s[j + 1]);
    assert IsWord(Upper(s[j + 1]));
    assert AtBoundary(s, j + 2);
  }

  /** Two letters, nine digits and `GB` before a boundary: the body consumes all 13 bytes. */
  lemma BodyRun(s: Bytes, i: nat)
    requires i + 13 <= |s|
    requires i + 13 == |s| || !IsWord(s[i + 13])
    requires 'A' <= Upper(s[i]) <= 'Z' && 'A' <= Upper(s[i + 1]) <= 'Z'
    requires forall j :: i + 2 <= j < i + 11 ==> '0' <= s[j] <= '9'
    requires Upper(s[i + 11]) == 'G' && Upper(s[i + 12]) == 'B'
    ensures Match(Letters, Then(Cat(Digits, Tail), Done), s, i, true) == Some(i + 13)
  {
    LettersRun(Then(Cat(Digits, Tail), Done), s, i);
    assert Resume(Then(Cat(Digits, Tail), Done), s, i + 2, true)
      == Match(Digits, Then(Tail, Done), s, i + 2, true);
    assert forall j :: i + 2 <= j < i + 11 ==> RangeHas('0', '9', s[j], true);
    RangeRun('0', '9', 9, Then(Tail, Done), s, i + 2, true);
    TailRun(s, i + 11);
  }

  /**
   * Every number of the required shape matches in full, whatever its case: a word
   * boundary, two letters that are not a reserved prefix, nine digits, `GB`, a boundary.
   */
  lemma AcceptsShape(s: Bytes, i: nat)
    requires i + 13 <= |s|
    requires i == 0 || !IsWord(s[i - 1])
    requires i + 13 == |s| || !IsWord(s[i + 13])
    requires 'A' <= Upper(s[i]) <= 'Z' && 'A' <= Upper(s[i + 1]) <= 'Z'
    requires !ReservedPrefix(Upper(s[i]), Upper(s[i + 1]))
    requires forall j :: i + 2 <= j < i + 11 ==> '0' <= s[j] <= '9'
    requires Upper(s[i + 11]) == 'G' && Upper(s[i + 12]) == 'B'
    ensures MatchAt(RoyalMailPattern, s, i) == Some(i + 13)
  {
    assert IsWord(Upper(s[i]));
    assert AtBoundary(s, i);
    PatternSteps(s, i);
    ReservedExactly(s, i);
    BodyRun(s, i);
  }
}
