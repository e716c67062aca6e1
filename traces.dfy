/**
 * Runs of the backtracking matcher on the sample numbers. A run is cut into PartN
 * lemmas of a few steps each: a step is one call of Match, with the sub-pattern still
 * to match, its continuation, the position and the outcome; each part states the
 * outcomes later parts rely on. RunsOnX collects what the classification of the
 * number X needs: the outcome of each pattern tried at its start.
 */
module Traces {
  import opened Text
  import opened Regex
  import opened Carriers
  import opened Samples

  lemma DhlOnAwbPart1(s: Bytes)
    requires SpellsAwb(s)
    ensures Match(OptDashOrSpace.body, Then(Rep(OptDashOrSpace.body, 0, 0), Then(DhlGrouped.right.right, Then(DhlPattern.re.right.right, Done))), s, 4, true) == None
    ensures Match(DhlGrouped.right.right, Then(DhlPattern.re.right.right, Done), s, 4, true) == Some(10)
  {
    assert Match(OptDashOrSpace.body.left, Then(Rep(OptDashOrSpace.body, 0, 0), Then(DhlGrouped.right.right, Then(DhlPattern.re.right.right, Done))), s, 4, true) == None;
    assert Match(OptDashOrSpace.body.right, Then(Rep(OptDashOrSpace.body, 0, 0), Then(DhlGrouped.right.right, Then(DhlPattern.re.right.right, Done))), s, 4, true) == None;
    assert Match(OptDashOrSpace.body, Then(Rep(OptDashOrSpace.body, 0, 0), Then(DhlGrouped.right.right, Then(DhlPattern.re.right.right, Done))), s, 4, true) == None;
    assert Match(OptDashOrSpace.body.left, Then(Rep(OptDashOrSpace.body, 0, 0), Then(DhlGrouped.right.right.right.right, Then(DhlPattern.re.right.right, Done))), s, 8, true) == None;
    assert Match(OptDashOrSpace.body.right, Then(Rep(OptDashOrSpace.body, 0, 0), Then(DhlGrouped.right.right.right.right, Then(DhlPattern.re.right.right, Done))), s, 8, true) == None;
    assert Match(OptDashOrSpace.body, Then(Rep(OptDashOrSpace.body, 0, 0), Then(DhlGrouped.right.right.right.right, Then(DhlPattern.re.right.right, Done))), s, 8, true) == None;
    assert Match(DhlPattern.re.right.right, Done, s, 10, true) == Some(10);
    assert Match(Rep(Digit, 0, 0), Then(DhlPattern.re.right.right, Done), s, 10, true) == Some(10);
    assert Match(Digit, Then(Rep(Digit, 0, 0), Then(DhlPattern.re.right.right, Done)), s, 9, true) == Some(10);
    assert Match(Rep(Digit, 1, 1), Then(DhlPattern.re.right.right, Done), s, 9, true) == Some(10);
    assert Match(Digit, Then(Rep(Digit, 1, 1), Then(DhlPattern.re.right.right, Done)), s, 8, true) == Some(10);
    assert Match(DhlGrouped.right.right.right.right, Then(DhlPattern.re.right.right, Done), s, 8, true) == Some(10);
    assert Match(OptDashOrSpace, Then(DhlGrouped.right.right.right.right, Then(DhlPattern.re.right.right, Done)), s, 8, true) == Some(10);
    assert Match(DhlGrouped.right.right.right, Then(DhlPattern.re.right.right, Done), s, 8, true) == Some(10);
    assert Match(Rep(Digit, 0, 0), Then(DhlGrouped.right.right.right, Then(DhlPattern.re.right.right, Done)), s, 8, true) == Some(10);
    assert Match(Digit, Then(Rep(Digit, 0, 0), Then(DhlGrouped.right.right.right, Then(DhlPattern.re.right.right, Done))), s, 7, true) == Some(10);
    assert Match(Rep(Digit, 1, 1), Then(DhlGrouped.right.right.right, Then(DhlPattern.re.right.right, Done)), s, 7, true) == Some(10);
    assert Match(Digit, Then(Rep(Digit, 1, 1), Then(DhlGrouped.right.right.right, Then(DhlPattern.re.right.right, Done))), s, 6, true) == Some(10);
    assert Match(Rep(Digit, 2, 2), Then(DhlGrouped.right.right.right, Then(DhlPattern.re.right.right, Done)), s, 6, true) == Some(10);
    assert Match(Digit, Then(Rep(Digit, 2, 2), Then(DhlGrouped.right.right.right, Then(DhlPattern.re.right.right, Done))), s, 5, true) == Some(10);
    assert Match(Rep(Digit, 3, 3), Then(DhlGrouped.right.right.right, Then(DhlPattern.re.right.right, Done)), s, 5, true) == Some(10);
    assert Match(Digit, Then(Rep(Digit, 3, 3), Then(DhlGrouped.right.right.right, Then(DhlPattern.re.right.right, Done))), s, 4, true) == Some(10);
    assert Match(DhlGrouped.right.right.left, Then(DhlGrouped.right.right.right, Then(DhlPattern.re.right.right, Done)), s, 4, true) == Some(10);
  }

  lemma DhlOnAwbPart2(s: Bytes)
    requires SpellsAwb(s)
    ensures Match(DhlPattern.re, Done, s, 0, true) == Some(10)
  {
    DhlOnAwbPart1(s);
    assert Match(OptDashOrSpace, Then(DhlGrouped.right.right, Then(DhlPattern.re.right.right, Done)), s, 4, true) == Some(10);
    assert Match(DhlGrouped.right, Then(DhlPattern.re.right.right, Done), s, 4, true) == Some(10);
    assert Match(Rep(Digit, 0, 0), Then(DhlGrouped.right, Then(DhlPattern.re.right.right, Done)), s, 4, true) == Some(10);
    assert Match(Digit, Then(Rep(Digit, 0, 0), Then(DhlGrouped.right, Then(DhlPattern.re.right.right, Done))), s, 3, true) == Some(10);
    assert Match(Rep(Digit, 1, 1), Then(DhlGrouped.right, Then(DhlPattern.re.right.right, Done)), s, 3, true) == Some(10);
    assert Match(Digit, Then(Rep(Digit, 1, 1), Then(DhlGrouped.right, Then(DhlPattern.re.right.right, Done))), s, 2, true) == Some(10);
    assert Match(Rep(Digit, 2, 2), Then(DhlGrouped.right, Then(DhlPattern.re.right.right, Done)), s, 2, true) == Some(10);
    assert Match(Digit, Then(Rep(Digit, 2, 2), Then(DhlGrouped.right, Then(DhlPattern.re.right.right, Done))), s, 1, true) == Some(10);
    assert Match(Rep(Digit, 3, 3), Then(DhlGrouped.right, Then(DhlPattern.re.right.right, Done)), s, 1, true) == Some(10);
    assert Match(Digit, Then(Rep(Digit, 3, 3), Then(DhlGrouped.right, Then(DhlPattern.re.right.right, Done))), s, 0, true) == Some(10);
    assert Match(DhlGrouped.left, Then(DhlGrouped.right, Then(DhlPattern.re.right.right, Done)), s, 0, true) == Some(10);
    assert Match(DhlGrouped, Then(DhlPattern.re.right.right, Done), s, 0, true) == Some(10);
    assert Match(DhlPattern.re.right.left, Then(DhlPattern.re.right.right, Done), s, 0, true) == Some(10);
    assert Match(DhlPattern.re.right, Done, s, 0, true) == Some(10);
    assert Match(DhlPattern.re.left, Then(DhlPattern.re.right, Done), s, 0, true) == Some(10);
  }

  lemma Usps3OnAwbPart1(s: Bytes)
    requires SpellsAwb(s)
    ensures Match(OptSpace.body, Then(Rep(OptSpace.body, 0, 0), Then(UspsPattern3.re.right.left.right.right, Then(UspsPattern3.re.right.right, Done))), s, 2, true) == None
    ensures Match(Rep(Digit, 1, 1), Then(UspsPattern3.re.right.left.right.right.right, Then(UspsPattern3.re.right.right, Done)), s, 4, true) == Some(10)
  {
    assert Match(OptSpace.body, Then(Rep(OptSpace.body, 0, 0), Then(UspsPattern3.re.right.left.right.right, Then(UspsPattern3.re.right.right, Done))), s, 2, true) == None;
    assert Match(OptSpace.body, Then(Rep(OptSpace.body, 0, 0), Then(UspsPattern3.re.right.left.right.right.right.right, Then(UspsPattern3.re.right.right, Done))), s, 5, true) == None;
    assert Match(OptSpace.body, Then(Rep(OptSpace.body, 0, 0), Then(UspsPattern3.re.right.left.right.right.right.right.right.right, Then(UspsPattern3.re.right.right, Done))), s, 8, true) == None;
    assert Match(UspsPattern3.re.right.right, Done, s, 10, true) == Some(10);
    assert Match(Rep(Digit, 0, 0), Then(UspsPattern3.re.right.right, Done), s, 10, true) == Some(10);
    assert Match(Digit, Then(Rep(Digit, 0, 0), Then(UspsPattern3.re.right.right, Done)), s, 9, true) == Some(10);
    assert Match(Rep(Digit, 1, 1), Then(UspsPattern3.re.right.right, Done), s, 9, true) == Some(10);
    assert Match(Digit, Then(Rep(Digit, 1, 1), Then(UspsPattern3.re.right.right, Done)), s, 8, true) == Some(10);
    assert Match(UspsPattern3.re.right.left.right.right.right.right.right.right, Then(UspsPattern3.re.right.right, Done), s, 8, true) == Some(10);
    assert Match(OptSpace, Then(UspsPattern3.re.right.left.right.right.right.right.right.right, Then(UspsPattern3.re.right.right, Done)), s, 8, true) == Some(10);
    assert Match(UspsPattern3.re.right.left.right.right.right.right.right, Then(UspsPattern3.re.right.right, Done), s, 8, true) == Some(10);
    assert Match(Rep(Digit, 0, 0), Then(UspsPattern3.re.right.left.right.right.right.right.right, Then(UspsPattern3.re.right.right, Done)), s, 8, true) == Some(10);
    assert Match(Digit, Then(Rep(Digit, 0, 0), Then(UspsPattern3.re.right.left.right.right.right.right.right, Then(UspsPattern3.re.right.right, Done))), s, 7, true) == Some(10);
    assert Match(Rep(Digit, 1, 1), Then(UspsPattern3.re.right.left.right.right.right.right.right, Then(UspsPattern3.re.right.right, Done)), s, 7, true) == Some(10);
    assert Match(Digit, Then(Rep(Digit, 1, 1), Then(UspsPattern3.re.right.left.right.right.right.right.right, Then(UspsPattern3.re.right.right, Done))), s, 6, true) == Some(10);
    assert Match(Rep(Digit, 2, 2), Then(UspsPattern3.re.right.left.right.right.right.right.right, Then(UspsPattern3.re.right.right, Done)), s, 6, true) == Some(10);
    assert Match(Digit, Then(Rep(Digit, 2, 2), Then(UspsPattern3.re.right.left.right.right.right.right.right, Then(UspsPattern3.re.right.right, Done))), s, 5, true) == Some(10);
    assert Match(UspsPattern3.re.right.left.right.right.right.right.left, Then(UspsPattern3.re.right.left.right.right.right.right.right, Then(UspsPattern3.re.right.right, Done)), s, 5, true) == Some(10);
    assert Match(UspsPattern3.re.right.left.right.right.right.right, Then(UspsPattern3.re.right.right, Done), s, 5, true) == Some(10);
    assert Match(OptSpace, Then(UspsPattern3.re.right.left.right.right.right.right, Then(UspsPattern3.re.right.right, Done)), s, 5, true) == Some(10);
    assert Match(UspsPattern3.re.right.left.right.right.right, Then(UspsPattern3.re.right.right, Done), s, 5, true) == Some(10);
    assert Match(Rep(Digit, 0, 0), Then(UspsPattern3.re.right.left.right.right.right, Then(UspsPattern3.re.right.right, Done)), s, 5, true) == Some(10);
    assert Match(Digit, Then(Rep(Digit, 0, 0), Then(UspsPattern3.re.right.left.right.right.right, Then(UspsPattern3.re.right.right, Done))), s, 4, true) == Some(10);
  }

  lemma Usps3OnAwbPart2(s: Bytes)
    requires SpellsAwb(s)
    ensures Match(UspsPattern3.re, Done, s, 0, true) == Some(10)
  {
    Usps3OnAwbPart1(s);
    assert Match(Digit, Then(Rep(Digit, 1, 1), Then(UspsPattern3.re.right.left.right.right.right, Then(UspsPattern3.re.right.right, Done))), s, 3, true) == Some(10);
    assert Match(Rep(Digit, 2, 2), Then(UspsPattern3.re.right.left.right.right.right, Then(UspsPattern3.re.right.right, Done)), s, 3, true) == Some(10);
    assert Match(Digit, Then(Rep(Digit, 2, 2), Then(UspsPattern3.re.right.left.right.right.right, Then(UspsPattern3.re.right.right, Done))), s, 2, true) == Some(10);
    assert Match(UspsPattern3.re.right.left.right.right.left, Then(UspsPattern3.re.right.left.right.right.right, Then(UspsPattern3.re.right.right, Done)), s, 2, true) == Some(10);
    assert Match(UspsPattern3.re.right.left.right.right, Then(UspsPattern3.re.right.right, Done), s, 2, true) == Some(10);
    assert Match(OptSpace, Then(UspsPattern3.re.right.left.right.right, Then(UspsPattern3.re.right.right, Done)), s, 2, true) == Some(10);
    assert Match(UspsPattern3.re.right.left.right, Then(UspsPattern3.re.right.right, Done), s, 2, true) == Some(10);
    assert Match(UspsPattern3.re.right.left.left.right, Then(UspsPattern3.re.right.left.right, Then(UspsPattern3.re.right.right, Done)), s, 1, true) == Some(10);
    assert Match(UspsPattern3.re.right.left.left.left, Then(UspsPattern3.re.right.left.left.right, Then(UspsPattern3.re.right.left.right, Then(UspsPattern3.re.right.right, Done))), s, 0, true) == Some(10);
    assert Match(UspsPattern3.re.right.left.left, Then(UspsPattern3.re.right.left.right, Then(UspsPattern3.re.right.right, Done)), s, 0, true) == Some(10);
    assert Match(UspsPattern3.re.right.left, Then(UspsPattern3.re.right.right, Done), s, 0, true) == Some(10);
    assert Match(UspsPattern3.re.right, Done, s, 0, true) == Some(10);
    assert Match(UspsPattern3.re.left, Then(UspsPattern3.re.right, Done), s, 0, true) == Some(10);
  }

  /** The DHL number of the examples: DHL and the third USPS pattern both match all of it. */
  lemma RunsOnAwb()
    ensures MatchAt(DhlPattern, NumAwb, 0) == Some(10)
    ensures MatchAt(UspsPattern3, NumAwb, 0) == Some(10)
  {
    NumAwbSpelled();
    DhlOnAwbPart2(NumAwb);
    Usps3OnAwbPart2(NumAwb);
  }

  lemma DhlOnTwelvePart1(s: Bytes)
    requires SpellsTwelve(s)
    ensures Match(OptDashOrSpace.body, Then(Rep(OptDashOrSpace.body, 0, 0), Then(DhlGrouped.right.right, Then(DhlPattern.re.right.right, Done))), s, 4, true) == None
    ensures Match(DhlGrouped.right.right.right, Then(DhlPattern.re.right.right, Done), s, 8, true) == None
  {
    assert Match(OptDashOrSpace.body.left, Then(Rep(OptDashOrSpace.body, 0, 0), Then(DhlGrouped.right.right, Then(DhlPattern.re.right.right, Done))), s, 4, true) == None;
    assert Match(OptDashOrSpace.body.right, Then(Rep(OptDashOrSpace.body, 0, 0), Then(DhlGrouped.right.right, Then(DhlPattern.re.right.right, Done))), s, 4, true) == None;
    assert Match(OptDashOrSpace.body, Then(Rep(OptDashOrSpace.body, 0, 0), Then(DhlGrouped.right.right, Then(DhlPattern.re.right.right, Done))), s, 4, true) == None;
    assert Match(OptDashOrSpace.body.left, Then(Rep(OptDashOrSpace.body, 0, 0), Then(DhlGrouped.right.right.right.right, Then(DhlPattern.re.right.right, Done))), s, 8, true) == None;
    assert Match(OptDashOrSpace.body.right, Then(Rep(OptDashOrSpace.body, 0, 0), Then(DhlGrouped.right.right.right.right, Then(DhlPattern.re.right.right, Done))), s, 8, true) == None;
    assert Match(OptDashOrSpace.body, Then(Rep(OptDashOrSpace.body, 0, 0), Then(DhlGrouped.right.right.right.right, Then(DhlPattern.re.right.right, Done))), s, 8, true) == None;
    assert Match(DhlPattern.re.right.right, Done, s, 10, true) == None;
    assert Match(Rep(Digit, 0, 0), Then(DhlPattern.re.right.right, Done), s, 10, true) == None;
    assert Match(Digit, Then(Rep(Digit, 0, 0), Then(DhlPattern.re.right.right, Done)), s, 9, true) == None;
    assert Match(Rep(Digit, 1, 1), Then(DhlPattern.re.right.right, Done), s, 9, true) == None;
    assert Match(Digit, Then(Rep(Digit, 1, 1), Then(DhlPattern.re.right.right, Done)), s, 8, true) == None;
    assert Match(DhlGrouped.right.right.right.right, Then(DhlPattern.re.right.right, Done), s, 8, true) == None;
    assert Match(OptDashOrSpace, Then(DhlGrouped.right.right.right.right, Then(DhlPattern.re.right.right, Done)), s, 8, true) == None;
  }

  lemma DhlOnTwelvePart2(s: Bytes)
    requires SpellsTwelve(s)
    ensures Match(Digit, Then(Rep(Digit, 0, 0), Then(DhlGrouped.right, Then(DhlPattern.re.right.right, Done))), s, 3, true) == None
  {
    DhlOnTwelvePart1(s);
    assert Match(Rep(Digit, 0, 0), Then(DhlGrouped.right.right.right, Then(DhlPattern.re.right.right, Done)), s, 8, true) == None;
    assert Match(Digit, Then(Rep(Digit, 0, 0), Then(DhlGrouped.right.right.right, Then(DhlPattern.re.right.right, Done))), s, 7, true) == None;
    assert Match(Rep(Digit, 1, 1), Then(DhlGrouped.right.right.right, Then(DhlPattern.re.right.right, Done)), s, 7, true) == None;
    assert Match(Digit, Then(Rep(Digit, 1, 1), Then(DhlGrouped.right.right.right, Then(DhlPattern.re.right.right, Done))), s, 6, true) == None;
    assert Match(Rep(Digit, 2, 2), Then(DhlGrouped.right.right.right, Then(DhlPattern.re.right.right, Done)), s, 6, true) == None;
    assert Match(Digit, Then(Rep(Digit, 2, 2), Then(DhlGrouped.right.right.right, Then(DhlPattern.re.right.right, Done))), s, 5, true) == None;
    assert Match(Rep(Digit, 3, 3), Then(DhlGrouped.right.right.right, Then(DhlPattern.re.right.right, Done)), s, 5, true) == None;
    assert Match(Digit, Then(Rep(Digit, 3, 3), Then(DhlGrouped.right.right.right, Then(DhlPattern.re.right.right, Done))), s, 4, true) == None;
    assert Match(DhlGrouped.right.right.left, Then(DhlGrouped.right.right.right, Then(DhlPattern.re.right.right, Done)), s, 4, true) == None;
    assert Match(DhlGrouped.right.right, Then(DhlPattern.re.right.right, Done), s, 4, true) == None;
    assert Match(OptDashOrSpace, Then(DhlGrouped.right.right, Then(DhlPattern.re.right.right, Done)), s, 4, true) == None;
    assert Match(DhlGrouped.right, Then(DhlPattern.re.right.right, Done), s, 4, true) == None;
    assert Match(Rep(Digit, 0, 0), Then(DhlGrouped.right, Then(DhlPattern.re.right.right, Done)), s, 4, true) == None;
  }

  lemma DhlOnTwelvePart3(s: Bytes)
    requires SpellsTwelve(s)
    ensures Match(DhlGrouped, Then(DhlPattern.re.right.right, Done), s, 0, true) == None
    ensures Match(OptDashOrSpace.body, Then(Rep(OptDashOrSpace.body, 0, 0), Then(DhlLong.right.right, Then(DhlPattern.re.right.right, Done))), s, 3, true) == None
    ensures Match(Digit, Then(Rep(Digit, 0, 0), Then(DhlPattern.re.right.right, Done)), s, 10, true) == None
  {
    DhlOnTwelvePart2(s);
    assert Match(Rep(Digit, 1, 1), Then(DhlGrouped.right, Then(DhlPattern.re.right.right, Done)), s, 3, true) == None;
    assert Match(Digit, Then(Rep(Digit, 1, 1), Then(DhlGrouped.right, Then(DhlPattern.re.right.right, Done))), s, 2, true) == None;
    assert Match(Rep(Digit, 2, 2), Then(DhlGrouped.right, Then(DhlPattern.re.right.right, Done)), s, 2, true) == None;
    assert Match(Digit, Then(Rep(Digit, 2, 2), Then(DhlGrouped.right, Then(DhlPattern.re.right.right, Done))), s, 1, true) == None;
    assert Match(Rep(Digit, 3, 3), Then(DhlGrouped.right, Then(DhlPattern.re.right.right, Done)), s, 1, true) == None;
    assert Match(Digit, Then(Rep(Digit, 3, 3), Then(DhlGrouped.right, Then(DhlPattern.re.right.right, Done))), s, 0, true) == None;
    assert Match(DhlGrouped.left, Then(DhlGrouped.right, Then(DhlPattern.re.right.right, Done)), s, 0, true) == None;
    assert Match(DhlGrouped, Then(DhlPattern.re.right.right, Done), s, 0, true) == None;
    assert Match(OptDashOrSpace.body.left, Then(Rep(OptDashOrSpace.body, 0, 0), Then(DhlLong.right.right, Then(DhlPattern.re.right.right, Done))), s, 3, true) == None;
    assert Match(OptDashOrSpace.body.right, Then(Rep(OptDashOrSpace.body, 0, 0), Then(DhlLong.right.right, Then(DhlPattern.re.right.right, Done))), s, 3, true) == None;
    assert Match(OptDashOrSpace.body, Then(Rep(OptDashOrSpace.body, 0, 0), Then(DhlLong.right.right, Then(DhlPattern.re.right.right, Done))), s, 3, true) == None;
    assert Match(DhlPattern.re.right.right, Done, s, 11, true) == None;
    assert Match(Rep(Digit, 0, 0), Then(DhlPattern.re.right.right, Done), s, 11, true) == None;
  }

  lemma DhlOnTwelvePart4(s: Bytes)
    requires SpellsTwelve(s)
    ensures Match(Digit, Then(Rep(Digit, 7, 7), Then(DhlPattern.re.right.right, Done)), s, 3, true) == None
  {
    DhlOnTwelvePart3(s);
    assert Match(Rep(Digit, 1, 1), Then(DhlPattern.re.right.right, Done), s, 10, true) == None;
    assert Match(Digit, Then(Rep(Digit, 1, 1), Then(DhlPattern.re.right.right, Done)), s, 9, true) == None;
    assert Match(Rep(Digit, 2, 2), Then(DhlPattern.re.right.right, Done), s, 9, true) == None;
    assert Match(Digit, Then(Rep(Digit, 2, 2), Then(DhlPattern.re.right.right, Done)), s, 8, true) == None;
    assert Match(Rep(Digit, 3, 3), Then(DhlPattern.re.right.right, Done), s, 8, true) == None;
    assert Match(Digit, Then(Rep(Digit, 3, 3), Then(DhlPattern.re.right.right, Done)), s, 7, true) == None;
    assert Match(Rep(Digit, 4, 4), Then(DhlPattern.re.right.right, Done), s, 7, true) == None;
    assert Match(Digit, Then(Rep(Digit, 4, 4), Then(DhlPattern.re.right.right, Done)), s, 6, true) == None;
    assert Match(Rep(Digit, 5, 5), Then(DhlPattern.re.right.right, Done), s, 6, true) == None;
    assert Match(Digit, Then(Rep(Digit, 5, 5), Then(DhlPattern.re.right.right, Done)), s, 5, true) == None;
    assert Match(Rep(Digit, 6, 6), Then(DhlPattern.re.right.right, Done), s, 5, true) == None;
    assert Match(Digit, Then(Rep(Digit, 6, 6), Then(DhlPattern.re.right.right, Done)), s, 4, true) == None;
    assert Match(Rep(Digit, 7, 7), Then(DhlPattern.re.right.right, Done), s, 4, true) == None;
  }

  lemma DhlOnTwelvePart5(s: Bytes)
    requires SpellsTwelve(s)
    ensures Match(DhlLong, Then(DhlPattern.re.right.right, Done), s, 0, true) == None
    ensures Match(DhlLettered, Then(DhlPattern.re.right.right, Done), s, 0, true) == None
  {
    DhlOnTwelvePart3(s);
    DhlOnTwelvePart4(s);
    assert Match(DhlLong.right.right, Then(DhlPattern.re.right.right, Done), s, 3, true) == None;
    assert Match(OptDashOrSpace, Then(DhlLong.right.right, Then(DhlPattern.re.right.right, Done)), s, 3, true) == None;
    assert Match(DhlLong.right, Then(DhlPattern.re.right.right, Done), s, 3, true) == None;
    assert Match(Rep(Digit, 0, 0), Then(DhlLong.right, Then(DhlPattern.re.right.right, Done)), s, 3, true) == None;
    assert Match(Digit, Then(Rep(Digit, 0, 0), Then(DhlLong.right, Then(DhlPattern.re.right.right, Done))), s, 2, true) == None;
    assert Match(Rep(Digit, 1, 1), Then(DhlLong.right, Then(DhlPattern.re.right.right, Done)), s, 2, true) == None;
    assert Match(Digit, Then(Rep(Digit, 1, 1), Then(DhlLong.right, Then(DhlPattern.re.right.right, Done))), s, 1, true) == None;
    assert Match(Rep(Digit, 2, 2), Then(DhlLong.right, Then(DhlPattern.re.right.right, Done)), s, 1, true) == None;
    assert Match(Digit, Then(Rep(Digit, 2, 2), Then(DhlLong.right, Then(DhlPattern.re.right.right, Done))), s, 0, true) == None;
    assert Match(DhlLong.left, Then(DhlLong.right, Then(DhlPattern.re.right.right, Done)), s, 0, true) == None;
    assert Match(DhlLong, Then(DhlPattern.re.right.right, Done), s, 0, true) == None;
    assert Match(Letter, Then(Rep(Letter, 2, 2), Then(DhlLettered.right, Then(DhlPattern.re.right.right, Done))), s, 0, true) == None;
    assert Match(DhlLettered.left, Then(DhlLettered.right, Then(DhlPattern.re.right.right, Done)), s, 0, true) == None;
  }

  lemma DhlOnTwelvePart6(s: Bytes)
    requires SpellsTwelve(s)
    ensures Match(DhlPattern.re, Done, s, 0, true) == None
  {
    DhlOnTwelvePart3(s);
    DhlOnTwelvePart5(s);
    assert Match(DhlPattern.re.right.left.right, Then(DhlPattern.re.right.right, Done), s, 0, true) == None;
    assert Match(DhlPattern.re.right.left, Then(DhlPattern.re.right.right, Done), s, 0, true) == None;
    assert Match(DhlPattern.re.right, Done, s, 0, true) == None;
    assert Match(DhlPattern.re.left, Then(DhlPattern.re.right, Done), s, 0, true) == None;
  }

  lemma FedExOnTwelvePart1(s: Bytes)
    requires SpellsTwelve(s)
    ensures Match(FedExHead.left, Then(FedExPattern.re.right.left.right, Then(FedExPattern.re.right.right, Done)), s, 0, true) == None
    ensures Match(FedExHead.right.left, Then(FedExPattern.re.right.left.right, Then(FedExPattern.re.right.right, Done)), s, 0, true) == None
    ensures Match(OptSpace.body, Then(Rep(OptSpace.body, 0, 0), Then(FedExPattern.re.right.left.right.right, Then(FedExPattern.re.right.right, Done))), s, 4, true) == None
    ensures Match(OptSpace.body, Then(Rep(OptSpace.body, 0, 0), Then(FedExPattern.re.right.left.right.right.right.right, Then(FedExPattern.re.right.right, Done))), s, 8, true) == None
    ensures Match(Rep(Digit, 2, 2), Then(FedExPattern.re.right.left.right.right.right.right.right, Then(FedExPattern.re.right.right, Done)), s, 10, true) == Some(12)
  {
    assert Match(FedExHead.left.left.left.left.left, Then(FedExHead.left.left.left.left.right, Then(FedExHead.left.left.left.right, Then(FedExHead.left.right, Then(FedExPattern.re.right.left.right, Then(FedExPattern.re.right.right, Done))))), s, 0, true) == None;
    assert Match(FedExHead.left.left.left.left, Then(FedExHead.left.left.left.right, Then(FedExHead.left.right, Then(FedExPattern.re.right.left.right, Then(FedExPattern.re.right.right, Done)))), s, 0, true) == None;
    assert Match(FedExHead.left.left.left, Then(FedExHead.left.right, Then(FedExPattern.re.right.left.right, Then(FedExPattern.re.right.right, Done))), s, 0, true) == None;
    assert Match(FedExHead.left.left.right.left, Then(Digit, Then(FedExHead.left.right, Then(FedExPattern.re.right.left.right, Then(FedExPattern.re.right.right, Done)))), s, 0, true) == None;
    assert Match(FedExHead.left.left.right, Then(FedExHead.left.right, Then(FedExPattern.re.right.left.right, Then(FedExPattern.re.right.right, Done))), s, 0, true) == None;
    assert Match(FedExHead.left.left, Then(FedExHead.left.right, Then(FedExPattern.re.right.left.right, Then(FedExPattern.re.right.right, Done))), s, 0, true) == None;
    assert Match(FedExHead.left, Then(FedExPattern.re.right.left.right, Then(FedExPattern.re.right.right, Done)), s, 0, true) == None;
    assert Match(FedExHead.right.left.left.left, Then(FedExHead.right.left.left.right, Then(FedExHead.right.left.right, Then(FedExPattern.re.right.left.right, Then(FedExPattern.re.right.right, Done)))), s, 0, true) == None;
    assert Match(FedExHead.right.left.left, Then(FedExHead.right.left.right, Then(FedExPattern.re.right.left.right, Then(FedExPattern.re.right.right, Done))), s, 0, true) == None;
    assert Match(FedExHead.right.left, Then(FedExPattern.re.right.left.right, Then(FedExPattern.re.right.right, Done)), s, 0, true) == None;
    assert Match(OptSpace.body, Then(Rep(OptSpace.body, 0, 0), Then(FedExPattern.re.right.left.right.right, Then(FedExPattern.re.right.right, Done))), s, 4, true) == None;
    assert Match(OptSpace.body, Then(Rep(OptSpace.body, 0, 0), Then(FedExPattern.re.right.left.right.right.right.right, Then(FedExPattern.re.right.right, Done))), s, 8, true) == None;
    assert Match(OptSpace.body, Then(Rep(OptSpace.body, 0, 0), Then(FedExPattern.re.right.left.right.right.right.right.right.body.right, Then(Rep(FedExPattern.re.right.left.right.right.right.right.right.body, 0, 0), Then(FedExPattern.re.right.right, Done)))), s, 12, true) == None;
    assert Match(Digit, Then(Rep(Digit, 2, 2), Then(Rep(FedExPattern.re.right.left.right.right.right.right.right.body, 0, 0), Then(FedExPattern.re.right.right, Done))), s, 12, true) == None;
    assert Match(FedExPattern.re.right.left.right.right.right.right.right.body.right, Then(Rep(FedExPattern.re.right.left.right.right.right.right.right.body, 0, 0), Then(FedExPattern.re.right.right, Done)), s, 12, true) == None;
    assert Match(OptSpace, Then(FedExPattern.re.right.left.right.right.right.right.right.body.right, Then(Rep(FedExPattern.re.right.left.right.right.right.right.right.body, 0, 0), Then(FedExPattern.re.right.right, Done))), s, 12, true) == None;
    assert Match(FedExPattern.re.right.left.right.right.right.right.right.body, Then(Rep(FedExPattern.re.right.left.right.right.right.right.right.body, 0, 0), Then(FedExPattern.re.right.right, Done)), s, 12, true) == None;
    assert Match(FedExPattern.re.right.right, Done, s, 12, true) == Some(12);
    assert Match(FedExPattern.re.right.left.right.right.right.right.right, Then(FedExPattern.re.right.right, Done), s, 12, true) == Some(12);
    assert Match(Rep(Digit, 0, 0), Then(FedExPattern.re.right.left.right.right.right.right.right, Then(FedExPattern.re.right.right, Done)), s, 12, true) == Some(12);
    assert Match(Digit, Then(Rep(Digit, 0, 0), Then(FedExPattern.re.right.left.right.right.right.right.right, Then(FedExPattern.re.right.right, Done))), s, 11, true) == Some(12);
    assert Match(Rep(Digit, 1, 1), Then(FedExPattern.re.right.left.right.right.right.right.right, Then(FedExPattern.re.right.right, Done)), s, 11, true) == Some(12);
    assert Match(Digit, Then(Rep(Digit, 1, 1), Then(FedExPattern.re.right.left.right.right.right.right.right, Then(FedExPattern.re.right.right, Done))), s, 10, true) == Some(12);
  }

  lemma FedExOnTwelvePart2(s: Bytes)
    requires SpellsTwelve(s)
    ensures Match(Rep(Digit, 2, 2), Then(FedExPattern.re.right.left.right, Then(FedExPattern.re.right.right, Done)), s, 2, true) == Some(12)
  {
    FedExOnTwelvePart1(s);
    assert Match(Digit, Then(Rep(Digit, 2, 2), Then(FedExPattern.re.right.left.right.right.right.right.right, Then(FedExPattern.re.right.right, Done))), s, 9, true) == Some(12);
    assert Match(Rep(Digit, 3, 3), Then(FedExPattern.re.right.left.right.right.right.right.right, Then(FedExPattern.re.right.right, Done)), s, 9, true) == Some(12);
    assert Match(Digit, Then(Rep(Digit, 3, 3), Then(FedExPattern.re.right.left.right.right.right.right.right, Then(FedExPattern.re.right.right, Done))), s, 8, true) == Some(12);
    assert Match(FedExPattern.re.right.left.right.right.right.right.left, Then(FedExPattern.re.right.left.right.right.right.right.right, Then(FedExPattern.re.right.right, Done)), s, 8, true) == Some(12);
    assert Match(FedExPattern.re.right.left.right.right.right.right, Then(FedExPattern.re.right.right, Done), s, 8, true) == Some(12);
    assert Match(OptSpace, Then(FedExPattern.re.right.left.right.right.right.right, Then(FedExPattern.re.right.right, Done)), s, 8, true) == Some(12);
    assert Match(FedExPattern.re.right.left.right.right.right, Then(FedExPattern.re.right.right, Done), s, 8, true) == Some(12);
    assert Match(Rep(Digit, 0, 0), Then(FedExPattern.re.right.left.right.right.right, Then(FedExPattern.re.right.right, Done)), s, 8, true) == Some(12);
    assert Match(Digit, Then(Rep(Digit, 0, 0), Then(FedExPattern.re.right.left.right.right.right, Then(FedExPattern.re.right.right, Done))), s, 7, true) == Some(12);
    assert Match(Rep(Digit, 1, 1), Then(FedExPattern.re.right.left.right.right.right, Then(FedExPattern.re.right.right, Done)), s, 7, true) == Some(12);
    assert Match(Digit, Then(Rep(Digit, 1, 1), Then(FedExPattern.re.right.left.right.right.right, Then(FedExPattern.re.right.right, Done))), s, 6, true) == Some(12);
    assert Match(Rep(Digit, 2, 2), Then(FedExPattern.re.right.left.right.right.right, Then(FedExPattern.re.right.right, Done)), s, 6, true) == Some(12);
    assert Match(Digit, Then(Rep(Digit, 2, 2), Then(FedExPattern.re.right.left.right.right.right, Then(FedExPattern.re.right.right, Done))), s, 5, true) == Some(12);
    assert Match(Rep(Digit, 3, 3), Then(FedExPattern.re.right.left.right.right.right, Then(FedExPattern.re.right.right, Done)), s, 5, true) == Some(12);
    assert Match(Digit, Then(Rep(Digit, 3, 3), Then(FedExPattern.re.right.left.right.right.right, Then(FedExPattern.re.right.right, Done))), s, 4, true) == Some(12);
    assert Match(FedExPattern.re.right.left.right.right.left, Then(FedExPattern.re.right.left.right.right.right, Then(FedExPattern.re.right.right, Done)), s, 4, true) == Some(12);
    assert Match(FedExPattern.re.right.left.right.right, Then(FedExPattern.re.right.right, Done), s, 4, true) == Some(12);
    assert Match(OptSpace, Then(FedExPattern.re.right.left.right.right, Then(FedExPattern.re.right.right, Done)), s, 4, true) == Some(12);
    assert Match(FedExPattern.re.right.left.right, Then(FedExPattern.re.right.right, Done), s, 4, true) == Some(12);
    assert Match(Rep(Digit, 0, 0), Then(FedExPattern.re.right.left.right, Then(FedExPattern.re.right.right, Done)), s, 4, true) == Some(12);
    assert Match(Digit, Then(Rep(Digit, 0, 0), Then(FedExPattern.re.right.left.right, Then(FedExPattern.re.right.right, Done))), s, 3, true) == Some(12);
    assert Match(Rep(Digit, 1, 1), Then(FedExPattern.re.right.left.right, Then(FedExPattern.re.right.right, Done)), s, 3, true) == Some(12);
    assert Match(Digit, Then(Rep(Digit, 1, 1), Then(FedExPattern.re.right.left.right, Then(FedExPattern.re.right.right, Done))), s, 2, true) == Some(12);
  }

  lemma FedExOnTwelvePart3(s: Bytes)
    requires SpellsTwelve(s)
    ensures Match(FedExPattern.re, Done, s, 0, true) == Some(12)
  {
    FedExOnTwelvePart1(s);
    FedExOnTwelvePart2(s);
    assert Match(Digit, Then(Rep(Digit, 2, 2), Then(FedExPattern.re.right.left.right, Then(FedExPattern.re.right.right, Done))), s, 1, true) == Some(12);
    assert Match(Rep(Digit, 3, 3), Then(FedExPattern.re.right.left.right, Then(FedExPattern.re.right.right, Done)), s, 1, true) == Some(12);
    assert Match(Digit, Then(Rep(Digit, 3, 3), Then(FedExPattern.re.right.left.right, Then(FedExPattern.re.right.right, Done))), s, 0, true) == Some(12);
    assert Match(FedExHead.right.right, Then(FedExPattern.re.right.left.right, Then(FedExPattern.re.right.right, Done)), s, 0, true) == Some(12);
    assert Match(FedExHead.right, Then(FedExPattern.re.right.left.right, Then(FedExPattern.re.right.right, Done)), s, 0, true) == Some(12);
    assert Match(FedExHead, Then(FedExPattern.re.right.left.right, Then(FedExPattern.re.right.right, Done)), s, 0, true) == Some(12);
    assert Match(FedExPattern.re.right.left, Then(FedExPattern.re.right.right, Done), s, 0, true) == Some(12);
    assert Match(FedExPattern.re.right, Done, s, 0, true) == Some(12);
    assert Match(FedExPattern.re.left, Then(FedExPattern.re.right, Done), s, 0, true) == Some(12);
  }

  /** A twelve-digit FedEx number: DHL fails on it and FedEx matches all of it. */
  lemma RunsOnTwelve()
    ensures MatchAt(DhlPattern, NumTwelve, 0) == None
    ensures MatchAt(FedExPattern, NumTwelve, 0) == Some(12)
  {
    NumTwelveSpelled();
    DhlOnTwelvePart6(NumTwelve);
    FedExOnTwelvePart3(NumTwelve);
  }

  lemma DhlOnUpsPart1(s: Bytes)
    requires SpellsUps(s)
    ensures Match(DhlPattern.re, Done, s, 0, true) == None
  {
    assert Match(Digit, Then(Rep(Digit, 2, 2), Then(DhlGrouped.right, Then(DhlPattern.re.right.right, Done))), s, 1, true) == None;
    assert Match(Rep(Digit, 3, 3), Then(DhlGrouped.right, Then(DhlPattern.re.right.right, Done)), s, 1, true) == None;
    assert Match(Digit, Then(Rep(Digit, 3, 3), Then(DhlGrouped.right, Then(DhlPattern.re.right.right, Done))), s, 0, true) == None;
    assert Match(DhlGrouped.left, Then(DhlGrouped.right, Then(DhlPattern.re.right.right, Done)), s, 0, true) == None;
    assert Match(DhlGrouped, Then(DhlPattern.re.right.right, Done), s, 0, true) == None;
    assert Match(Digit, Then(Rep(Digit, 1, 1), Then(DhlLong.right, Then(DhlPattern.re.right.right, Done))), s, 1, true) == None;
    assert Match(Rep(Digit, 2, 2), Then(DhlLong.right, Then(DhlPattern.re.right.right, Done)), s, 1, true) == None;
    assert Match(Digit, Then(Rep(Digit, 2, 2), Then(DhlLong.right, Then(DhlPattern.re.right.right, Done))), s, 0, true) == None;
    assert Match(DhlLong.left, Then(DhlLong.right, Then(DhlPattern.re.right.right, Done)), s, 0, true) == None;
    assert Match(DhlLong, Then(DhlPattern.re.right.right, Done), s, 0, true) == None;
    assert Match(Letter, Then(Rep(Letter, 2, 2), Then(DhlLettered.right, Then(DhlPattern.re.right.right, Done))), s, 0, true) == None;
    assert Match(DhlLettered.left, Then(DhlLettered.right, Then(DhlPattern.re.right.right, Done)), s, 0, true) == None;
    assert Match(DhlLettered, Then(DhlPattern.re.right.right, Done), s, 0, true) == None;
    assert Match(DhlPattern.re.right.left.right, Then(DhlPattern.re.right.right, Done), s, 0, true) == None;
    assert Match(DhlPattern.re.right.left, Then(DhlPattern.re.right.right, Done), s, 0, true) == None;
    assert Match(DhlPattern.re.right, Done, s, 0, true) == None;
    assert Match(DhlPattern.re.left, Then(DhlPattern.re.right, Done), s, 0, true) == None;
  }

  lemma FedExOnUpsPart1(s: Bytes)
    requires SpellsUps(s)
    ensures Match(FedExPattern.re, Done, s, 0, true) == None
  {
    assert Match(FedExHead.left.left.left.left.left, Then(FedExHead.left.left.left.left.right, Then(FedExHead.left.left.left.right, Then(FedExHead.left.right, Then(FedExPattern.re.right.left.right, Then(FedExPattern.re.right.right, Done))))), s, 0, true) == None;
    assert Match(FedExHead.left.left.left.left, Then(FedExHead.left.left.left.right, Then(FedExHead.left.right, Then(FedExPattern.re.right.left.right, Then(FedExPattern.re.right.right, Done)))), s, 0, true) == None;
    assert Match(FedExHead.left.left.left, Then(FedExHead.left.right, Then(FedExPattern.re.right.left.right, Then(FedExPattern.re.right.right, Done))), s, 0, true) == None;
    assert Match(FedExHead.left.left.right.left, Then(Digit, Then(FedExHead.left.right, Then(FedExPattern.re.right.left.right, Then(FedExPattern.re.right.right, Done)))), s, 0, true) == None;
    assert Match(FedExHead.left.left.right, Then(FedExHead.left.right, Then(FedExPattern.re.right.left.right, Then(FedExPattern.re.right.right, Done))), s, 0, true) == None;
    assert Match(FedExHead.left.left, Then(FedExHead.left.right, Then(FedExPattern.re.right.left.right, Then(FedExPattern.re.right.right, Done))), s, 0, true) == None;
    assert Match(FedExHead.left, Then(FedExPattern.re.right.left.right, Then(FedExPattern.re.right.right, Done)), s, 0, true) == None;
    assert Match(FedExHead.right.left.left.left, Then(FedExHead.right.left.left.right, Then(FedExHead.right.left.right, Then(FedExPattern.re.right.left.right, Then(FedExPattern.re.right.right, Done)))), s, 0, true) == None;
    assert Match(FedExHead.right.left.left, Then(FedExHead.right.left.right, Then(FedExPattern.re.right.left.right, Then(FedExPattern.re.right.right, Done))), s, 0, true) == None;
    assert Match(FedExHead.right.left, Then(FedExPattern.re.right.left.right, Then(FedExPattern.re.right.right, Done)), s, 0, true) == None;
    assert Match(Digit, Then(Rep(Digit, 2, 2), Then(FedExPattern.re.right.left.right, Then(FedExPattern.re.right.right, Done))), s, 1, true) == None;
    assert Match(Rep(Digit, 3, 3), Then(FedExPattern.re.right.left.right, Then(FedExPattern.re.right.right, Done)), s, 1, true) == None;
    assert Match(Digit, Then(Rep(Digit, 3, 3), Then(FedExPattern.re.right.left.right, Then(FedExPattern.re.right.right, Done))), s, 0, true) == None;
    assert Match(FedExHead.right.right, Then(FedExPattern.re.right.left.right, Then(FedExPattern.re.right.right, Done)), s, 0, true) == None;
    assert Match(FedExHead.right, Then(FedExPattern.re.right.left.right, Then(FedExPattern.re.right.right, Done)), s, 0, true) == None;
    assert Match(FedExHead, Then(FedExPattern.re.right.left.right, Then(FedExPattern.re.right.right, Done)), s, 0, true) == None;
    assert Match(FedExPattern.re.right.left, Then(FedExPattern.re.right.right, Done), s, 0, true) == None;
    assert Match(FedExPattern.re.right, Done, s, 0, true) == None;
    assert Match(FedExPattern.re.left, Then(FedExPattern.re.right, Done), s, 0, true) == None;
  }

  lemma UpsOnUpsPart1(s: Bytes)
    requires SpellsUps(s)
    ensures Match(OptSpace.body, Then(Rep(OptSpace.body, 0, 0), Then(Ups1Z.right.right, Then(UpsPattern.re.right.right, Done))), s, 2, true) == None
    ensures Match(OptSpace.body, Then(Rep(OptSpace.body, 0, 0), Then(Ups1Z.right.right.right.right, Then(UpsPattern.re.right.right, Done))), s, 5, true) == None
    ensures Match(Alnum.left, Then(Rep(Alnum, 2, 2), Then(Ups1Z.right.right.right.right.right, Then(UpsPattern.re.right.right, Done))), s, 5, true) == None
    ensures Match(Alnum.left, Then(Rep(Alnum, 1, 1), Then(Ups1Z.right.right.right.right.right, Then(UpsPattern.re.right.right, Done))), s, 6, true) == None
    ensures Match(OptSpace.body, Then(Rep(OptSpace.body, 0, 0), Then(Ups1Z.right.right.right.right.right.right, Then(UpsPattern.re.right.right, Done))), s, 8, true) == None
    ensures Match(OptSpace.body, Then(Rep(OptSpace.body, 0, 0), Then(Ups1Z.right.right.right.right.right.right.right.right, Then(UpsPattern.re.right.right, Done))), s, 10, true) == None
    ensures Match(OptSpace.body, Then(Rep(OptSpace.body, 0, 0), Then(Ups1Z.right.right.right.right.right.right.right.right.right.right, Then(UpsPattern.re.right.right, Done))), s, 14, true) == None
    ensures Match(Rep(Alnum, 0, 0), Then(Ups1Z.right.right.right.right.right.right.right.right.right.right.right, Then(UpsPattern.re.right.right, Done)), s, 17, true) == Some(18)
  {
    assert Match(OptSpace.body, Then(Rep(OptSpace.body, 0, 0), Then(Ups1Z.right.right, Then(UpsPattern.re.right.right, Done))), s, 2, true) == None;
    assert Match(OptSpace.body, Then(Rep(OptSpace.body, 0, 0), Then(Ups1Z.right.right.right.right, Then(UpsPattern.re.right.right, Done))), s, 5, true) == None;
    assert Match(Alnum.left, Then(Rep(Alnum, 2, 2), Then(Ups1Z.right.right.right.right.right, Then(UpsPattern.re.right.right, Done))), s, 5, true) == None;
    assert Match(Alnum.left, Then(Rep(Alnum, 1, 1), Then(Ups1Z.right.right.right.right.right, Then(UpsPattern.re.right.right, Done))), s, 6, true) == None;
    assert Match(OptSpace.body, Then(Rep(OptSpace.body, 0, 0), Then(Ups1Z.right.right.right.right.right.right, Then(UpsPattern.re.right.right, Done))), s, 8, true) == None;
    assert Match(OptSpace.body, Then(Rep(OptSpace.body, 0, 0), Then(Ups1Z.right.right.right.right.right.right.right.right, Then(UpsPattern.re.right.right, Done))), s, 10, true) == None;
    assert Match(OptSpace.body, Then(Rep(OptSpace.body, 0, 0), Then(Ups1Z.right.right.right.right.right.right.right.right.right.right, Then(UpsPattern.re.right.right, Done))), s, 14, true) == None;
    assert Match(OptSpace.body, Then(Rep(OptSpace.body, 0, 0), Then(Alnum, Then(UpsPattern.re.right.right, Done))), s, 17, true) == None;
    assert Match(UpsPattern.re.right.right, Done, s, 18, true) == Some(18);
    assert Match(Alnum.left, Then(UpsPattern.re.right.right, Done), s, 17, true) == Some(18);
    assert Match(Alnum, Then(UpsPattern.re.right.right, Done), s, 17, true) == Some(18);
    assert Match(OptSpace, Then(Alnum, Then(UpsPattern.re.right.right, Done)), s, 17, true) == Some(18);
    assert Match(Ups1Z.right.right.right.right.right.right.right.right.right.right.right, Then(UpsPattern.re.right.right, Done), s, 17, true) == Some(18);
  }

  lemma UpsOnUpsPart2(s: Bytes)
    requires SpellsUps(s)
    ensures Match(Alnum.left, Then(Rep(Alnum, 0, 0), Then(Ups1Z.right.right.right.right.right.right.right.right.right, Then(UpsPattern.re.right.right, Done))), s, 13, true) == Some(18)
  {
    UpsOnUpsPart1(s);
    assert Match(Alnum.left, Then(Rep(Alnum, 0, 0), Then(Ups1Z.right.right.right.right.right.right.right.right.right.right.right, Then(UpsPattern.re.right.right, Done))), s, 16, true) == Some(18);
    assert Match(Alnum, Then(Rep(Alnum, 0, 0), Then(Ups1Z.right.right.right.right.right.right.right.right.right.right.right, Then(UpsPattern.re.right.right, Done))), s, 16, true) == Some(18);
    assert Match(Rep(Alnum, 1, 1), Then(Ups1Z.right.right.right.right.right.right.right.right.right.right.right, Then(UpsPattern.re.right.right, Done)), s, 16, true) == Some(18);
    assert Match(Alnum.left, Then(Rep(Alnum, 1, 1), Then(Ups1Z.right.right.right.right.right.right.right.right.right.right.right, Then(UpsPattern.re.right.right, Done))), s, 15, true) == Some(18);
    assert Match(Alnum, Then(Rep(Alnum, 1, 1), Then(Ups1Z.right.right.right.right.right.right.right.right.right.right.right, Then(UpsPattern.re.right.right, Done))), s, 15, true) == Some(18);
    assert Match(Rep(Alnum, 2, 2), Then(Ups1Z.right.right.right.right.right.right.right.right.right.right.right, Then(UpsPattern.re.right.right, Done)), s, 15, true) == Some(18);
    assert Match(Alnum.left, Then(Rep(Alnum, 2, 2), Then(Ups1Z.right.right.right.right.right.right.right.right.right.right.right, Then(UpsPattern.re.right.right, Done))), s, 14, true) == Some(18);
    assert Match(Alnum, Then(Rep(Alnum, 2, 2), Then(Ups1Z.right.right.right.right.right.right.right.right.right.right.right, Then(UpsPattern.re.right.right, Done))), s, 14, true) == Some(18);
    assert Match(Ups1Z.right.right.right.right.right.right.right.right.right.right.left, Then(Ups1Z.right.right.right.right.right.right.right.right.right.right.right, Then(UpsPattern.re.right.right, Done)), s, 14, true) == Some(18);
    assert Match(Ups1Z.right.right.right.right.right.right.right.right.right.right, Then(UpsPattern.re.right.right, Done), s, 14, true) == Some(18);
    assert Match(OptSpace, Then(Ups1Z.right.right.right.right.right.right.right.right.right.right, Then(UpsPattern.re.right.right, Done)), s, 14, true) == Some(18);
    assert Match(Ups1Z.right.right.right.right.right.right.right.right.right, Then(UpsPattern.re.right.right, Done), s, 14, true) == Some(18);
    assert Match(Rep(Alnum, 0, 0), Then(Ups1Z.right.right.right.right.right.right.right.right.right, Then(UpsPattern.re.right.right, Done)), s, 14, true) == Some(18);
  }

  lemma UpsOnUpsPart3(s: Bytes)
    requires SpellsUps(s)
    ensures Match(Ups1Z.right.right.right.right.right.right.right, Then(UpsPattern.re.right.right, Done), s, 10, true) == Some(18)
  {
    UpsOnUpsPart1(s);
    UpsOnUpsPart2(s);
    assert Match(Alnum, Then(Rep(Alnum, 0, 0), Then(Ups1Z.right.right.right.right.right.right.right.right.right, Then(UpsPattern.re.right.right, Done))), s, 13, true) == Some(18);
    assert Match(Rep(Alnum, 1, 1), Then(Ups1Z.right.right.right.right.right.right.right.right.right, Then(UpsPattern.re.right.right, Done)), s, 13, true) == Some(18);
    assert Match(Alnum.left, Then(Rep(Alnum, 1, 1), Then(Ups1Z.right.right.right.right.right.right.right.right.right, Then(UpsPattern.re.right.right, Done))), s, 12, true) == Some(18);
    assert Match(Alnum, Then(Rep(Alnum, 1, 1), Then(Ups1Z.right.right.right.right.right.right.right.right.right, Then(UpsPattern.re.right.right, Done))), s, 12, true) == Some(18);
    assert Match(Rep(Alnum, 2, 2), Then(Ups1Z.right.right.right.right.right.right.right.right.right, Then(UpsPattern.re.right.right, Done)), s, 12, true) == Some(18);
    assert Match(Alnum.left, Then(Rep(Alnum, 2, 2), Then(Ups1Z.right.right.right.right.right.right.right.right.right, Then(UpsPattern.re.right.right, Done))), s, 11, true) == Some(18);
    assert Match(Alnum, Then(Rep(Alnum, 2, 2), Then(Ups1Z.right.right.right.right.right.right.right.right.right, Then(UpsPattern.re.right.right, Done))), s, 11, true) == Some(18);
    assert Match(Rep(Alnum, 3, 3), Then(Ups1Z.right.right.right.right.right.right.right.right.right, Then(UpsPattern.re.right.right, Done)), s, 11, true) == Some(18);
    assert Match(Alnum.left, Then(Rep(Alnum, 3, 3), Then(Ups1Z.right.right.right.right.right.right.right.right.right, Then(UpsPattern.re.right.right, Done))), s, 10, true) == Some(18);
    assert Match(Alnum, Then(Rep(Alnum, 3, 3), Then(Ups1Z.right.right.right.right.right.right.right.right.right, Then(UpsPattern.re.right.right, Done))), s, 10, true) == Some(18);
    assert Match(Ups1Z.right.right.right.right.right.right.right.right.left, Then(Ups1Z.right.right.right.right.right.right.right.right.right, Then(UpsPattern.re.right.right, Done)), s, 10, true) == Some(18);
    assert Match(Ups1Z.right.right.right.right.right.right.right.right, Then(UpsPattern.re.right.right, Done), s, 10, true) == Some(18);
    assert Match(OptSpace, Then(Ups1Z.right.right.right.right.right.right.right.right, Then(UpsPattern.re.right.right, Done)), s, 10, true) == Some(18);
  }

  lemma UpsOnUpsPart4(s: Bytes)
    requires SpellsUps(s)
    ensures Match(Rep(Alnum, 1, 1), Then(Ups1Z.right.right.right.right.right, Then(UpsPattern.re.right.right, Done)), s, 7, true) == Some(18)
  {
    UpsOnUpsPart1(s);
    UpsOnUpsPart3(s);
    assert Match(Rep(Alnum, 0, 0), Then(Ups1Z.right.right.right.right.right.right.right, Then(UpsPattern.re.right.right, Done)), s, 10, true) == Some(18);
    assert Match(Alnum.left, Then(Rep(Alnum, 0, 0), Then(Ups1Z.right.right.right.right.right.right.right, Then(UpsPattern.re.right.right, Done))), s, 9, true) == Some(18);
    assert Match(Alnum, Then(Rep(Alnum, 0, 0), Then(Ups1Z.right.right.right.right.right.right.right, Then(UpsPattern.re.right.right, Done))), s, 9, true) == Some(18);
    assert Match(Rep(Alnum, 1, 1), Then(Ups1Z.right.right.right.right.right.right.right, Then(UpsPattern.re.right.right, Done)), s, 9, true) == Some(18);
    assert Match(Alnum.left, Then(Rep(Alnum, 1, 1), Then(Ups1Z.right.right.right.right.right.right.right, Then(UpsPattern.re.right.right, Done))), s, 8, true) == Some(18);
    assert Match(Alnum, Then(Rep(Alnum, 1, 1), Then(Ups1Z.right.right.right.right.right.right.right, Then(UpsPattern.re.right.right, Done))), s, 8, true) == Some(18);
    assert Match(Ups1Z.right.right.right.right.right.right.left, Then(Ups1Z.right.right.right.right.right.right.right, Then(UpsPattern.re.right.right, Done)), s, 8, true) == Some(18);
    assert Match(Ups1Z.right.right.right.right.right.right, Then(UpsPattern.re.right.right, Done), s, 8, true) == Some(18);
    assert Match(OptSpace, Then(Ups1Z.right.right.right.right.right.right, Then(UpsPattern.re.right.right, Done)), s, 8, true) == Some(18);
    assert Match(Ups1Z.right.right.right.right.right, Then(UpsPattern.re.right.right, Done), s, 8, true) == Some(18);
    assert Match(Rep(Alnum, 0, 0), Then(Ups1Z.right.right.right.right.right, Then(UpsPattern.re.right.right, Done)), s, 8, true) == Some(18);
    assert Match(Alnum.left, Then(Rep(Alnum, 0, 0), Then(Ups1Z.right.right.right.right.right, Then(UpsPattern.re.right.right, Done))), s, 7, true) == Some(18);
    assert Match(Alnum, Then(Rep(Alnum, 0, 0), Then(Ups1Z.right.right.right.right.right, Then(UpsPattern.re.right.right, Done))), s, 7, true) == Some(18);
  }

  lemma UpsOnUpsPart5(s: Bytes)
    requires SpellsUps(s)
    ensures Match(Alnum.left, Then(Rep(Alnum, 1, 1), Then(Ups1Z.right.right.right, Then(UpsPattern.re.right.right, Done))), s, 3, true) == Some(18)
  {
    UpsOnUpsPart1(s);
    UpsOnUpsPart4(s);
    assert Match(Alnum.right, Then(Rep(Alnum, 1, 1), Then(Ups1Z.right.right.right.right.right, Then(UpsPattern.re.right.right, Done))), s, 6, true) == Some(18);
    assert Match(Alnum, Then(Rep(Alnum, 1, 1), Then(Ups1Z.right.right.right.right.right, Then(UpsPattern.re.right.right, Done))), s, 6, true) == Some(18);
    assert Match(Rep(Alnum, 2, 2), Then(Ups1Z.right.right.right.right.right, Then(UpsPattern.re.right.right, Done)), s, 6, true) == Some(18);
    assert Match(Alnum.right, Then(Rep(Alnum, 2, 2), Then(Ups1Z.right.right.right.right.right, Then(UpsPattern.re.right.right, Done))), s, 5, true) == Some(18);
    assert Match(Alnum, Then(Rep(Alnum, 2, 2), Then(Ups1Z.right.right.right.right.right, Then(UpsPattern.re.right.right, Done))), s, 5, true) == Some(18);
    assert Match(Ups1Z.right.right.right.right.left, Then(Ups1Z.right.right.right.right.right, Then(UpsPattern.re.right.right, Done)), s, 5, true) == Some(18);
    assert Match(Ups1Z.right.right.right.right, Then(UpsPattern.re.right.right, Done), s, 5, true) == Some(18);
    assert Match(OptSpace, Then(Ups1Z.right.right.right.right, Then(UpsPattern.re.right.right, Done)), s, 5, true) == Some(18);
    assert Match(Ups1Z.right.right.right, Then(UpsPattern.re.right.right, Done), s, 5, true) == Some(18);
    assert Match(Rep(Alnum, 0, 0), Then(Ups1Z.right.right.right, Then(UpsPattern.re.right.right, Done)), s, 5, true) == Some(18);
    assert Match(Alnum.left, Then(Rep(Alnum, 0, 0), Then(Ups1Z.right.right.right, Then(UpsPattern.re.right.right, Done))), s, 4, true) == Some(18);
    assert Match(Alnum, Then(Rep(Alnum, 0, 0), Then(Ups1Z.right.right.right, Then(UpsPattern.re.right.right, Done))), s, 4, true) == Some(18);
    assert Match(Rep(Alnum, 1, 1), Then(Ups1Z.right.right.right, Then(UpsPattern.re.right.right, Done)), s, 4, true) == Some(18);
  }

  lemma UpsOnUpsPart6(s: Bytes)
    requires SpellsUps(s)
    ensures Match(UpsPattern.re.right, Done, s, 0, true) == Some(18)
  {
    UpsOnUpsPart1(s);
    UpsOnUpsPart5(s);
    assert Match(Alnum, Then(Rep(Alnum, 1, 1), Then(Ups1Z.right.right.right, Then(UpsPattern.re.right.right, Done))), s, 3, true) == Some(18);
    assert Match(Rep(Alnum, 2, 2), Then(Ups1Z.right.right.right, Then(UpsPattern.re.right.right, Done)), s, 3, true) == Some(18);
    assert Match(Alnum.left, Then(Rep(Alnum, 2, 2), Then(Ups1Z.right.right.right, Then(UpsPattern.re.right.right, Done))), s, 2, true) == Some(18);
    assert Match(Alnum, Then(Rep(Alnum, 2, 2), Then(Ups1Z.right.right.right, Then(UpsPattern.re.right.right, Done))), s, 2, true) == Some(18);
    assert Match(Ups1Z.right.right.left, Then(Ups1Z.right.right.right, Then(UpsPattern.re.right.right, Done)), s, 2, true) == Some(18);
    assert Match(Ups1Z.right.right, Then(UpsPattern.re.right.right, Done), s, 2, true) == Some(18);
    assert Match(OptSpace, Then(Ups1Z.right.right, Then(UpsPattern.re.right.right, Done)), s, 2, true) == Some(18);
    assert Match(Ups1Z.right, Then(UpsPattern.re.right.right, Done), s, 2, true) == Some(18);
    assert Match(Ups1Z.left.right, Then(Ups1Z.right, Then(UpsPattern.re.right.right, Done)), s, 1, true) == Some(18);
    assert Match(Ups1Z.left.left, Then(Ups1Z.left.right, Then(Ups1Z.right, Then(UpsPattern.re.right.right, Done))), s, 0, true) == Some(18);
    assert Match(Ups1Z.left, Then(Ups1Z.right, Then(UpsPattern.re.right.right, Done)), s, 0, true) == Some(18);
    assert Match(Ups1Z, Then(UpsPattern.re.right.right, Done), s, 0, true) == Some(18);
    assert Match(UpsPattern.re.right.left, Then(UpsPattern.re.right.right, Done), s, 0, true) == Some(18);
  }

  lemma UpsOnUpsPart7(s: Bytes)
    requires SpellsUps(s)
    ensures Match(UpsPattern.re, Done, s, 0, true) == Some(18)
  {
    UpsOnUpsPart6(s);
    assert Match(UpsPattern.re.left, Then(UpsPattern.re.right, Done), s, 0, true) == Some(18);
  }

  /** A UPS number: DHL and FedEx fail on it and UPS matches all of it. */
  lemma RunsOnUps()
    ensures MatchAt(DhlPattern, NumUps, 0) == None
    ensures MatchAt(FedExPattern, NumUps, 0) == None
    ensures MatchAt(UpsPattern, NumUps, 0) == Some(18)
  {
    NumUpsSpelled();
    DhlOnUpsPart1(NumUps);
    FedExOnUpsPart1(NumUps);
    UpsOnUpsPart7(NumUps);
  }

  lemma DhlOnLedPart1(s: Bytes)
    requires SpellsLed(s)
    ensures Match(DhlPattern.re, Done, s, 0, true) == None
  {
    assert Match(Digit, Then(Rep(Digit, 3, 3), Then(DhlGrouped.right, Then(DhlPattern.re.right.right, Done))), s, 0, true) == None;
    assert Match(DhlGrouped.left, Then(DhlGrouped.right, Then(DhlPattern.re.right.right, Done)), s, 0, true) == None;
    assert Match(DhlGrouped, Then(DhlPattern.re.right.right, Done), s, 0, true) == None;
    assert Match(Digit, Then(Rep(Digit, 2, 2), Then(DhlLong.right, Then(DhlPattern.re.right.right, Done))), s, 0, true) == None;
    assert Match(DhlLong.left, Then(DhlLong.right, Then(DhlPattern.re.right.right, Done)), s, 0, true) == None;
    assert Match(DhlLong, Then(DhlPattern.re.right.right, Done), s, 0, true) == None;
    assert Match(Letter, Then(Rep(Letter, 1, 1), Then(DhlLettered.right, Then(DhlPattern.re.right.right, Done))), s, 1, true) == None;
    assert Match(Rep(Letter, 2, 2), Then(DhlLettered.right, Then(DhlPattern.re.right.right, Done)), s, 1, true) == None;
    assert Match(Letter, Then(Rep(Letter, 2, 2), Then(DhlLettered.right, Then(DhlPattern.re.right.right, Done))), s, 0, true) == None;
    assert Match(DhlLettered.left, Then(DhlLettered.right, Then(DhlPattern.re.right.right, Done)), s, 0, true) == None;
    assert Match(DhlLettered, Then(DhlPattern.re.right.right, Done), s, 0, true) == None;
    assert Match(DhlPattern.re.right.left.right, Then(DhlPattern.re.right.right, Done), s, 0, true) == None;
    assert Match(DhlPattern.re.right.left, Then(DhlPattern.re.right.right, Done), s, 0, true) == None;
    assert Match(DhlPattern.re.right, Done, s, 0, true) == None;
    assert Match(DhlPattern.re.left, Then(DhlPattern.re.right, Done), s, 0, true) == None;
  }

  lemma FedExOnLedPart1(s: Bytes)
    requires SpellsLed(s)
    ensures Match(FedExPattern.re, Done, s, 0, true) == None
  {
    assert Match(FedExHead.left.left.left.left.left, Then(FedExHead.left.left.left.left.right, Then(FedExHead.left.left.left.right, Then(FedExHead.left.right, Then(FedExPattern.re.right.left.right, Then(FedExPattern.re.right.right, Done))))), s, 0, true) == None;
    assert Match(FedExHead.left.left.left.left, Then(FedExHead.left.left.left.right, Then(FedExHead.left.right, Then(FedExPattern.re.right.left.right, Then(FedExPattern.re.right.right, Done)))), s, 0, true) == None;
    assert Match(FedExHead.left.left.left, Then(FedExHead.left.right, Then(FedExPattern.re.right.left.right, Then(FedExPattern.re.right.right, Done))), s, 0, true) == None;
    assert Match(FedExHead.left.left.right.left, Then(Digit, Then(FedExHead.left.right, Then(FedExPattern.re.right.left.right, Then(FedExPattern.re.right.right, Done)))), s, 0, true) == None;
    assert Match(FedExHead.left.left.right, Then(FedExHead.left.right, Then(FedExPattern.re.right.left.right, Then(FedExPattern.re.right.right, Done))), s, 0, true) == None;
    assert Match(FedExHead.left.left, Then(FedExHead.left.right, Then(FedExPattern.re.right.left.right, Then(FedExPattern.re.right.right, Done))), s, 0, true) == None;
    assert Match(FedExHead.left, Then(FedExPattern.re.right.left.right, Then(FedExPattern.re.right.right, Done)), s, 0, true) == None;
    assert Match(FedExHead.right.left.left.left, Then(FedExHead.right.left.left.right, Then(FedExHead.right.left.right, Then(FedExPattern.re.right.left.right, Then(FedExPattern.re.right.right, Done)))), s, 0, true) == None;
    assert Match(FedExHead.right.left.left, Then(FedExHead.right.left.right, Then(FedExPattern.re.right.left.right, Then(FedExPattern.re.right.right, Done))), s, 0, true) == None;
    assert Match(FedExHead.right.left, Then(FedExPattern.re.right.left.right, Then(FedExPattern.re.right.right, Done)), s, 0, true) == None;
    assert Match(Digit, Then(Rep(Digit, 3, 3), Then(FedExPattern.re.right.left.right, Then(FedExPattern.re.right.right, Done))), s, 0, true) == None;
    assert Match(FedExHead.right.right, Then(FedExPattern.re.right.left.right, Then(FedExPattern.re.right.right, Done)), s, 0, true) == None;
    assert Match(FedExHead.right, Then(FedExPattern.re.right.left.right, Then(FedExPattern.re.right.right, Done)), s, 0, true) == None;
    assert Match(FedExHead, Then(FedExPattern.re.right.left.right, Then(FedExPattern.re.right.right, Done)), s, 0, true) == None;
    assert Match(FedExPattern.re.right.left, Then(FedExPattern.re.right.right, Done), s, 0, true) == None;
    assert Match(FedExPattern.re.right, Done, s, 0, true) == None;
    assert Match(FedExPattern.re.left, Then(FedExPattern.re.right, Done), s, 0, true) == None;
  }

  lemma UpsOnLedPart1(s: Bytes)
    requires SpellsLed(s)
    ensures Match(UpsPattern.re, Done, s, 0, true) == None
  {
    assert Match(Ups1Z.left.left, Then(Ups1Z.left.right, Then(Ups1Z.right, Then(UpsPattern.re.right.right, Done))), s, 0, true) == None;
    assert Match(Ups1Z.left, Then(Ups1Z.right, Then(UpsPattern.re.right.right, Done)), s, 0, true) == None;
    assert Match(Ups1Z, Then(UpsPattern.re.right.right, Done), s, 0, true) == None;
    assert Match(UpsT.left, Then(UpsT.right, Then(UpsPattern.re.right.right, Done)), s, 0, true) == None;
    assert Match(UpsT, Then(UpsPattern.re.right.right, Done), s, 0, true) == None;
    assert Match(UpsPattern.re.right.left, Then(UpsPattern.re.right.right, Done), s, 0, true) == None;
    assert Match(UpsPattern.re.right, Done, s, 0, true) == None;
    assert Match(UpsPattern.re.left, Then(UpsPattern.re.right, Done), s, 0, true) == None;
  }

  lemma Usps1OnLedPart1(s: Bytes)
    requires SpellsLed(s)
    ensures Match(UspsRouting, Then(Rep(UspsRouting, 0, 0), Then(UspsPattern1.re.right.left.right, Then(UspsPattern1.re.right.right, Done))), s, 0, true) == None
    ensures Match(UspsServiceCode.left, Then(UspsPattern1.re.right.left.right.right, Then(UspsPattern1.re.right.right, Done)), s, 0, true) == None
    ensures Match(UspsServiceCode.right.left, Then(UspsPattern1.re.right.left.right.right, Then(UspsPattern1.re.right.right, Done)), s, 0, true) == None
    ensures Match(UspsServiceCode.right.right.left, Then(UspsPattern1.re.right.left.right.right, Then(UspsPattern1.re.right.right, Done)), s, 0, true) == None
    ensures Match(UspsServiceCode.right.right.right.left, Then(UspsPattern1.re.right.left.right.right, Then(UspsPattern1.re.right.right, Done)), s, 0, true) == None
    ensures Match(UspsServiceCode.right.right.right.right.left, Then(UspsPattern1.re.right.left.right.right, Then(UspsPattern1.re.right.right, Done)), s, 0, true) == None
    ensures Match(UspsServiceCode.right.right.right.right.right.left, Then(UspsPattern1.re.right.left.right.right, Then(UspsPattern1.re.right.right, Done)), s, 0, true) == None
    ensures Match(UspsServiceCode.right.right.right.right.right.right.left, Then(UspsPattern1.re.right.left.right.right, Then(UspsPattern1.re.right.right, Done)), s, 0, true) == None
    ensures Match(UspsServiceCode.right.right.right.right.right.right.right, Then(UspsPattern1.re.right.left.right.right, Then(UspsPattern1.re.right.right, Done)), s, 0, true) == None
  {
    assert Match(UspsRouting.left, Then(UspsRouting.right, Then(Rep(UspsRouting, 0, 0), Then(UspsPattern1.re.right.left.right, Then(UspsPattern1.re.right.right, Done)))), s, 0, true) == None;
    assert Match(UspsRouting, Then(Rep(UspsRouting, 0, 0), Then(UspsPattern1.re.right.left.right, Then(UspsPattern1.re.right.right, Done))), s, 0, true) == None;
    assert Match(UspsServiceCode.left.left, Then(UspsServiceCode.left.right, Then(UspsPattern1.re.right.left.right.right, Then(UspsPattern1.re.right.right, Done))), s, 0, true) == None;
    assert Match(UspsServiceCode.left, Then(UspsPattern1.re.right.left.right.right, Then(UspsPattern1.re.right.right, Done)), s, 0, true) == None;
    assert Match(UspsServiceCode.right.left.left, Then(UspsServiceCode.right.left.right, Then(UspsPattern1.re.right.left.right.right, Then(UspsPattern1.re.right.right, Done))), s, 0, true) == None;
    assert Match(UspsServiceCode.right.left, Then(UspsPattern1.re.right.left.right.right, Then(UspsPattern1.re.right.right, Done)), s, 0, true) == None;
    assert Match(UspsServiceCode.right.right.left.left, Then(UspsServiceCode.right.right.left.right, Then(UspsPattern1.re.right.left.right.right, Then(UspsPattern1.re.right.right, Done))), s, 0, true) == None;
    assert Match(UspsServiceCode.right.right.left, Then(UspsPattern1.re.right.left.right.right, Then(UspsPattern1.re.right.right, Done)), s, 0, true) == None;
    assert Match(UspsServiceCode.right.right.right.left.left, Then(UspsServiceCode.right.right.right.left.right, Then(UspsPattern1.re.right.left.right.right, Then(UspsPattern1.re.right.right, Done))), s, 0, true) == None;
    assert Match(UspsServiceCode.right.right.right.left, Then(UspsPattern1.re.right.left.right.right, Then(UspsPattern1.re.right.right, Done)), s, 0, true) == None;
    assert Match(UspsServiceCode.right.right.right.right.left.left, Then(UspsServiceCode.right.right.right.right.left.right, Then(UspsPattern1.re.right.left.right.right, Then(UspsPattern1.re.right.right, Done))), s, 0, true) == None;
    assert Match(UspsServiceCode.right.right.right.right.left, Then(UspsPattern1.re.right.left.right.right, Then(UspsPattern1.re.right.right, Done)), s, 0, true) == None;
    assert Match(UspsServiceCode.right.right.right.right.right.left.left, Then(UspsServiceCode.right.right.right.right.right.left.right, Then(UspsPattern1.re.right.left.right.right, Then(UspsPattern1.re.right.right, Done))), s, 0, true) == None;
    assert Match(UspsServiceCode.right.right.right.right.right.left, Then(UspsPattern1.re.right.left.right.right, Then(UspsPattern1.re.right.right, Done)), s, 0, true) == None;
    assert Match(UspsServiceCode.right.right.right.right.right.right.left.left, Then(UspsServiceCode.right.right.right.right.right.right.left.right, Then(UspsPattern1.re.right.left.right.right, Then(UspsPattern1.re.right.right, Done))), s, 0, true) == None;
    assert Match(UspsServiceCode.right.right.right.right.right.right.left, Then(UspsPattern1.re.right.left.right.right, Then(UspsPattern1.re.right.right, Done)), s, 0, true) == None;
    assert Match(UspsServiceCode.right.right.right.right.right.right.right.left.left, Then(UspsServiceCode.right.right.right.right.right.right.right.left.right, Then(UspsPattern1.re.right.left.right.right, Then(UspsPattern1.re.right.right, Done))), s, 0, true) == None;
    assert Match(UspsServiceCode.right.right.right.right.right.right.right.left, Then(UspsPattern1.re.right.left.right.right, Then(UspsPattern1.re.right.right, Done)), s, 0, true) == None;
    assert Match(UspsServiceCode.right.right.right.right.right.right.right.right.left.left, Then(UspsServiceCode.right.right.right.right.right.right.right.right.left.right, Then(UspsPattern1.re.right.left.right.right, Then(UspsPattern1.re.right.right, Done))), s, 0, true) == None;
    assert Match(UspsServiceCode.right.right.right.right.right.right.right.right.left, Then(UspsPattern1.re.right.left.right.right, Then(UspsPattern1.re.right.right, Done)), s, 0, true) == None;
    assert Match(UspsServiceCode.right.right.right.right.right.right.right.right.right.left, Then(UspsServiceCode.right.right.right.right.right.right.right.right.right.right, Then(UspsPattern1.re.right.left.right.right, Then(UspsPattern1.re.right.right, Done))), s, 0, true) == None;
    assert Match(UspsServiceCode.right.right.right.right.right.right.right.right.right, Then(UspsPattern1.re.right.left.right.right, Then(UspsPattern1.re.right.right, Done)), s, 0, true) == None;
    assert Match(UspsServiceCode.right.right.right.right.right.right.right.right, Then(UspsPattern1.re.right.left.right.right, Then(UspsPattern1.re.right.right, Done)), s, 0, true) == None;
  }

  lemma Usps1OnLedPart2(s: Bytes)
    requires SpellsLed(s)
    ensures Match(UspsPattern1.re, Done, s, 0, true) == None
  {
    Usps1OnLedPart1(s);
    assert Match(UspsServiceCode.right.right.right.right.right.right, Then(UspsPattern1.re.right.left.right.right, Then(UspsPattern1.re.right.right, Done)), s, 0, true) == None;
    assert Match(UspsServiceCode.right.right.right.right.right, Then(UspsPattern1.re.right.left.right.right, Then(UspsPattern1.re.right.right, Done)), s, 0, true) == None;
    assert Match(UspsServiceCode.right.right.right.right, Then(UspsPattern1.re.right.left.right.right, Then(UspsPattern1.re.right.right, Done)), s, 0, true) == None;
    assert Match(UspsServiceCode.right.right.right, Then(UspsPattern1.re.right.left.right.right, Then(UspsPattern1.re.right.right, Done)), s, 0, true) == None;
    assert Match(UspsServiceCode.right.right, Then(UspsPattern1.re.right.left.right.right, Then(UspsPattern1.re.right.right, Done)), s, 0, true) == None;
    assert Match(UspsServiceCode.right, Then(UspsPattern1.re.right.left.right.right, Then(UspsPattern1.re.right.right, Done)), s, 0, true) == None;
    assert Match(UspsServiceCode, Then(UspsPattern1.re.right.left.right.right, Then(UspsPattern1.re.right.right, Done)), s, 0, true) == None;
    assert Match(UspsPattern1.re.right.left.right, Then(UspsPattern1.re.right.right, Done), s, 0, true) == None;
    assert Match(UspsPattern1.re.right.left.left, Then(UspsPattern1.re.right.left.right, Then(UspsPattern1.re.right.right, Done)), s, 0, true) == None;
    assert Match(UspsPattern1.re.right.left, Then(UspsPattern1.re.right.right, Done), s, 0, true) == None;
    assert Match(UspsPattern1.re.right, Done, s, 0, true) == None;
    assert Match(UspsPattern1.re.left, Then(UspsPattern1.re.right, Done), s, 0, true) == None;
  }

  lemma Usps2OnLedPart1(s: Bytes)
    requires SpellsLed(s)
    ensures Match(UspsPrefix.left, Then(UspsPattern2.re.right.left.right, Then(UspsPattern2.re.right.right, Done)), s, 0, true) == None
    ensures Match(UspsPrefix.right.left, Then(UspsPattern2.re.right.left.right, Then(UspsPattern2.re.right.right, Done)), s, 0, true) == None
    ensures Match(UspsPrefix.right.right.left, Then(UspsPattern2.re.right.left.right, Then(UspsPattern2.re.right.right, Done)), s, 0, true) == None
    ensures Match(UspsPrefix.right.right.right.left, Then(UspsPattern2.re.right.left.right, Then(UspsPattern2.re.right.right, Done)), s, 0, true) == None
    ensures Match(UspsPrefix.right.right.right.right.left, Then(UspsPattern2.re.right.left.right, Then(UspsPattern2.re.right.right, Done)), s, 0, true) == None
    ensures Match(UspsPrefix.right.right.right.right.right.left, Then(UspsPattern2.re.right.left.right, Then(UspsPattern2.re.right.right, Done)), s, 0, true) == None
    ensures Match(UspsPrefix.right.right.right.right.right.right.left, Then(UspsPattern2.re.right.left.right, Then(UspsPattern2.re.right.right, Done)), s, 0, true) == None
    ensures Match(UspsPrefix.right.right.right.right.right.right.right, Then(UspsPattern2.re.right.left.right, Then(UspsPattern2.re.right.right, Done)), s, 0, true) == None
  {
    assert Match(UspsPrefix.left, Then(UspsPattern2.re.right.left.right, Then(UspsPattern2.re.right.right, Done)), s, 0, true) == None;
    assert Match(UspsPrefix.right.left.left, Then(UspsPrefix.right.left.right, Then(UspsPattern2.re.right.left.right, Then(UspsPattern2.re.right.right, Done))), s, 0, true) == None;
    assert Match(UspsPrefix.right.left, Then(UspsPattern2.re.right.left.right, Then(UspsPattern2.re.right.right, Done)), s, 0, true) == None;
    assert Match(UspsPrefix.right.right.left.left, Then(UspsPrefix.right.right.left.right, Then(UspsPattern2.re.right.left.right, Then(UspsPattern2.re.right.right, Done))), s, 0, true) == None;
    assert Match(UspsPrefix.right.right.left, Then(UspsPattern2.re.right.left.right, Then(UspsPattern2.re.right.right, Done)), s, 0, true) == None;
    assert Match(UspsPrefix.right.right.right.left.left, Then(UspsPrefix.right.right.right.left.right, Then(UspsPattern2.re.right.left.right, Then(UspsPattern2.re.right.right, Done))), s, 0, true) == None;
    assert Match(UspsPrefix.right.right.right.left, Then(UspsPattern2.re.right.left.right, Then(UspsPattern2.re.right.right, Done)), s, 0, true) == None;
    assert Match(UspsPrefix.right.right.right.right.left.left, Then(UspsPrefix.right.right.right.right.left.right, Then(UspsPattern2.re.right.left.right, Then(UspsPattern2.re.right.right, Done))), s, 0, true) == None;
    assert Match(UspsPrefix.right.right.right.right.left, Then(UspsPattern2.re.right.left.right, Then(UspsPattern2.re.right.right, Done)), s, 0, true) == None;
    assert Match(UspsPrefix.right.right.right.right.right.left.left, Then(Letter, Then(UspsPattern2.re.right.left.right, Then(UspsPattern2.re.right.right, Done))), s, 0, true) == None;
    assert Match(UspsPrefix.right.right.right.right.right.left, Then(UspsPattern2.re.right.left.right, Then(UspsPattern2.re.right.right, Done)), s, 0, true) == None;
    assert Match(UspsPrefix.right.right.right.right.right.right.left.left, Then(Letter, Then(UspsPattern2.re.right.left.right, Then(UspsPattern2.re.right.right, Done))), s, 0, true) == None;
    assert Match(UspsPrefix.right.right.right.right.right.right.left, Then(UspsPattern2.re.right.left.right, Then(UspsPattern2.re.right.right, Done)), s, 0, true) == None;
    assert Match(UspsPrefix.right.right.right.right.right.right.right.left.left, Then(UspsPrefix.right.right.right.right.right.right.right.left.right, Then(UspsPattern2.re.right.left.right, Then(UspsPattern2.re.right.right, Done))), s, 0, true) == None;
    assert Match(UspsPrefix.right.right.right.right.right.right.right.left, Then(UspsPattern2.re.right.left.right, Then(UspsPattern2.re.right.right, Done)), s, 0, true) == None;
    assert Match(UspsPrefix.right.right.right.right.right.right.right.right.left.left, Then(UspsPrefix.right.right.right.right.right.right.right.right.left.right, Then(UspsPattern2.re.right.left.right, Then(UspsPattern2.re.right.right, Done))), s, 0, true) == None;
    assert Match(UspsPrefix.right.right.right.right.right.right.right.right.left, Then(UspsPattern2.re.right.left.right, Then(UspsPattern2.re.right.right, Done)), s, 0, true) == None;
    assert Match(UspsPrefix.right.right.right.right.right.right.right.right.right.left.left, Then(UspsPrefix.right.right.right.right.right.right.right.right.right.left.right, Then(UspsPattern2.re.right.left.right, Then(UspsPattern2.re.right.right, Done))), s, 0, true) == None;
    assert Match(UspsPrefix.right.right.right.right.right.right.right.right.right.left, Then(UspsPattern2.re.right.left.right, Then(UspsPattern2.re.right.right, Done)), s, 0, true) == None;
    assert Match(UspsPrefix.right.right.right.right.right.right.right.right.right.right.left, Then(UspsPrefix.right.right.right.right.right.right.right.right.right.right.right, Then(UspsPattern2.re.right.left.right, Then(UspsPattern2.re.right.right, Done))), s, 0, true) == None;
    assert Match(UspsPrefix.right.right.right.right.right.right.right.right.right.right, Then(UspsPattern2.re.right.left.right, Then(UspsPattern2.re.right.right, Done)), s, 0, true) == None;
    assert Match(UspsPrefix.right.right.right.right.right.right.right.right.right, Then(UspsPattern2.re.right.left.right, Then(UspsPattern2.re.right.right, Done)), s, 0, true) == None;
    assert Match(UspsPrefix.right.right.right.right.right.right.right.right, Then(UspsPattern2.re.right.left.right, Then(UspsPattern2.re.right.right, Done)), s, 0, true) == None;
  }

  lemma Usps2OnLedPart2(s: Bytes)
    requires SpellsLed(s)
    ensures Match(UspsPattern2.re, Done, s, 0, true) == None
  {
    Usps2OnLedPart1(s);
    assert Match(UspsPrefix.right.right.right.right.right.right, Then(UspsPattern2.re.right.left.right, Then(UspsPattern2.re.right.right, Done)), s, 0, true) == None;
    assert Match(UspsPrefix.right.right.right.right.right, Then(UspsPattern2.re.right.left.right, Then(UspsPattern2.re.right.right, Done)), s, 0, true) == None;
    assert Match(UspsPrefix.right.right.right.right, Then(UspsPattern2.re.right.left.right, Then(UspsPattern2.re.right.right, Done)), s, 0, true) == None;
    assert Match(UspsPrefix.right.right.right, Then(UspsPattern2.re.right.left.right, Then(UspsPattern2.re.right.right, Done)), s, 0, true) == None;
    assert Match(UspsPrefix.right.right, Then(UspsPattern2.re.right.left.right, Then(UspsPattern2.re.right.right, Done)), s, 0, true) == None;
    assert Match(UspsPrefix.right, Then(UspsPattern2.re.right.left.right, Then(UspsPattern2.re.right.right, Done)), s, 0, true) == None;
    assert Match(UspsPrefix, Then(UspsPattern2.re.right.left.right, Then(UspsPattern2.re.right.right, Done)), s, 0, true) == None;
    assert Match(UspsPattern2.re.right.left, Then(UspsPattern2.re.right.right, Done), s, 0, true) == None;
    assert Match(UspsPattern2.re.right, Done, s, 0, true) == None;
    assert Match(UspsPattern2.re.left, Then(UspsPattern2.re.right, Done), s, 0, true) == None;
  }

  lemma Usps3OnLedPart1(s: Bytes)
    requires SpellsLed(s)
    ensures Match(UspsPattern3.re, Done, s, 0, true) == None
  {
    assert Match(UspsPattern3.re.right.left.left.left, Then(UspsPattern3.re.right.left.left.right, Then(UspsPattern3.re.right.left.right, Then(UspsPattern3.re.right.right, Done))), s, 0, true) == None;
    assert Match(UspsPattern3.re.right.left.left, Then(UspsPattern3.re.right.left.right, Then(UspsPattern3.re.right.right, Done)), s, 0, true) == None;
    assert Match(UspsPattern3.re.right.left, Then(UspsPattern3.re.right.right, Done), s, 0, true) == None;
    assert Match(UspsPattern3.re.right, Done, s, 0, true) == None;
    assert Match(UspsPattern3.re.left, Then(UspsPattern3.re.right, Done), s, 0, true) == None;
  }

  lemma RoyalMailOnLedPart1(s: Bytes)
    requires SpellsLed(s)
    ensures Match(RoyalMailReserved, Done, s, 0, true) == None
    ensures Match(RoyalMailPattern.re.right.right.left.body, Then(Rep(RoyalMailPattern.re.right.right.left.body, 1, 1), Then(RoyalMailPattern.re.right.right.right, Done)), s, 0, true) == None
  {
    assert Match(RoyalMailReserved.left.left, Then(RoyalMailReserved.left.right, Done), s, 0, true) == None;
    assert Match(RoyalMailReserved.left, Done, s, 0, true) == None;
    assert Match(RoyalMailReserved.right.left.left, Then(RoyalMailReserved.right.left.right, Done), s, 0, true) == None;
    assert Match(RoyalMailReserved.right.left, Done, s, 0, true) == None;
    assert Match(RoyalMailReserved.right.right.left.left, Then(RoyalMailReserved.right.right.left.right, Done), s, 0, true) == None;
    assert Match(RoyalMailReserved.right.right.left, Done, s, 0, true) == None;
    assert Match(RoyalMailReserved.right.right.right.left.left, Then(RoyalMailReserved.right.right.right.left.right, Done), s, 0, true) == None;
    assert Match(RoyalMailReserved.right.right.right.left, Done, s, 0, true) == None;
    assert Match(RoyalMailReserved.right.right.right.right.left.left, Then(RoyalMailReserved.right.right.right.right.left.right, Done), s, 0, true) == None;
    assert Match(RoyalMailReserved.right.right.right.right.left, Done, s, 0, true) == None;
    assert Match(RoyalMailReserved.right.right.right.right.right.left, Then(RoyalMailReserved.right.right.right.right.right.right, Done), s, 0, true) == None;
    assert Match(RoyalMailReserved.right.right.right.right.right, Done, s, 0, true) == None;
    assert Match(RoyalMailReserved.right.right.right.right, Done, s, 0, true) == None;
    assert Match(RoyalMailReserved.right.right.right, Done, s, 0, true) == None;
    assert Match(RoyalMailReserved.right.right, Done, s, 0, true) == None;
    assert Match(RoyalMailReserved.right, Done, s, 0, true) == None;
    assert Match(RoyalMailReserved, Done, s, 0, true) == None;
    assert Match(RoyalMailPattern.re.right.right.left.body.left, Then(Rep(RoyalMailPattern.re.right.right.left.body, 0, 0), Then(RoyalMailPattern.re.right.right.right, Done)), s, 1, true) == None;
    assert Match(RoyalMailPattern.re.right.right.left.body.right, Then(Rep(RoyalMailPattern.re.right.right.left.body, 0, 0), Then(RoyalMailPattern.re.right.right.right, Done)), s, 1, true) == None;
    assert Match(RoyalMailPattern.re.right.right.left.body, Then(Rep(RoyalMailPattern.re.right.right.left.body, 0, 0), Then(RoyalMailPattern.re.right.right.right, Done)), s, 1, true) == None;
    assert Match(Rep(RoyalMailPattern.re.right.right.left.body, 1, 1), Then(RoyalMailPattern.re.right.right.right, Done), s, 1, true) == None;
    assert Match(RoyalMailPattern.re.right.right.left.body.left, Then(Rep(RoyalMailPattern.re.right.right.left.body, 1, 1), Then(RoyalMailPattern.re.right.right.right, Done)), s, 0, true) == None;
    assert Match(RoyalMailPattern.re.right.right.left.body.right, Then(Rep(RoyalMailPattern.re.right.right.left.body, 1, 1), Then(RoyalMailPattern.re.right.right.right, Done)), s, 0, true) == None;
  }

  lemma RoyalMailOnLedPart2(s: Bytes)
    requires SpellsLed(s)
    ensures Match(RoyalMailPattern.re, Done, s, 0, true) == None
  {
    RoyalMailOnLedPart1(s);
    assert Match(RoyalMailPattern.re.right.right.left, Then(RoyalMailPattern.re.right.right.right, Done), s, 0, true) == None;
    assert Match(RoyalMailPattern.re.right.right, Done, s, 0, true) == None;
    assert Match(RoyalMailPattern.re.right.left, Then(RoyalMailPattern.re.right.right, Done), s, 0, true) == None;
    assert Match(RoyalMailPattern.re.right, Done, s, 0, true) == None;
    assert Match(RoyalMailPattern.re.left, Then(RoyalMailPattern.re.right, Done), s, 0, true) == None;
  }

  lemma UpsOnLedAt1Part1(s: Bytes)
    requires SpellsLed(s)
    ensures Match(UpsPattern.re, Done, s, 1, true) == None
  {
    assert Match(Ups1Z.left.left, Then(Ups1Z.left.right, Then(Ups1Z.right, Then(UpsPattern.re.right.right, Done))), s, 1, true) == None;
    assert Match(Ups1Z.left, Then(Ups1Z.right, Then(UpsPattern.re.right.right, Done)), s, 1, true) == None;
    assert Match(Ups1Z, Then(UpsPattern.re.right.right, Done), s, 1, true) == None;
    assert Match(UpsT.left, Then(UpsT.right, Then(UpsPattern.re.right.right, Done)), s, 1, true) == None;
    assert Match(UpsT, Then(UpsPattern.re.right.right, Done), s, 1, true) == None;
    assert Match(UpsPattern.re.right.left, Then(UpsPattern.re.right.right, Done), s, 1, true) == None;
    assert Match(UpsPattern.re.right, Done, s, 1, true) == None;
    assert Match(UpsPattern.re.left, Then(UpsPattern.re.right, Done), s, 1, true) == None;
  }

  lemma UpsOnLedAt2Part1(s: Bytes)
    requires SpellsLed(s)
    ensures Match(OptSpace.body, Then(Rep(OptSpace.body, 0, 0), Then(Ups1Z.right.right, Then(UpsPattern.re.right.right, Done))), s, 4, true) == None
    ensures Match(OptSpace.body, Then(Rep(OptSpace.body, 0, 0), Then(Ups1Z.right.right.right.right, Then(UpsPattern.re.right.right, Done))), s, 7, true) == None
    ensures Match(Alnum.left, Then(Rep(Alnum, 2, 2), Then(Ups1Z.right.right.right.right.right, Then(UpsPattern.re.right.right, Done))), s, 7, true) == None
    ensures Match(Alnum.left, Then(Rep(Alnum, 1, 1), Then(Ups1Z.right.right.right.right.right, Then(UpsPattern.re.right.right, Done))), s, 8, true) == None
    ensures Match(OptSpace.body, Then(Rep(OptSpace.body, 0, 0), Then(Ups1Z.right.right.right.right.right.right, Then(UpsPattern.re.right.right, Done))), s, 10, true) == None
    ensures Match(OptSpace.body, Then(Rep(OptSpace.body, 0, 0), Then(Ups1Z.right.right.right.right.right.right.right.right, Then(UpsPattern.re.right.right, Done))), s, 12, true) == None
    ensures Match(OptSpace.body, Then(Rep(OptSpace.body, 0, 0), Then(Ups1Z.right.right.right.right.right.right.right.right.right.right, Then(UpsPattern.re.right.right, Done))), s, 16, true) == None
    ensures Match(Rep(Alnum, 0, 0), Then(Ups1Z.right.right.right.right.right.right.right.right.right.right.right, Then(UpsPattern.re.right.right, Done)), s, 19, true) == Some(20)
  {
    assert Match(OptSpace.body, Then(Rep(OptSpace.body, 0, 0), Then(Ups1Z.right.right, Then(UpsPattern.re.right.right, Done))), s, 4, true) == None;
    assert Match(OptSpace.body, Then(Rep(OptSpace.body, 0, 0), Then(Ups1Z.right.right.right.right, Then(UpsPattern.re.right.right, Done))), s, 7, true) == None;
    assert Match(Alnum.left, Then(Rep(Alnum, 2, 2), Then(Ups1Z.right.right.right.right.right, Then(UpsPattern.re.right.right, Done))), s, 7, true) == None;
    assert Match(Alnum.left, Then(Rep(Alnum, 1, 1), Then(Ups1Z.right.right.right.right.right, Then(UpsPattern.re.right.right, Done))), s, 8, true) == None;
    assert Match(OptSpace.body, Then(Rep(OptSpace.body, 0, 0), Then(Ups1Z.right.right.right.right.right.right, Then(UpsPattern.re.right.right, Done))), s, 10, true) == None;
    assert Match(OptSpace.body, Then(Rep(OptSpace.body, 0, 0), Then(Ups1Z.right.right.right.right.right.right.right.right, Then(UpsPattern.re.right.right, Done))), s, 12, true) == None;
    assert Match(OptSpace.body, Then(Rep(OptSpace.body, 0, 0), Then(Ups1Z.right.right.right.right.right.right.right.right.right.right, Then(UpsPattern.re.right.right, Done))), s, 16, true) == None;
    assert Match(OptSpace.body, Then(Rep(OptSpace.body, 0, 0), Then(Alnum, Then(UpsPattern.re.right.right, Done))), s, 19, true) == None;
    assert Match(UpsPattern.re.right.right, Done, s, 20, true) == Some(20);
    assert Match(Alnum.left, Then(UpsPattern.re.right.right, Done), s, 19, true) == Some(20);
    assert Match(Alnum, Then(UpsPattern.re.right.right, Done), s, 19, true) == Some(20);
    assert Match(OptSpace, Then(Alnum, Then(UpsPattern.re.right.right, Done)), s, 19, true) == Some(20);
    assert Match(Ups1Z.right.right.right.right.right.right.right.right.right.right.right, Then(UpsPattern.re.right.right, Done), s, 19, true) == Some(20);
  }

  lemma UpsOnLedAt2Part2(s: Bytes)
    requires SpellsLed(s)
    ensures Match(Alnum.left, Then(Rep(Alnum, 0, 0), Then(Ups1Z.right.right.right.right.right.right.right.right.right, Then(UpsPattern.re.right.right, Done))), s, 15, true) == Some(20)
  {
    UpsOnLedAt2Part1(s);
    assert Match(Alnum.left, Then(Rep(Alnum, 0, 0), Then(Ups1Z.right.right.right.right.right.right.right.right.right.right.right, Then(UpsPattern.re.right.right, Done))), s, 18, true) == Some(20);
    assert Match(Alnum, Then(Rep(Alnum, 0, 0), Then(Ups1Z.right.right.right.right.right.right.right.right.right.right.right, Then(UpsPattern.re.right.right, Done))), s, 18, true) == Some(20);
    assert Match(Rep(Alnum, 1, 1), Then(Ups1Z.right.right.right.right.right.right.right.right.right.right.right, Then(UpsPattern.re.right.right, Done)), s, 18, true) == Some(20);
    assert Match(Alnum.left, Then(Rep(Alnum, 1, 1), Then(Ups1Z.right.right.right.right.right.right.right.right.right.right.right, Then(UpsPattern.re.right.right, Done))), s, 17, true) == Some(20);
    assert Match(Alnum, Then(Rep(Alnum, 1, 1), Then(Ups1Z.right.right.right.right.right.right.right.right.right.right.right, Then(UpsPattern.re.right.right, Done))), s, 17, true) == Some(20);
    assert Match(Rep(Alnum, 2, 2), Then(Ups1Z.right.right.right.right.right.right.right.right.right.right.right, Then(UpsPattern.re.right.right, Done)), s, 17, true) == Some(20);
    assert Match(Alnum.left, Then(Rep(Alnum, 2, 2), Then(Ups1Z.right.right.right.right.right.right.right.right.right.right.right, Then(UpsPattern.re.right.right, Done))), s, 16, true) == Some(20);
    assert Match(Alnum, Then(Rep(Alnum, 2, 2), Then(Ups1Z.right.right.right.right.right.right.right.right.right.right.right, Then(UpsPattern.re.right.right, Done))), s, 16, true) == Some(20);
    assert Match(Ups1Z.right.right.right.right.right.right.right.right.right.right.left, Then(Ups1Z.right.right.right.right.right.right.right.right.right.right.right, Then(UpsPattern.re.right.right, Done)), s, 16, true) == Some(20);
    assert Match(Ups1Z.right.right.right.right.right.right.right.right.right.right, Then(UpsPattern.re.right.right, Done), s, 16, true) == Some(20);
    assert Match(OptSpace, Then(Ups1Z.right.right.right.right.right.right.right.right.right.right, Then(UpsPattern.re.right.right, Done)), s, 16, true) == Some(20);
    assert Match(Ups1Z.right.right.right.right.right.right.right.right.right, Then(UpsPattern.re.right.right, Done), s, 16, true) == Some(20);
    assert Match(Rep(Alnum, 0, 0), Then(Ups1Z.right.right.right.right.right.right.right.right.right, Then(UpsPattern.re.right.right, Done)), s, 16, true) == Some(20);
  }

  lemma UpsOnLedAt2Part3(s: Bytes)
    requires SpellsLed(s)
    ensures Match(Ups1Z.right.right.right.right.right.right.right, Then(UpsPattern.re.right.right, Done), s, 12, true) == Some(20)
  {
    UpsOnLedAt2Part1(s);
    UpsOnLedAt2Part2(s);
    assert Match(Alnum, Then(Rep(Alnum, 0, 0), Then(Ups1Z.right.right.right.right.right.right.right.right.right, Then(UpsPattern.re.right.right, Done))), s, 15, true) == Some(20);
    assert Match(Rep(Alnum, 1, 1), Then(Ups1Z.right.right.right.right.right.right.right.right.right, Then(UpsPattern.re.right.right, Done)), s, 15, true) == Some(20);
    assert Match(Alnum.left, Then(Rep(Alnum, 1, 1), Then(Ups1Z.right.right.right.right.right.right.right.right.right, Then(UpsPattern.re.right.right, Done))), s, 14, true) == Some(20);
    assert Match(Alnum, Then(Rep(Alnum, 1, 1), Then(Ups1Z.right.right.right.right.right.right.right.right.right, Then(UpsPattern.re.right.right, Done))), s, 14, true) == Some(20);
    assert Match(Rep(Alnum, 2, 2), Then(Ups1Z.right.right.right.right.right.right.right.right.right, Then(UpsPattern.re.right.right, Done)), s, 14, true) == Some(20);
    assert Match(Alnum.left, Then(Rep(Alnum, 2, 2), Then(Ups1Z.right.right.right.right.right.right.right.right.right, Then(UpsPattern.re.right.right, Done))), s, 13, true) == Some(20);
    assert Match(Alnum, Then(Rep(Alnum, 2, 2), Then(Ups1Z.right.right.right.right.right.right.right.right.right, Then(UpsPattern.re.right.right, Done))), s, 13, true) == Some(20);
    assert Match(Rep(Alnum, 3, 3), Then(Ups1Z.right.right.right.right.right.right.right.right.right, Then(UpsPattern.re.right.right, Done)), s, 13, true) == Some(20);
    assert Match(Alnum.left, Then(Rep(Alnum, 3, 3), Then(Ups1Z.right.right.right.right.right.right.right.right.right, Then(UpsPattern.re.right.right, Done))), s, 12, true) == Some(20);
    assert Match(Alnum, Then(Rep(Alnum, 3, 3), Then(Ups1Z.right.right.right.right.right.right.right.right.right, Then(UpsPattern.re.right.right, Done))), s, 12, true) == Some(20);
    assert Match(Ups1Z.right.right.right.right.right.right.right.right.left, Then(Ups1Z.right.right.right.right.right.right.right.right.right, Then(UpsPattern.re.right.right, Done)), s, 12, true) == Some(20);
    assert Match(Ups1Z.right.right.right.right.right.right.right.right, Then(UpsPattern.re.right.right, Done), s, 12, true) == Some(20);
    assert Match(OptSpace, Then(Ups1Z.right.right.right.right.right.right.right.right, Then(UpsPattern.re.right.right, Done)), s, 12, true) == Some(20);
  }

  lemma UpsOnLedAt2Part4(s: Bytes)
    requires SpellsLed(s)
    ensures Match(Rep(Alnum, 1, 1), Then(Ups1Z.right.right.right.right.right, Then(UpsPattern.re.right.right, Done)), s, 9, true) == Some(20)
  {
    UpsOnLedAt2Part1(s);
    UpsOnLedAt2Part3(s);
    assert Match(Rep(Alnum, 0, 0), Then(Ups1Z.right.right.right.right.right.right.right, Then(UpsPattern.re.right.right, Done)), s, 12, true) == Some(20);
    assert Match(Alnum.left, Then(Rep(Alnum, 0, 0), Then(Ups1Z.right.right.right.right.right.right.right, Then(UpsPattern.re.right.right, Done))), s, 11, true) == Some(20);
    assert Match(Alnum, Then(Rep(Alnum, 0, 0), Then(Ups1Z.right.right.right.right.right.right.right, Then(UpsPattern.re.right.right, Done))), s, 11, true) == Some(20);
    assert Match(Rep(Alnum, 1, 1), Then(Ups1Z.right.right.right.right.right.right.right, Then(UpsPattern.re.right.right, Done)), s, 11, true) == Some(20);
    assert Match(Alnum.left, Then(Rep(Alnum, 1, 1), Then(Ups1Z.right.right.right.right.right.right.right, Then(UpsPattern.re.right.right, Done))), s, 10, true) == Some(20);
    assert Match(Alnum, Then(Rep(Alnum, 1, 1), Then(Ups1Z.right.right.right.right.right.right.right, Then(UpsPattern.re.right.right, Done))), s, 10, true) == Some(20);
    assert Match(Ups1Z.right.right.right.right.right.right.left, Then(Ups1Z.right.right.right.right.right.right.right, Then(UpsPattern.re.right.right, Done)), s, 10, true) == Some(20);
    assert Match(Ups1Z.right.right.right.right.right.right, Then(UpsPattern.re.right.right, Done), s, 10, true) == Some(20);
    assert Match(OptSpace, Then(Ups1Z.right.right.right.right.right.right, Then(UpsPattern.re.right.right, Done)), s, 10, true) == Some(20);
    assert Match(Ups1Z.right.right.right.right.right, Then(UpsPattern.re.right.right, Done), s, 10, true) == Some(20);
    assert Match(Rep(Alnum, 0, 0), Then(Ups1Z.right.right.right.right.right, Then(UpsPattern.re.right.right, Done)), s, 10, true) == Some(20);
    assert Match(Alnum.left, Then(Rep(Alnum, 0, 0), Then(Ups1Z.right.right.right.right.right, Then(UpsPattern.re.right.right, Done))), s, 9, true) == Some(20);
    assert Match(Alnum, Then(Rep(Alnum, 0, 0), Then(Ups1Z.right.right.right.right.right, Then(UpsPattern.re.right.right, Done))), s, 9, true) == Some(20);
  }

  lemma UpsOnLedAt2Part5(s: Bytes)
    requires SpellsLed(s)
    ensures Match(Alnum.left, Then(Rep(Alnum, 1, 1), Then(Ups1Z.right.right.right, Then(UpsPattern.re.right.right, Done))), s, 5, true) == Some(20)
  {
    UpsOnLedAt2Part1(s);
    UpsOnLedAt2Part4(s);
    assert Match(Alnum.right, Then(Rep(Alnum, 1, 1), Then(Ups1Z.right.right.right.right.right, Then(UpsPattern.re.right.right, Done))), s, 8, true) == Some(20);
    assert Match(Alnum, Then(Rep(Alnum, 1, 1), Then(Ups1Z.right.right.right.right.right, Then(UpsPattern.re.right.right, Done))), s, 8, true) == Some(20);
    assert Match(Rep(Alnum, 2, 2), Then(Ups1Z.right.right.right.right.right, Then(UpsPattern.re.right.right, Done)), s, 8, true) == Some(20);
    assert Match(Alnum.right, Then(Rep(Alnum, 2, 2), Then(Ups1Z.right.right.right.right.right, Then(UpsPattern.re.right.right, Done))), s, 7, true) == Some(20);
    assert Match(Alnum, Then(Rep(Alnum, 2, 2), Then(Ups1Z.right.right.right.right.right, Then(UpsPattern.re.right.right, Done))), s, 7, true) == Some(20);
    assert Match(Ups1Z.right.right.right.right.left, Then(Ups1Z.right.right.right.right.right, Then(UpsPattern.re.right.right, Done)), s, 7, true) == Some(20);
    assert Match(Ups1Z.right.right.right.right, Then(UpsPattern.re.right.right, Done), s, 7, true) == Some(20);
    assert Match(OptSpace, Then(Ups1Z.right.right.right.right, Then(UpsPattern.re.right.right, Done)), s, 7, true) == Some(20);
    assert Match(Ups1Z.right.right.right, Then(UpsPattern.re.right.right, Done), s, 7, true) == Some(20);
    assert Match(Rep(Alnum, 0, 0), Then(Ups1Z.right.right.right, Then(UpsPattern.re.right.right, Done)), s, 7, true) == Some(20);
    assert Match(Alnum.left, Then(Rep(Alnum, 0, 0), Then(Ups1Z.right.right.right, Then(UpsPattern.re.right.right, Done))), s, 6, true) == Some(20);
    assert Match(Alnum, Then(Rep(Alnum, 0, 0), Then(Ups1Z.right.right.right, Then(UpsPattern.re.right.right, Done))), s, 6, true) == Some(20);
    assert Match(Rep(Alnum, 1, 1), Then(Ups1Z.right.right.right, Then(UpsPattern.re.right.right, Done)), s, 6, true) == Some(20);
  }

  lemma UpsOnLedAt2Part6(s: Bytes)
    requires SpellsLed(s)
    ensures Match(UpsPattern.re.right, Done, s, 2, true) == Some(20)
  {
    UpsOnLedAt2Part1(s);
    UpsOnLedAt2Part5(s);
    assert Match(Alnum, Then(Rep(Alnum, 1, 1), Then(Ups1Z.right.right.right, Then(UpsPattern.re.right.right, Done))), s, 5, true) == Some(20);
    assert Match(Rep(Alnum, 2, 2), Then(Ups1Z.right.right.right, Then(UpsPattern.re.right.right, Done)), s, 5, true) == Some(20);
    assert Match(Alnum.left, Then(Rep(Alnum, 2, 2), Then(Ups1Z.right.right.right, Then(UpsPattern.re.right.right, Done))), s, 4, true) == Some(20);
    assert Match(Alnum, Then(Rep(Alnum, 2, 2), Then(Ups1Z.right.right.right, Then(UpsPattern.re.right.right, Done))), s, 4, true) == Some(20);
    assert Match(Ups1Z.right.right.left, Then(Ups1Z.right.right.right, Then(UpsPattern.re.right.right, Done)), s, 4, true) == Some(20);
    assert Match(Ups1Z.right.right, Then(UpsPattern.re.right.right, Done), s, 4, true) == Some(20);
    assert Match(OptSpace, Then(Ups1Z.right.right, Then(UpsPattern.re.right.right, Done)), s, 4, true) == Some(20);
    assert Match(Ups1Z.right, Then(UpsPattern.re.right.right, Done), s, 4, true) == Some(20);
    assert Match(Ups1Z.left.right, Then(Ups1Z.right, Then(UpsPattern.re.right.right, Done)), s, 3, true) == Some(20);
    assert Match(Ups1Z.left.left, Then(Ups1Z.left.right, Then(Ups1Z.right, Then(UpsPattern.re.right.right, Done))), s, 2, true) == Some(20);
    assert Match(Ups1Z.left, Then(Ups1Z.right, Then(UpsPattern.re.right.right, Done)), s, 2, true) == Some(20);
    assert Match(Ups1Z, Then(UpsPattern.re.right.right, Done), s, 2, true) == Some(20);
    assert Match(UpsPattern.re.right.left, Then(UpsPattern.re.right.right, Done), s, 2, true) == Some(20);
  }

  lemma UpsOnLedAt2Part7(s: Bytes)
    requires SpellsLed(s)
    ensures Match(UpsPattern.re, Done, s, 2, true) == Some(20)
  {
    UpsOnLedAt2Part6(s);
    assert Match(UpsPattern.re.left, Then(UpsPattern.re.right, Done), s, 2, true) == Some(20);
  }

  /** The UPS number led by `x `: no pattern matches at its start; UPS matches from 2 on. */
  lemma RunsOnLed()
    ensures MatchAt(DhlPattern, NumLed, 0) == None
    ensures MatchAt(FedExPattern, NumLed, 0) == None
    ensures MatchAt(UpsPattern, NumLed, 0) == None
    ensures MatchAt(UspsPattern1, NumLed, 0) == None
    ensures MatchAt(UspsPattern2, NumLed, 0) == None
    ensures MatchAt(UspsPattern3, NumLed, 0) == None
    ensures MatchAt(RoyalMailPattern, NumLed, 0) == None
    ensures MatchAt(UpsPattern, NumLed, 1) == None
    ensures MatchAt(UpsPattern, NumLed, 2) == Some(20)
  {
    NumLedSpelled();
    DhlOnLedPart1(NumLed);
    FedExOnLedPart1(NumLed);
    UpsOnLedPart1(NumLed);
    Usps1OnLedPart2(NumLed);
    Usps2OnLedPart2(NumLed);
    Usps3OnLedPart1(NumLed);
    RoyalMailOnLedPart2(NumLed);
    UpsOnLedAt1Part1(NumLed);
    UpsOnLedAt2Part7(NumLed);
  }

  lemma DhlOnEmbeddedPart1(s: Bytes)
    requires SpellsEmbedded(s)
    ensures Match(DhlPattern.re, Done, s, 0, true) == None
  {
    assert Match(Digit, Then(Rep(Digit, 3, 3), Then(DhlGrouped.right, Then(DhlPattern.re.right.right, Done))), s, 0, true) == None;
    assert Match(DhlGrouped.left, Then(DhlGrouped.right, Then(DhlPattern.re.right.right, Done)), s, 0, true) == None;
    assert Match(DhlGrouped, Then(DhlPattern.re.right.right, Done), s, 0, true) == None;
    assert Match(Digit, Then(Rep(Digit, 2, 2), Then(DhlLong.right, Then(DhlPattern.re.right.right, Done))), s, 0, true) == None;
    assert Match(DhlLong.left, Then(DhlLong.right, Then(DhlPattern.re.right.right, Done)), s, 0, true) == None;
    assert Match(DhlLong, Then(DhlPattern.re.right.right, Done), s, 0, true) == None;
    assert Match(Digit, Then(Rep(Digit, 6, 6), Then(DhlPattern.re.right.right, Done)), s, 3, true) == None;
    assert Match(DhlLettered.right, Then(DhlPattern.re.right.right, Done), s, 3, true) == None;
    assert Match(Rep(Letter, 0, 0), Then(DhlLettered.right, Then(DhlPattern.re.right.right, Done)), s, 3, true) == None;
    assert Match(Letter, Then(Rep(Letter, 0, 0), Then(DhlLettered.right, Then(DhlPattern.re.right.right, Done))), s, 2, true) == None;
    assert Match(Rep(Letter, 1, 1), Then(DhlLettered.right, Then(DhlPattern.re.right.right, Done)), s, 2, true) == None;
    assert Match(Letter, Then(Rep(Letter, 1, 1), Then(DhlLettered.right, Then(DhlPattern.re.right.right, Done))), s, 1, true) == None;
    assert Match(Rep(Letter, 2, 2), Then(DhlLettered.right, Then(DhlPattern.re.right.right, Done)), s, 1, true) == None;
    assert Match(Letter, Then(Rep(Letter, 2, 2), Then(DhlLettered.right, Then(DhlPattern.re.right.right, Done))), s, 0, true) == None;
    assert Match(DhlLettered.left, Then(DhlLettered.right, Then(DhlPattern.re.right.right, Done)), s, 0, true) == None;
    assert Match(DhlLettered, Then(DhlPattern.re.right.right, Done), s, 0, true) == None;
    assert Match(DhlPattern.re.right.left.right, Then(DhlPattern.re.right.right, Done), s, 0, true) == None;
    assert Match(DhlPattern.re.right.left, Then(DhlPattern.re.right.right, Done), s, 0, true) == None;
    assert Match(DhlPattern.re.right, Done, s, 0, true) == None;
    assert Match(DhlPattern.re.left, Then(DhlPattern.re.right, Done), s, 0, true) == None;
  }

  lemma FedExOnEmbeddedPart1(s: Bytes)
    requires SpellsEmbedded(s)
    ensures Match(FedExPattern.re, Done, s, 0, true) == None
  {
    assert Match(FedExHead.left.left.left.left.left, Then(FedExHead.left.left.left.left.right, Then(FedExHead.left.left.left.right, Then(FedExHead.left.right, Then(FedExPattern.re.right.left.right, Then(FedExPattern.re.right.right, Done))))), s, 0, true) == None;
    assert Match(FedExHead.left.left.left.left, Then(FedExHead.left.left.left.right, Then(FedExHead.left.right, Then(FedExPattern.re.right.left.right, Then(FedExPattern.re.right.right, Done)))), s, 0, true) == None;
    assert Match(FedExHead.left.left.left, Then(FedExHead.left.right, Then(FedExPattern.re.right.left.right, Then(FedExPattern.re.right.right, Done))), s, 0, true) == None;
    assert Match(FedExHead.left.left.right.left, Then(Digit, Then(FedExHead.left.right, Then(FedExPattern.re.right.left.right, Then(FedExPattern.re.right.right, Done)))), s, 0, true) == None;
    assert Match(FedExHead.left.left.right, Then(FedExHead.left.right, Then(FedExPattern.re.right.left.right, Then(FedExPattern.re.right.right, Done))), s, 0, true) == None;
    assert Match(FedExHead.left.left, Then(FedExHead.left.right, Then(FedExPattern.re.right.left.right, Then(FedExPattern.re.right.right, Done))), s, 0, true) == None;
    assert Match(FedExHead.left, Then(FedExPattern.re.right.left.right, Then(FedExPattern.re.right.right, Done)), s, 0, true) == None;
    assert Match(FedExHead.right.left.left.left, Then(FedExHead.right.left.left.right, Then(FedExHead.right.left.right, Then(FedExPattern.re.right.left.right, Then(FedExPattern.re.right.right, Done)))), s, 0, true) == None;
    assert Match(FedExHead.right.left.left, Then(FedExHead.right.left.right, Then(FedExPattern.re.right.left.right, Then(FedExPattern.re.right.right, Done))), s, 0, true) == None;
    assert Match(FedExHead.right.left, Then(FedExPattern.re.right.left.right, Then(FedExPattern.re.right.right, Done)), s, 0, true) == None;
    assert Match(Digit, Then(Rep(Digit, 3, 3), Then(FedExPattern.re.right.left.right, Then(FedExPattern.re.right.right, Done))), s, 0, true) == None;
    assert Match(FedExHead.right.right, Then(FedExPattern.re.right.left.right, Then(FedExPattern.re.right.right, Done)), s, 0, true) == None;
    assert Match(FedExHead.right, Then(FedExPattern.re.right.left.right, Then(FedExPattern.re.right.right, Done)), s, 0, true) == None;
    assert Match(FedExHead, Then(FedExPattern.re.right.left.right, Then(FedExPattern.re.right.right, Done)), s, 0, true) == None;
    assert Match(FedExPattern.re.right.left, Then(FedExPattern.re.right.right, Done), s, 0, true) == None;
    assert Match(FedExPattern.re.right, Done, s, 0, true) == None;
    assert Match(FedExPattern.re.left, Then(FedExPattern.re.right, Done), s, 0, true) == None;
  }

  lemma UpsOnEmbeddedPart1(s: Bytes)
    requires SpellsEmbedded(s)
    ensures Match(UpsPattern.re, Done, s, 0, true) == None
  {
    assert Match(Ups1Z.left.left, Then(Ups1Z.left.right, Then(Ups1Z.right, Then(UpsPattern.re.right.right, Done))), s, 0, true) == None;
    assert Match(Ups1Z.left, Then(Ups1Z.right, Then(UpsPattern.re.right.right, Done)), s, 0, true) == None;
    assert Match(Ups1Z, Then(UpsPattern.re.right.right, Done), s, 0, true) == None;
    assert Match(UpsT.left, Then(UpsT.right, Then(UpsPattern.re.right.right, Done)), s, 0, true) == None;
    assert Match(UpsT, Then(UpsPattern.re.right.right, Done), s, 0, true) == None;
    assert Match(UpsPattern.re.right.left, Then(UpsPattern.re.right.right, Done), s, 0, true) == None;
    assert Match(UpsPattern.re.right, Done, s, 0, true) == None;
    assert Match(UpsPattern.re.left, Then(UpsPattern.re.right, Done), s, 0, true) == None;
  }

  lemma Usps1OnEmbeddedPart1(s: Bytes)
    requires SpellsEmbedded(s)
    ensures Match(UspsRouting, Then(Rep(UspsRouting, 0, 0), Then(UspsPattern1.re.right.left.right, Then(UspsPattern1.re.right.right, Done))), s, 0, true) == None
    ensures Match(UspsServiceCode.left, Then(UspsPattern1.re.right.left.right.right, Then(UspsPattern1.re.right.right, Done)), s, 0, true) == None
    ensures Match(UspsServiceCode.right.left, Then(UspsPattern1.re.right.left.right.right, Then(UspsPattern1.re.right.right, Done)), s, 0, true) == None
    ensures Match(UspsServiceCode.right.right.left, Then(UspsPattern1.re.right.left.right.right, Then(UspsPattern1.re.right.right, Done)), s, 0, true) == None
    ensures Match(UspsServiceCode.right.right.right.left, Then(UspsPattern1.re.right.left.right.right, Then(UspsPattern1.re.right.right, Done)), s, 0, true) == None
    ensures Match(UspsServiceCode.right.right.right.right.left, Then(UspsPattern1.re.right.left.right.right, Then(UspsPattern1.re.right.right, Done)), s, 0, true) == None
    ensures Match(UspsServiceCode.right.right.right.right.right.left, Then(UspsPattern1.re.right.left.right.right, Then(UspsPattern1.re.right.right, Done)), s, 0, true) == None
    ensures Match(UspsServiceCode.right.right.right.right.right.right.left, Then(UspsPattern1.re.right.left.right.right, Then(UspsPattern1.re.right.right, Done)), s, 0, true) == None
    ensures Match(UspsServiceCode.right.right.right.right.right.right.right, Then(UspsPattern1.re.right.left.right.right, Then(UspsPattern1.re.right.right, Done)), s, 0, true) == None
  {
    assert Match(UspsRouting.left, Then(UspsRouting.right, Then(Rep(UspsRouting, 0, 0), Then(UspsPattern1.re.right.left.right, Then(UspsPattern1.re.right.right, Done)))), s, 0, true) == None;
    assert Match(UspsRouting, Then(Rep(UspsRouting, 0, 0), Then(UspsPattern1.re.right.left.right, Then(UspsPattern1.re.right.right, Done))), s, 0, true) == None;
    assert Match(UspsServiceCode.left.left, Then(UspsServiceCode.left.right, Then(UspsPattern1.re.right.left.right.right, Then(UspsPattern1.re.right.right, Done))), s, 0, true) == None;
    assert Match(UspsServiceCode.left, Then(UspsPattern1.re.right.left.right.right, Then(UspsPattern1.re.right.right, Done)), s, 0, true) == None;
    assert Match(UspsServiceCode.right.left.left, Then(UspsServiceCode.right.left.right, Then(UspsPattern1.re.right.left.right.right, Then(UspsPattern1.re.right.right, Done))), s, 0, true) == None;
    assert Match(UspsServiceCode.right.left, Then(UspsPattern1.re.right.left.right.right, Then(UspsPattern1.re.right.right, Done)), s, 0, true) == None;
    assert Match(UspsServiceCode.right.right.left.left, Then(UspsServiceCode.right.right.left.right, Then(UspsPattern1.re.right.left.right.right, Then(UspsPattern1.re.right.right, Done))), s, 0, true) == None;
    assert Match(UspsServiceCode.right.right.left, Then(UspsPattern1.re.right.left.right.right, Then(UspsPattern1.re.right.right, Done)), s, 0, true) == None;
    assert Match(UspsServiceCode.right.right.right.left.left, Then(UspsServiceCode.right.right.right.left.right, Then(UspsPattern1.re.right.left.right.right, Then(UspsPattern1.re.right.right, Done))), s, 0, true) == None;
    assert Match(UspsServiceCode.right.right.right.left, Then(UspsPattern1.re.right.left.right.right, Then(UspsPattern1.re.right.right, Done)), s, 0, true) == None;
    assert Match(UspsServiceCode.right.right.right.right.left.left, Then(UspsServiceCode.right.right.right.right.left.right, Then(UspsPattern1.re.right.left.right.right, Then(UspsPattern1.re.right.right, Done))), s, 0, true) == None;
    assert Match(UspsServiceCode.right.right.right.right.left, Then(UspsPattern1.re.right.left.right.right, Then(UspsPattern1.re.right.right, Done)), s, 0, true) == None;
    assert Match(UspsServiceCode.right.right.right.right.right.left.left, Then(UspsServiceCode.right.right.right.right.right.left.right, Then(UspsPattern1.re.right.left.right.right, Then(UspsPattern1.re.right.right, Done))), s, 0, true) == None;
    assert Match(UspsServiceCode.right.right.right.right.right.left, Then(UspsPattern1.re.right.left.right.right, Then(UspsPattern1.re.right.right, Done)), s, 0, true) == None;
    assert Match(UspsServiceCode.right.right.right.right.right.right.left.left, Then(UspsServiceCode.right.right.right.right.right.right.left.right, Then(UspsPattern1.re.right.left.right.right, Then(UspsPattern1.re.right.right, Done))), s, 0, true) == None;
    assert Match(UspsServiceCode.right.right.right.right.right.right.left, Then(UspsPattern1.re.right.left.right.right, Then(UspsPattern1.re.right.right, Done)), s, 0, true) == None;
    assert Match(UspsServiceCode.right.right.right.right.right.right.right.left.left, Then(UspsServiceCode.right.right.right.right.right.right.right.left.right, Then(UspsPattern1.re.right.left.right.right, Then(UspsPattern1.re.right.right, Done))), s, 0, true) == None;
    assert Match(UspsServiceCode.right.right.right.right.right.right.right.left, Then(UspsPattern1.re.right.left.right.right, Then(UspsPattern1.re.right.right, Done)), s, 0, true) == None;
    assert Match(UspsServiceCode.right.right.right.right.right.right.right.right.left.left, Then(UspsServiceCode.right.right.right.right.right.right.right.right.left.right, Then(UspsPattern1.re.right.left.right.right, Then(UspsPattern1.re.right.right, Done))), s, 0, true) == None;
    assert Match(UspsServiceCode.right.right.right.right.right.right.right.right.left, Then(UspsPattern1.re.right.left.right.right, Then(UspsPattern1.re.right.right, Done)), s, 0, true) == None;
    assert Match(UspsServiceCode.right.right.right.right.right.right.right.right.right.left, Then(UspsServiceCode.right.right.right.right.right.right.right.right.right.right, Then(UspsPattern1.re.right.left.right.right, Then(UspsPattern1.re.right.right, Done))), s, 0, true) == None;
    assert Match(UspsServiceCode.right.right.right.right.right.right.right.right.right, Then(UspsPattern1.re.right.left.right.right, Then(UspsPattern1.re.right.right, Done)), s, 0, true) == None;
    assert Match(UspsServiceCode.right.right.right.right.right.right.right.right, Then(UspsPattern1.re.right.left.right.right, Then(UspsPattern1.re.right.right, Done)), s, 0, true) == None;
  }

  lemma Usps1OnEmbeddedPart2(s: Bytes)
    requires SpellsEmbedded(s)
    ensures Match(UspsPattern1.re, Done, s, 0, true) == None
  {
    Usps1OnEmbeddedPart1(s);
    assert Match(UspsServiceCode.right.right.right.right.right.right, Then(UspsPattern1.re.right.left.right.right, Then(UspsPattern1.re.right.right, Done)), s, 0, true) == None;
    assert Match(UspsServiceCode.right.right.right.right.right, Then(UspsPattern1.re.right.left.right.right, Then(UspsPattern1.re.right.right, Done)), s, 0, true) == None;
    assert Match(UspsServiceCode.right.right.right.right, Then(UspsPattern1.re.right.left.right.right, Then(UspsPattern1.re.right.right, Done)), s, 0, true) == None;
    assert Match(UspsServiceCode.right.right.right, Then(UspsPattern1.re.right.left.right.right, Then(UspsPattern1.re.right.right, Done)), s, 0, true) == None;
    assert Match(UspsServiceCode.right.right, Then(UspsPattern1.re.right.left.right.right, Then(UspsPattern1.re.right.right, Done)), s, 0, true) == None;
    assert Match(UspsServiceCode.right, Then(UspsPattern1.re.right.left.right.right, Then(UspsPattern1.re.right.right, Done)), s, 0, true) == None;
    assert Match(UspsServiceCode, Then(UspsPattern1.re.right.left.right.right, Then(UspsPattern1.re.right.right, Done)), s, 0, true) == None;
    assert Match(UspsPattern1.re.right.left.right, Then(UspsPattern1.re.right.right, Done), s, 0, true) == None;
    assert Match(UspsPattern1.re.right.left.left, Then(UspsPattern1.re.right.left.right, Then(UspsPattern1.re.right.right, Done)), s, 0, true) == None;
    assert Match(UspsPattern1.re.right.left, Then(UspsPattern1.re.right.right, Done), s, 0, true) == None;
    assert Match(UspsPattern1.re.right, Done, s, 0, true) == None;
    assert Match(UspsPattern1.re.left, Then(UspsPattern1.re.right, Done), s, 0, true) == None;
  }

  lemma Usps2OnEmbeddedPart1(s: Bytes)
    requires SpellsEmbedded(s)
    ensures Match(UspsPrefix.left, Then(UspsPattern2.re.right.left.right, Then(UspsPattern2.re.right.right, Done)), s, 0, true) == None
    ensures Match(UspsPrefix.right.left, Then(UspsPattern2.re.right.left.right, Then(UspsPattern2.re.right.right, Done)), s, 0, true) == None
    ensures Match(UspsPrefix.right.right.left, Then(UspsPattern2.re.right.left.right, Then(UspsPattern2.re.right.right, Done)), s, 0, true) == None
    ensures Match(UspsPrefix.right.right.right.left, Then(UspsPattern2.re.right.left.right, Then(UspsPattern2.re.right.right, Done)), s, 0, true) == None
    ensures Match(UspsPrefix.right.right.right.right.left, Then(UspsPattern2.re.right.left.right, Then(UspsPattern2.re.right.right, Done)), s, 0, true) == None
  {
    assert Match(UspsPrefix.left, Then(UspsPattern2.re.right.left.right, Then(UspsPattern2.re.right.right, Done)), s, 0, true) == None;
    assert Match(OptSpace.body, Then(Rep(OptSpace.body, 0, 0), Then(UspsPattern2.re.right.left.right.right, Then(UspsPattern2.re.right.right, Done))), s, 2, true) == None;
    assert Match(Digit, Then(Rep(Digit, 2, 2), Then(UspsPattern2.re.right.left.right.right.right, Then(UspsPattern2.re.right.right, Done))), s, 2, true) == None;
    assert Match(UspsPattern2.re.right.left.right.right.left, Then(UspsPattern2.re.right.left.right.right.right, Then(UspsPattern2.re.right.right, Done)), s, 2, true) == None;
    assert Match(UspsPattern2.re.right.left.right.right, Then(UspsPattern2.re.right.right, Done), s, 2, true) == None;
    assert Match(OptSpace, Then(UspsPattern2.re.right.left.right.right, Then(UspsPattern2.re.right.right, Done)), s, 2, true) == None;
    assert Match(UspsPattern2.re.right.left.right, Then(UspsPattern2.re.right.right, Done), s, 2, true) == None;
    assert Match(Rep(Letter, 0, 0), Then(UspsPattern2.re.right.left.right, Then(UspsPattern2.re.right.right, Done)), s, 2, true) == None;
    assert Match(Letter, Then(Rep(Letter, 0, 0), Then(UspsPattern2.re.right.left.right, Then(UspsPattern2.re.right.right, Done))), s, 1, true) == None;
    assert Match(OptSpace.body, Then(Rep(OptSpace.body, 0, 0), Then(UspsPattern2.re.right.left.right.right, Then(UspsPattern2.re.right.right, Done))), s, 1, true) == None;
    assert Match(Digit, Then(Rep(Digit, 2, 2), Then(UspsPattern2.re.right.left.right.right.right, Then(UspsPattern2.re.right.right, Done))), s, 1, true) == None;
    assert Match(UspsPattern2.re.right.left.right.right.left, Then(UspsPattern2.re.right.left.right.right.right, Then(UspsPattern2.re.right.right, Done)), s, 1, true) == None;
    assert Match(UspsPattern2.re.right.left.right.right, Then(UspsPattern2.re.right.right, Done), s, 1, true) == None;
    assert Match(OptSpace, Then(UspsPattern2.re.right.left.right.right, Then(UspsPattern2.re.right.right, Done)), s, 1, true) == None;
    assert Match(UspsPattern2.re.right.left.right, Then(UspsPattern2.re.right.right, Done), s, 1, true) == None;
    assert Match(UspsPrefix.right.left.right, Then(UspsPattern2.re.right.left.right, Then(UspsPattern2.re.right.right, Done)), s, 1, true) == None;
    assert Match(UspsPrefix.right.left.left, Then(UspsPrefix.right.left.right, Then(UspsPattern2.re.right.left.right, Then(UspsPattern2.re.right.right, Done))), s, 0, true) == None;
    assert Match(UspsPrefix.right.left, Then(UspsPattern2.re.right.left.right, Then(UspsPattern2.re.right.right, Done)), s, 0, true) == None;
    assert Match(UspsPrefix.right.right.left.left, Then(UspsPrefix.right.right.left.right, Then(UspsPattern2.re.right.left.right, Then(UspsPattern2.re.right.right, Done))), s, 0, true) == None;
    assert Match(UspsPrefix.right.right.left, Then(UspsPattern2.re.right.left.right, Then(UspsPattern2.re.right.right, Done)), s, 0, true) == None;
    assert Match(UspsPrefix.right.right.right.left.left, Then(UspsPrefix.right.right.right.left.right, Then(UspsPattern2.re.right.left.right, Then(UspsPattern2.re.right.right, Done))), s, 0, true) == None;
    assert Match(UspsPrefix.right.right.right.left, Then(UspsPattern2.re.right.left.right, Then(UspsPattern2.re.right.right, Done)), s, 0, true) == None;
    assert Match(UspsPrefix.right.right.right.right.left.left, Then(UspsPrefix.right.right.right.right.left.right, Then(UspsPattern2.re.right.left.right, Then(UspsPattern2.re.right.right, Done))), s, 0, true) == None;
  }

  lemma Usps2OnEmbeddedPart2(s: Bytes)
    requires SpellsEmbedded(s)
    ensures Match(UspsPattern2.re.right, Done, s, 0, true) == None
  {
    Usps2OnEmbeddedPart1(s);
    assert Match(UspsPrefix.right.right.right.right.right.left.left, Then(Letter, Then(UspsPattern2.re.right.left.right, Then(UspsPattern2.re.right.right, Done))), s, 0, true) == None;
    assert Match(UspsPrefix.right.right.right.right.right.left, Then(UspsPattern2.re.right.left.right, Then(UspsPattern2.re.right.right, Done)), s, 0, true) == None;
    assert Match(UspsPrefix.right.right.right.right.right.right.left.left, Then(Letter, Then(UspsPattern2.re.right.left.right, Then(UspsPattern2.re.right.right, Done))), s, 0, true) == None;
    assert Match(UspsPrefix.right.right.right.right.right.right.left, Then(UspsPattern2.re.right.left.right, Then(UspsPattern2.re.right.right, Done)), s, 0, true) == None;
    assert Match(UspsPrefix.right.right.right.right.right.right.right.left.left, Then(UspsPrefix.right.right.right.right.right.right.right.left.right, Then(UspsPattern2.re.right.left.right, Then(UspsPattern2.re.right.right, Done))), s, 0, true) == None;
    assert Match(UspsPrefix.right.right.right.right.right.right.right.left, Then(UspsPattern2.re.right.left.right, Then(UspsPattern2.re.right.right, Done)), s, 0, true) == None;
    assert Match(UspsPrefix.right.right.right.right.right.right.right.right.left.left, Then(UspsPrefix.right.right.right.right.right.right.right.right.left.right, Then(UspsPattern2.re.right.left.right, Then(UspsPattern2.re.right.right, Done))), s, 0, true) == None;
    assert Match(UspsPrefix.right.right.right.right.right.right.right.right.left, Then(UspsPattern2.re.right.left.right, Then(UspsPattern2.re.right.right, Done)), s, 0, true) == None;
    assert Match(UspsPrefix.right.right.right.right.right.right.right.right.right.left.left, Then(UspsPrefix.right.right.right.right.right.right.right.right.right.left.right, Then(UspsPattern2.re.right.left.right, Then(UspsPattern2.re.right.right, Done))), s, 0, true) == None;
    assert Match(UspsPrefix.right.right.right.right.right.right.right.right.right.left, Then(UspsPattern2.re.right.left.right, Then(UspsPattern2.re.right.right, Done)), s, 0, true) == None;
    assert Match(UspsPrefix.right.right.right.right.right.right.right.right.right.right.left, Then(UspsPrefix.right.right.right.right.right.right.right.right.right.right.right, Then(UspsPattern2.re.right.left.right, Then(UspsPattern2.re.right.right, Done))), s, 0, true) == None;
    assert Match(UspsPrefix.right.right.right.right.right.right.right.right.right.right, Then(UspsPattern2.re.right.left.right, Then(UspsPattern2.re.right.right, Done)), s, 0, true) == None;
    assert Match(UspsPrefix.right.right.right.right.right.right.right.right.right, Then(UspsPattern2.re.right.left.right, Then(UspsPattern2.re.right.right, Done)), s, 0, true) == None;
    assert Match(UspsPrefix.right.right.right.right.right.right.right.right, Then(UspsPattern2.re.right.left.right, Then(UspsPattern2.re.right.right, Done)), s, 0, true) == None;
    assert Match(UspsPrefix.right.right.right.right.right.right.right, Then(UspsPattern2.re.right.left.right, Then(UspsPattern2.re.right.right, Done)), s, 0, true) == None;
    assert Match(UspsPrefix.right.right.right.right.right.right, Then(UspsPattern2.re.right.left.right, Then(UspsPattern2.re.right.right, Done)), s, 0, true) == None;
    assert Match(UspsPrefix.right.right.right.right.right, Then(UspsPattern2.re.right.left.right, Then(UspsPattern2.re.right.right, Done)), s, 0, true) == None;
    assert Match(UspsPrefix.right.right.right.right, Then(UspsPattern2.re.right.left.right, Then(UspsPattern2.re.right.right, Done)), s, 0, true) == None;
    assert Match(UspsPrefix.right.right.right, Then(UspsPattern2.re.right.left.right, Then(UspsPattern2.re.right.right, Done)), s, 0, true) == None;
    assert Match(UspsPrefix.right.right, Then(UspsPattern2.re.right.left.right, Then(UspsPattern2.re.right.right, Done)), s, 0, true) == None;
    assert Match(UspsPrefix.right, Then(UspsPattern2.re.right.left.right, Then(UspsPattern2.re.right.right, Done)), s, 0, true) == None;
    assert Match(UspsPrefix, Then(UspsPattern2.re.right.left.right, Then(UspsPattern2.re.right.right, Done)), s, 0, true) == None;
    assert Match(UspsPattern2.re.right.left, Then(UspsPattern2.re.right.right, Done), s, 0, true) == None;
  }

  lemma Usps2OnEmbeddedPart3(s: Bytes)
    requires SpellsEmbedded(s)
    ensures Match(UspsPattern2.re, Done, s, 0, true) == None
  {
    Usps2OnEmbeddedPart2(s);
    assert Match(UspsPattern2.re.left, Then(UspsPattern2.re.right, Done), s, 0, true) == None;
  }

  lemma Usps3OnEmbeddedPart1(s: Bytes)
    requires SpellsEmbedded(s)
    ensures Match(UspsPattern3.re, Done, s, 0, true) == None
  {
    assert Match(UspsPattern3.re.right.left.left.left, Then(UspsPattern3.re.right.left.left.right, Then(UspsPattern3.re.right.left.right, Then(UspsPattern3.re.right.right, Done))), s, 0, true) == None;
    assert Match(UspsPattern3.re.right.left.left, Then(UspsPattern3.re.right.left.right, Then(UspsPattern3.re.right.right, Done)), s, 0, true) == None;
    assert Match(UspsPattern3.re.right.left, Then(UspsPattern3.re.right.right, Done), s, 0, true) == None;
    assert Match(UspsPattern3.re.right, Done, s, 0, true) == None;
    assert Match(UspsPattern3.re.left, Then(UspsPattern3.re.right, Done), s, 0, true) == None;
  }

  lemma RoyalMailOnEmbeddedPart1(s: Bytes)
    requires SpellsEmbedded(s)
    ensures Match(RoyalMailReserved, Done, s, 0, true) == None
    ensures Match(RoyalMailPattern.re.right.right.left.body, Then(Rep(RoyalMailPattern.re.right.right.left.body, 0, 0), Then(RoyalMailPattern.re.right.right.right, Done)), s, 1, true) == None
  {
    assert Match(RoyalMailReserved.left.left, Then(RoyalMailReserved.left.right, Done), s, 0, true) == None;
    assert Match(RoyalMailReserved.left, Done, s, 0, true) == None;
    assert Match(RoyalMailReserved.right.left.left, Then(RoyalMailReserved.right.left.right, Done), s, 0, true) == None;
    assert Match(RoyalMailReserved.right.left, Done, s, 0, true) == None;
    assert Match(RoyalMailReserved.right.right.left.left, Then(RoyalMailReserved.right.right.left.right, Done), s, 0, true) == None;
    assert Match(RoyalMailReserved.right.right.left, Done, s, 0, true) == None;
    assert Match(RoyalMailReserved.right.right.right.left.left, Then(RoyalMailReserved.right.right.right.left.right, Done), s, 0, true) == None;
    assert Match(RoyalMailReserved.right.right.right.left, Done, s, 0, true) == None;
    assert Match(RoyalMailReserved.right.right.right.right.left.left, Then(RoyalMailReserved.right.right.right.right.left.right, Done), s, 0, true) == None;
    assert Match(RoyalMailReserved.right.right.right.right.left, Done, s, 0, true) == None;
    assert Match(RoyalMailReserved.right.right.right.right.right.left, Then(RoyalMailReserved.right.right.right.right.right.right, Done), s, 0, true) == None;
    assert Match(RoyalMailReserved.right.right.right.right.right, Done, s, 0, true) == None;
    assert Match(RoyalMailReserved.right.right.right.right, Done, s, 0, true) == None;
    assert Match(RoyalMailReserved.right.right.right, Done, s, 0, true) == None;
    assert Match(RoyalMailReserved.right.right, Done, s, 0, true) == None;
    assert Match(RoyalMailReserved.right, Done, s, 0, true) == None;
    assert Match(RoyalMailReserved, Done, s, 0, true) == None;
    assert Match(RoyalMailPattern.re.right.right.right.left.body, Then(Rep(RoyalMailPattern.re.right.right.right.left.body, 8, 8), Then(RoyalMailPattern.re.right.right.right.right, Done)), s, 2, true) == None;
    assert Match(RoyalMailPattern.re.right.right.right.left, Then(RoyalMailPattern.re.right.right.right.right, Done), s, 2, true) == None;
    assert Match(RoyalMailPattern.re.right.right.right, Done, s, 2, true) == None;
    assert Match(Rep(RoyalMailPattern.re.right.right.left.body, 0, 0), Then(RoyalMailPattern.re.right.right.right, Done), s, 2, true) == None;
    assert Match(RoyalMailPattern.re.right.right.left.body.left, Then(Rep(RoyalMailPattern.re.right.right.left.body, 0, 0), Then(RoyalMailPattern.re.right.right.right, Done)), s, 1, true) == None;
    assert Match(RoyalMailPattern.re.right.right.left.body.right, Then(Rep(RoyalMailPattern.re.right.right.left.body, 0, 0), Then(RoyalMailPattern.re.right.right.right, Done)), s, 1, true) == None;
  }

  lemma RoyalMailOnEmbeddedPart2(s: Bytes)
    requires SpellsEmbedded(s)
    ensures Match(RoyalMailPattern.re, Done, s, 0, true) == None
  {
    RoyalMailOnEmbeddedPart1(s);
    assert Match(Rep(RoyalMailPattern.re.right.right.left.body, 1, 1), Then(RoyalMailPattern.re.right.right.right, Done), s, 1, true) == None;
    assert Match(RoyalMailPattern.re.right.right.left.body.left, Then(Rep(RoyalMailPattern.re.right.right.left.body, 1, 1), Then(RoyalMailPattern.re.right.right.right, Done)), s, 0, true) == None;
    assert Match(RoyalMailPattern.re.right.right.left.body.right, Then(Rep(RoyalMailPattern.re.right.right.left.body, 1, 1), Then(RoyalMailPattern.re.right.right.right, Done)), s, 0, true) == None;
    assert Match(RoyalMailPattern.re.right.right.left.body, Then(Rep(RoyalMailPattern.re.right.right.left.body, 1, 1), Then(RoyalMailPattern.re.right.right.right, Done)), s, 0, true) == None;
    assert Match(RoyalMailPattern.re.right.right.left, Then(RoyalMailPattern.re.right.right.right, Done), s, 0, true) == None;
    assert Match(RoyalMailPattern.re.right.right, Done, s, 0, true) == None;
    assert Match(RoyalMailPattern.re.right.left, Then(RoyalMailPattern.re.right.right, Done), s, 0, true) == None;
    assert Match(RoyalMailPattern.re.right, Done, s, 0, true) == None;
    assert Match(RoyalMailPattern.re.left, Then(RoyalMailPattern.re.right, Done), s, 0, true) == None;
  }

  /** The UPS number with text on both sides: no pattern matches at its start. */
  lemma RunsOnEmbedded()
    ensures MatchAt(DhlPattern, NumEmbedded, 0) == None
    ensures MatchAt(FedExPattern, NumEmbedded, 0) == None
    ensures MatchAt(UpsPattern, NumEmbedded, 0) == None
    ensures MatchAt(UspsPattern1, NumEmbedded, 0) == None
    ensures MatchAt(UspsPattern2, NumEmbedded, 0) == None
    ensures MatchAt(UspsPattern3, NumEmbedded, 0) == None
    ensures MatchAt(RoyalMailPattern, NumEmbedded, 0) == None
  {
    NumEmbeddedSpelled();
    DhlOnEmbeddedPart1(NumEmbedded);
    FedExOnEmbeddedPart1(NumEmbedded);
    UpsOnEmbeddedPart1(NumEmbedded);
    Usps1OnEmbeddedPart2(NumEmbedded);
    Usps2OnEmbeddedPart3(NumEmbedded);
    Usps3OnEmbeddedPart1(NumEmbedded);
    RoyalMailOnEmbeddedPart2(NumEmbedded);
  }

  lemma DhlOnRoyalAbPart1(s: Bytes)
    requires SpellsRoyalAb(s)
    ensures Match(DhlPattern.re, Done, s, 0, true) == None
  {
    assert Match(Digit, Then(Rep(Digit, 3, 3), Then(DhlGrouped.right, Then(DhlPattern.re.right.right, Done))), s, 0, true) == None;
    assert Match(DhlGrouped.left, Then(DhlGrouped.right, Then(DhlPattern.re.right.right, Done)), s, 0, true) == None;
    assert Match(DhlGrouped, Then(DhlPattern.re.right.right, Done), s, 0, true) == None;
    assert Match(Digit, Then(Rep(Digit, 2, 2), Then(DhlLong.right, Then(DhlPattern.re.right.right, Done))), s, 0, true) == None;
    assert Match(DhlLong.left, Then(DhlLong.right, Then(DhlPattern.re.right.right, Done)), s, 0, true) == None;
    assert Match(DhlLong, Then(DhlPattern.re.right.right, Done), s, 0, true) == None;
    assert Match(Letter, Then(Rep(Letter, 0, 0), Then(DhlLettered.right, Then(DhlPattern.re.right.right, Done))), s, 2, true) == None;
    assert Match(Rep(Letter, 1, 1), Then(DhlLettered.right, Then(DhlPattern.re.right.right, Done)), s, 2, true) == None;
    assert Match(Letter, Then(Rep(Letter, 1, 1), Then(DhlLettered.right, Then(DhlPattern.re.right.right, Done))), s, 1, true) == None;
    assert Match(Rep(Letter, 2, 2), Then(DhlLettered.right, Then(DhlPattern.re.right.right, Done)), s, 1, true) == None;
    assert Match(Letter, Then(Rep(Letter, 2, 2), Then(DhlLettered.right, Then(DhlPattern.re.right.right, Done))), s, 0, true) == None;
    assert Match(DhlLettered.left, Then(DhlLettered.right, Then(DhlPattern.re.right.right, Done)), s, 0, true) == None;
    assert Match(DhlLettered, Then(DhlPattern.re.right.right, Done), s, 0, true) == None;
    assert Match(DhlPattern.re.right.left.right, Then(DhlPattern.re.right.right, Done), s, 0, true) == None;
    assert Match(DhlPattern.re.right.left, Then(DhlPattern.re.right.right, Done), s, 0, true) == None;
    assert Match(DhlPattern.re.right, Done, s, 0, true) == None;
    assert Match(DhlPattern.re.left, Then(DhlPattern.re.right, Done), s, 0, true) == None;
  }

  lemma FedExOnRoyalAbPart1(s: Bytes)
    requires SpellsRoyalAb(s)
    ensures Match(FedExPattern.re, Done, s, 0, true) == None
  {
    assert Match(FedExHead.left.left.left.left.left, Then(FedExHead.left.left.left.left.right, Then(FedExHead.left.left.left.right, Then(FedExHead.left.right, Then(FedExPattern.re.right.left.right, Then(FedExPattern.re.right.right, Done))))), s, 0, true) == None;
    assert Match(FedExHead.left.left.left.left, Then(FedExHead.left.left.left.right, Then(FedExHead.left.right, Then(FedExPattern.re.right.left.right, Then(FedExPattern.re.right.right, Done)))), s, 0, true) == None;
    assert Match(FedExHead.left.left.left, Then(FedExHead.left.right, Then(FedExPattern.re.right.left.right, Then(FedExPattern.re.right.right, Done))), s, 0, true) == None;
    assert Match(FedExHead.left.left.right.left, Then(Digit, Then(FedExHead.left.right, Then(FedExPattern.re.right.left.right, Then(FedExPattern.re.right.right, Done)))), s, 0, true) == None;
    assert Match(FedExHead.left.left.right, Then(FedExHead.left.right, Then(FedExPattern.re.right.left.right, Then(FedExPattern.re.right.right, Done))), s, 0, true) == None;
    assert Match(FedExHead.left.left, Then(FedExHead.left.right, Then(FedExPattern.re.right.left.right, Then(FedExPattern.re.right.right, Done))), s, 0, true) == None;
    assert Match(FedExHead.left, Then(FedExPattern.re.right.left.right, Then(FedExPattern.re.right.right, Done)), s, 0, true) == None;
    assert Match(FedExHead.right.left.left.left, Then(FedExHead.right.left.left.right, Then(FedExHead.right.left.right, Then(FedExPattern.re.right.left.right, Then(FedExPattern.re.right.right, Done)))), s, 0, true) == None;
    assert Match(FedExHead.right.left.left, Then(FedExHead.right.left.right, Then(FedExPattern.re.right.left.right, Then(FedExPattern.re.right.right, Done))), s, 0, true) == None;
    assert Match(FedExHead.right.left, Then(FedExPattern.re.right.left.right, Then(FedExPattern.re.right.right, Done)), s, 0, true) == None;
    assert Match(Digit, Then(Rep(Digit, 3, 3), Then(FedExPattern.re.right.left.right, Then(FedExPattern.re.right.right, Done))), s, 0, true) == None;
    assert Match(FedExHead.right.right, Then(FedExPattern.re.right.left.right, Then(FedExPattern.re.right.right, Done)), s, 0, true) == None;
    assert Match(FedExHead.right, Then(FedExPattern.re.right.left.right, Then(FedExPattern.re.right.right, Done)), s, 0, true) == None;
    assert Match(FedExHead, Then(FedExPattern.re.right.left.right, Then(FedExPattern.re.right.right, Done)), s, 0, true) == None;
    assert Match(FedExPattern.re.right.left, Then(FedExPattern.re.right.right, Done), s, 0, true) == None;
    assert Match(FedExPattern.re.right, Done, s, 0, true) == None;
    assert Match(FedExPattern.re.left, Then(FedExPattern.re.right, Done), s, 0, true) == None;
  }

  lemma UpsOnRoyalAbPart1(s: Bytes)
    requires SpellsRoyalAb(s)
    ensures Match(UpsPattern.re, Done, s, 0, true) == None
  {
    assert Match(Ups1Z.left.left, Then(Ups1Z.left.right, Then(Ups1Z.right, Then(UpsPattern.re.right.right, Done))), s, 0, true) == None;
    assert Match(Ups1Z.left, Then(Ups1Z.right, Then(UpsPattern.re.right.right, Done)), s, 0, true) == None;
    assert Match(Ups1Z, Then(UpsPattern.re.right.right, Done), s, 0, true) == None;
    assert Match(UpsT.left, Then(UpsT.right, Then(UpsPattern.re.right.right, Done)), s, 0, true) == None;
    assert Match(UpsT, Then(UpsPattern.re.right.right, Done), s, 0, true) == None;
    assert Match(UpsPattern.re.right.left, Then(UpsPattern.re.right.right, Done), s, 0, true) == None;
    assert Match(UpsPattern.re.right, Done, s, 0, true) == None;
    assert Match(UpsPattern.re.left, Then(UpsPattern.re.right, Done), s, 0, true) == None;
  }

  lemma Usps1OnRoyalAbPart1(s: Bytes)
    requires SpellsRoyalAb(s)
    ensures Match(UspsRouting, Then(Rep(UspsRouting, 0, 0), Then(UspsPattern1.re.right.left.right, Then(UspsPattern1.re.right.right, Done))), s, 0, true) == None
    ensures Match(UspsServiceCode.left, Then(UspsPattern1.re.right.left.right.right, Then(UspsPattern1.re.right.right, Done)), s, 0, true) == None
    ensures Match(UspsServiceCode.right.left, Then(UspsPattern1.re.right.left.right.right, Then(UspsPattern1.re.right.right, Done)), s, 0, true) == None
    ensures Match(UspsServiceCode.right.right.left, Then(UspsPattern1.re.right.left.right.right, Then(UspsPattern1.re.right.right, Done)), s, 0, true) == None
    ensures Match(UspsServiceCode.right.right.right.left, Then(UspsPattern1.re.right.left.right.right, Then(UspsPattern1.re.right.right, Done)), s, 0, true) == None
    ensures Match(UspsServiceCode.right.right.right.right.left, Then(UspsPattern1.re.right.left.right.right, Then(UspsPattern1.re.right.right, Done)), s, 0, true) == None
    ensures Match(UspsServiceCode.right.right.right.right.right.left, Then(UspsPattern1.re.right.left.right.right, Then(UspsPattern1.re.right.right, Done)), s, 0, true) == None
    ensures Match(UspsServiceCode.right.right.right.right.right.right.left, Then(UspsPattern1.re.right.left.right.right, Then(UspsPattern1.re.right.right, Done)), s, 0, true) == None
    ensures Match(UspsServiceCode.right.right.right.right.right.right.right, Then(UspsPattern1.re.right.left.right.right, Then(UspsPattern1.re.right.right, Done)), s, 0, true) == None
  {
    assert Match(UspsRouting.left, Then(UspsRouting.right, Then(Rep(UspsRouting, 0, 0), Then(UspsPattern1.re.right.left.right, Then(UspsPattern1.re.right.right, Done)))), s, 0, true) == None;
    assert Match(UspsRouting, Then(Rep(UspsRouting, 0, 0), Then(UspsPattern1.re.right.left.right, Then(UspsPattern1.re.right.right, Done))), s, 0, true) == None;
    assert Match(UspsServiceCode.left.left, Then(UspsServiceCode.left.right, Then(UspsPattern1.re.right.left.right.right, Then(UspsPattern1.re.right.right, Done))), s, 0, true) == None;
    assert Match(UspsServiceCode.left, Then(UspsPattern1.re.right.left.right.right, Then(UspsPattern1.re.right.right, Done)), s, 0, true) == None;
    assert Match(UspsServiceCode.right.left.left, Then(UspsServiceCode.right.left.right, Then(UspsPattern1.re.right.left.right.right, Then(UspsPattern1.re.right.right, Done))), s, 0, true) == None;
    assert Match(UspsServiceCode.right.left, Then(UspsPattern1.re.right.left.right.right, Then(UspsPattern1.re.right.right, Done)), s, 0, true) == None;
    assert Match(UspsServiceCode.right.right.left.left, Then(UspsServiceCode.right.right.left.right, Then(UspsPattern1.re.right.left.right.right, Then(UspsPattern1.re.right.right, Done))), s, 0, true) == None;
    assert Match(UspsServiceCode.right.right.left, Then(UspsPattern1.re.right.left.right.right, Then(UspsPattern1.re.right.right, Done)), s, 0, true) == None;
    assert Match(UspsServiceCode.right.right.right.left.left, Then(UspsServiceCode.right.right.right.left.right, Then(UspsPattern1.re.right.left.right.right, Then(UspsPattern1.re.right.right, Done))), s, 0, true) == None;
    assert Match(UspsServiceCode.right.right.right.left, Then(UspsPattern1.re.right.left.right.right, Then(UspsPattern1.re.right.right, Done)), s, 0, true) == None;
    assert Match(UspsServiceCode.right.right.right.right.left.left, Then(UspsServiceCode.right.right.right.right.left.right, Then(UspsPattern1.re.right.left.right.right, Then(UspsPattern1.re.right.right, Done))), s, 0, true) == None;
    assert Match(UspsServiceCode.right.right.right.right.left, Then(UspsPattern1.re.right.left.right.right, Then(UspsPattern1.re.right.right, Done)), s, 0, true) == None;
    assert Match(UspsServiceCode.right.right.right.right.right.left.left, Then(UspsServiceCode.right.right.right.right.right.left.right, Then(UspsPattern1.re.right.left.right.right, Then(UspsPattern1.re.right.right, Done))), s, 0, true) == None;
    assert Match(UspsServiceCode.right.right.right.right.right.left, Then(UspsPattern1.re.right.left.right.right, Then(UspsPattern1.re.right.right, Done)), s, 0, true) == None;
    assert Match(UspsServiceCode.right.right.right.right.right.right.left.left, Then(UspsServiceCode.right.right.right.right.right.right.left.right, Then(UspsPattern1.re.right.left.right.right, Then(UspsPattern1.re.right.right, Done))), s, 0, true) == None;
    assert Match(UspsServiceCode.right.right.right.right.right.right.left, Then(UspsPattern1.re.right.left.right.right, Then(UspsPattern1.re.right.right, Done)), s, 0, true) == None;
    assert Match(UspsServiceCode.right.right.right.right.right.right.right.left.left, Then(UspsServiceCode.right.right.right.right.right.right.right.left.right, Then(UspsPattern1.re.right.left.right.right, Then(UspsPattern1.re.right.right, Done))), s, 0, true) == None;
    assert Match(UspsServiceCode.right.right.right.right.right.right.right.left, Then(UspsPattern1.re.right.left.right.right, Then(UspsPattern1.re.right.right, Done)), s, 0, true) == None;
    assert Match(UspsServiceCode.right.right.right.right.right.right.right.right.left.left, Then(UspsServiceCode.right.right.right.right.right.right.right.right.left.right, Then(UspsPattern1.re.right.left.right.right, Then(UspsPattern1.re.right.right, Done))), s, 0, true) == None;
    assert Match(UspsServiceCode.right.right.right.right.right.right.right.right.left, Then(UspsPattern1.re.right.left.right.right, Then(UspsPattern1.re.right.right, Done)), s, 0, true) == None;
    assert Match(UspsServiceCode.right.right.right.right.right.right.right.right.right.left, Then(UspsServiceCode.right.right.right.right.right.right.right.right.right.right, Then(UspsPattern1.re.right.left.right.right, Then(UspsPattern1.re.right.right, Done))), s, 0, true) == None;
    assert Match(UspsServiceCode.right.right.right.right.right.right.right.right.right, Then(UspsPattern1.re.right.left.right.right, Then(UspsPattern1.re.right.right, Done)), s, 0, true) == None;
    assert Match(UspsServiceCode.right.right.right.right.right.right.right.right, Then(UspsPattern1.re.right.left.right.right, Then(UspsPattern1.re.right.right, Done)), s, 0, true) == None;
  }

  lemma Usps1OnRoyalAbPart2(s: Bytes)
    requires SpellsRoyalAb(s)
    ensures Match(UspsPattern1.re, Done, s, 0, true) == None
  {
    Usps1OnRoyalAbPart1(s);
    assert Match(UspsServiceCode.right.right.right.right.right.right, Then(UspsPattern1.re.right.left.right.right, Then(UspsPattern1.re.right.right, Done)), s, 0, true) == None;
    assert Match(UspsServiceCode.right.right.right.right.right, Then(UspsPattern1.re.right.left.right.right, Then(UspsPattern1.re.right.right, Done)), s, 0, true) == None;
    assert Match(UspsServiceCode.right.right.right.right, Then(UspsPattern1.re.right.left.right.right, Then(UspsPattern1.re.right.right, Done)), s, 0, true) == None;
    assert Match(UspsServiceCode.right.right.right, Then(UspsPattern1.re.right.left.right.right, Then(UspsPattern1.re.right.right, Done)), s, 0, true) == None;
    assert Match(UspsServiceCode.right.right, Then(UspsPattern1.re.right.left.right.right, Then(UspsPattern1.re.right.right, Done)), s, 0, true) == None;
    assert Match(UspsServiceCode.right, Then(UspsPattern1.re.right.left.right.right, Then(UspsPattern1.re.right.right, Done)), s, 0, true) == None;
    assert Match(UspsServiceCode, Then(UspsPattern1.re.right.left.right.right, Then(UspsPattern1.re.right.right, Done)), s, 0, true) == None;
    assert Match(UspsPattern1.re.right.left.right, Then(UspsPattern1.re.right.right, Done), s, 0, true) == None;
    assert Match(UspsPattern1.re.right.left.left, Then(UspsPattern1.re.right.left.right, Then(UspsPattern1.re.right.right, Done)), s, 0, true) == None;
    assert Match(UspsPattern1.re.right.left, Then(UspsPattern1.re.right.right, Done), s, 0, true) == None;
    assert Match(UspsPattern1.re.right, Done, s, 0, true) == None;
    assert Match(UspsPattern1.re.left, Then(UspsPattern1.re.right, Done), s, 0, true) == None;
  }

  lemma Usps2OnRoyalAbPart1(s: Bytes)
    requires SpellsRoyalAb(s)
    ensures Match(UspsPrefix.left, Then(UspsPattern2.re.right.left.right, Then(UspsPattern2.re.right.right, Done)), s, 0, true) == None
    ensures Match(UspsPrefix.right.left, Then(UspsPattern2.re.right.left.right, Then(UspsPattern2.re.right.right, Done)), s, 0, true) == None
    ensures Match(UspsPrefix.right.right.left, Then(UspsPattern2.re.right.left.right, Then(UspsPattern2.re.right.right, Done)), s, 0, true) == None
    ensures Match(UspsPrefix.right.right.right.left, Then(UspsPattern2.re.right.left.right, Then(UspsPattern2.re.right.right, Done)), s, 0, true) == None
    ensures Match(UspsPrefix.right.right.right.right.left, Then(UspsPattern2.re.right.left.right, Then(UspsPattern2.re.right.right, Done)), s, 0, true) == None
    ensures Match(UspsPrefix.right.right.right.right.right.left, Then(UspsPattern2.re.right.left.right, Then(UspsPattern2.re.right.right, Done)), s, 0, true) == None
    ensures Match(UspsPrefix.right.right.right.right.right.right.left, Then(UspsPattern2.re.right.left.right, Then(UspsPattern2.re.right.right, Done)), s, 0, true) == None
    ensures Match(UspsPrefix.right.right.right.right.right.right.right, Then(UspsPattern2.re.right.left.right, Then(UspsPattern2.re.right.right, Done)), s, 0, true) == None
  {
    assert Match(UspsPrefix.left, Then(UspsPattern2.re.right.left.right, Then(UspsPattern2.re.right.right, Done)), s, 0, true) == None;
    assert Match(UspsPrefix.right.left.left, Then(UspsPrefix.right.left.right, Then(UspsPattern2.re.right.left.right, Then(UspsPattern2.re.right.right, Done))), s, 0, true) == None;
    assert Match(UspsPrefix.right.left, Then(UspsPattern2.re.right.left.right, Then(UspsPattern2.re.right.right, Done)), s, 0, true) == None;
    assert Match(UspsPrefix.right.right.left.left, Then(UspsPrefix.right.right.left.right, Then(UspsPattern2.re.right.left.right, Then(UspsPattern2.re.right.right, Done))), s, 0, true) == None;
    assert Match(UspsPrefix.right.right.left, Then(UspsPattern2.re.right.left.right, Then(UspsPattern2.re.right.right, Done)), s, 0, true) == None;
    assert Match(UspsPrefix.right.right.right.left.left, Then(UspsPrefix.right.right.right.left.right, Then(UspsPattern2.re.right.left.right, Then(UspsPattern2.re.right.right, Done))), s, 0, true) == None;
    assert Match(UspsPrefix.right.right.right.left, Then(UspsPattern2.re.right.left.right, Then(UspsPattern2.re.right.right, Done)), s, 0, true) == None;
    assert Match(UspsPrefix.right.right.right.right.left.left, Then(UspsPrefix.right.right.right.right.left.right, Then(UspsPattern2.re.right.left.right, Then(UspsPattern2.re.right.right, Done))), s, 0, true) == None;
    assert Match(UspsPrefix.right.right.right.right.left, Then(UspsPattern2.re.right.left.right, Then(UspsPattern2.re.right.right, Done)), s, 0, true) == None;
    assert Match(UspsPrefix.right.right.right.right.right.left.left, Then(Letter, Then(UspsPattern2.re.right.left.right, Then(UspsPattern2.re.right.right, Done))), s, 0, true) == None;
    assert Match(UspsPrefix.right.right.right.right.right.left, Then(UspsPattern2.re.right.left.right, Then(UspsPattern2.re.right.right, Done)), s, 0, true) == None;
    assert Match(UspsPrefix.right.right.right.right.right.right.left.left, Then(Letter, Then(UspsPattern2.re.right.left.right, Then(UspsPattern2.re.right.right, Done))), s, 0, true) == None;
    assert Match(UspsPrefix.right.right.right.right.right.right.left, Then(UspsPattern2.re.right.left.right, Then(UspsPattern2.re.right.right, Done)), s, 0, true) == None;
    assert Match(UspsPrefix.right.right.right.right.right.right.right.left.left, Then(UspsPrefix.right.right.right.right.right.right.right.left.right, Then(UspsPattern2.re.right.left.right, Then(UspsPattern2.re.right.right, Done))), s, 0, true) == None;
    assert Match(UspsPrefix.right.right.right.right.right.right.right.left, Then(UspsPattern2.re.right.left.right, Then(UspsPattern2.re.right.right, Done)), s, 0, true) == None;
    assert Match(UspsPrefix.right.right.right.right.right.right.right.right.left.left, Then(UspsPrefix.right.right.right.right.right.right.right.right.left.right, Then(UspsPattern2.re.right.left.right, Then(UspsPattern2.re.right.right, Done))), s, 0, true) == None;
    assert Match(UspsPrefix.right.right.right.right.right.right.right.right.left, Then(UspsPattern2.re.right.left.right, Then(UspsPattern2.re.right.right, Done)), s, 0, true) == None;
    assert Match(UspsPrefix.right.right.right.right.right.right.right.right.right.left.left, Then(UspsPrefix.right.right.right.right.right.right.right.right.right.left.right, Then(UspsPattern2.re.right.left.right, Then(UspsPattern2.re.right.right, Done))), s, 0, true) == None;
    assert Match(UspsPrefix.right.right.right.right.right.right.right.right.right.left, Then(UspsPattern2.re.right.left.right, Then(UspsPattern2.re.right.right, Done)), s, 0, true) == None;
    assert Match(UspsPrefix.right.right.right.right.right.right.right.right.right.right.left, Then(UspsPrefix.right.right.right.right.right.right.right.right.right.right.right, Then(UspsPattern2.re.right.left.right, Then(UspsPattern2.re.right.right, Done))), s, 0, true) == None;
    assert Match(UspsPrefix.right.right.right.right.right.right.right.right.right.right, Then(UspsPattern2.re.right.left.right, Then(UspsPattern2.re.right.right, Done)), s, 0, true) == None;
    assert Match(UspsPrefix.right.right.right.right.right.right.right.right.right, Then(UspsPattern2.re.right.left.right, Then(UspsPattern2.re.right.right, Done)), s, 0, true) == None;
    assert Match(UspsPrefix.right.right.right.right.right.right.right.right, Then(UspsPattern2.re.right.left.right, Then(UspsPattern2.re.right.right, Done)), s, 0, true) == None;
  }

  lemma Usps2OnRoyalAbPart2(s: Bytes)
    requires SpellsRoyalAb(s)
    ensures Match(UspsPattern2.re, Done, s, 0, true) == None
  {
    Usps2OnRoyalAbPart1(s);
    assert Match(UspsPrefix.right.right.right.right.right.right, Then(UspsPattern2.re.right.left.right, Then(UspsPattern2.re.right.right, Done)), s, 0, true) == None;
    assert Match(UspsPrefix.right.right.right.right.right, Then(UspsPattern2.re.right.left.right, Then(UspsPattern2.re.right.right, Done)), s, 0, true) == None;
    assert Match(UspsPrefix.right.right.right.right, Then(UspsPattern2.re.right.left.right, Then(UspsPattern2.re.right.right, Done)), s, 0, true) == None;
    assert Match(UspsPrefix.right.right.right, Then(UspsPattern2.re.right.left.right, Then(UspsPattern2.re.right.right, Done)), s, 0, true) == None;
    assert Match(UspsPrefix.right.right, Then(UspsPattern2.re.right.left.right, Then(UspsPattern2.re.right.right, Done)), s, 0, true) == None;
    assert Match(UspsPrefix.right, Then(UspsPattern2.re.right.left.right, Then(UspsPattern2.re.right.right, Done)), s, 0, true) == None;
    assert Match(UspsPrefix, Then(UspsPattern2.re.right.left.right, Then(UspsPattern2.re.right.right, Done)), s, 0, true) == None;
    assert Match(UspsPattern2.re.right.left, Then(UspsPattern2.re.right.right, Done), s, 0, true) == None;
    assert Match(UspsPattern2.re.right, Done, s, 0, true) == None;
    assert Match(UspsPattern2.re.left, Then(UspsPattern2.re.right, Done), s, 0, true) == None;
  }

  lemma Usps3OnRoyalAbPart1(s: Bytes)
    requires SpellsRoyalAb(s)
    ensures Match(UspsPattern3.re, Done, s, 0, true) == None
  {
    assert Match(UspsPattern3.re.right.left.left.left, Then(UspsPattern3.re.right.left.left.right, Then(UspsPattern3.re.right.left.right, Then(UspsPattern3.re.right.right, Done))), s, 0, true) == None;
    assert Match(UspsPattern3.re.right.left.left, Then(UspsPattern3.re.right.left.right, Then(UspsPattern3.re.right.right, Done)), s, 0, true) == None;
    assert Match(UspsPattern3.re.right.left, Then(UspsPattern3.re.right.right, Done), s, 0, true) == None;
    assert Match(UspsPattern3.re.right, Done, s, 0, true) == None;
    assert Match(UspsPattern3.re.left, Then(UspsPattern3.re.right, Done), s, 0, true) == None;
  }

  /** A Royal Mail number: none of the six patterns before Royal Mail matches at its start. */
  lemma RunsOnRoyalAb()
    ensures MatchAt(DhlPattern, NumRoyalAb, 0) == None
    ensures MatchAt(FedExPattern, NumRoyalAb, 0) == None
    ensures MatchAt(UpsPattern, NumRoyalAb, 0) == None
    ensures MatchAt(UspsPattern1, NumRoyalAb, 0) == None
    ensures MatchAt(UspsPattern2, NumRoyalAb, 0) == None
    ensures MatchAt(UspsPattern3, NumRoyalAb, 0) == None
  {
    NumRoyalAbSpelled();
    DhlOnRoyalAbPart1(NumRoyalAb);
    FedExOnRoyalAbPart1(NumRoyalAb);
    UpsOnRoyalAbPart1(NumRoyalAb);
    Usps1OnRoyalAbPart2(NumRoyalAb);
    Usps2OnRoyalAbPart2(NumRoyalAb);
    Usps3OnRoyalAbPart1(NumRoyalAb);
  }

  lemma DhlOnRoyalEePart1(s: Bytes)
    requires SpellsRoyalEe(s)
    ensures Match(DhlPattern.re, Done, s, 0, true) == None
  {
    assert Match(Digit, Then(Rep(Digit, 3, 3), Then(DhlGrouped.right, Then(DhlPattern.re.right.right, Done))), s, 0, true) == None;
    assert Match(DhlGrouped.left, Then(DhlGrouped.right, Then(DhlPattern.re.right.right, Done)), s, 0, true) == None;
    assert Match(DhlGrouped, Then(DhlPattern.re.right.right, Done), s, 0, true) == None;
    assert Match(Digit, Then(Rep(Digit, 2, 2), Then(DhlLong.right, Then(DhlPattern.re.right.right, Done))), s, 0, true) == None;
    assert Match(DhlLong.left, Then(DhlLong.right, Then(DhlPattern.re.right.right, Done)), s, 0, true) == None;
    assert Match(DhlLong, Then(DhlPattern.re.right.right, Done), s, 0, true) == None;
    assert Match(Letter, Then(Rep(Letter, 0, 0), Then(DhlLettered.right, Then(DhlPattern.re.right.right, Done))), s, 2, true) == None;
    assert Match(Rep(Letter, 1, 1), Then(DhlLettered.right, Then(DhlPattern.re.right.right, Done)), s, 2, true) == None;
    assert Match(Letter, Then(Rep(Letter, 1, 1), Then(DhlLettered.right, Then(DhlPattern.re.right.right, Done))), s, 1, true) == None;
    assert Match(Rep(Letter, 2, 2), Then(DhlLettered.right, Then(DhlPattern.re.right.right, Done)), s, 1, true) == None;
    assert Match(Letter, Then(Rep(Letter, 2, 2), Then(DhlLettered.right, Then(DhlPattern.re.right.right, Done))), s, 0, true) == None;
    assert Match(DhlLettered.left, Then(DhlLettered.right, Then(DhlPattern.re.right.right, Done)), s, 0, true) == None;
    assert Match(DhlLettered, Then(DhlPattern.re.right.right, Done), s, 0, true) == None;
    assert Match(DhlPattern.re.right.left.right, Then(DhlPattern.re.right.right, Done), s, 0, true) == None;
    assert Match(DhlPattern.re.right.left, Then(DhlPattern.re.right.right, Done), s, 0, true) == None;
    assert Match(DhlPattern.re.right, Done, s, 0, true) == None;
    assert Match(DhlPattern.re.left, Then(DhlPattern.re.right, Done), s, 0, true) == None;
  }

  lemma FedExOnRoyalEePart1(s: Bytes)
    requires SpellsRoyalEe(s)
    ensures Match(FedExPattern.re, Done, s, 0, true) == None
  {
    assert Match(FedExHead.left.left.left.left.left, Then(FedExHead.left.left.left.left.right, Then(FedExHead.left.left.left.right, Then(FedExHead.left.right, Then(FedExPattern.re.right.left.right, Then(FedExPattern.re.right.right, Done))))), s, 0, true) == None;
    assert Match(FedExHead.left.left.left.left, Then(FedExHead.left.left.left.right, Then(FedExHead.left.right, Then(FedExPattern.re.right.left.right, Then(FedExPattern.re.right.right, Done)))), s, 0, true) == None;
    assert Match(FedExHead.left.left.left, Then(FedExHead.left.right, Then(FedExPattern.re.right.left.right, Then(FedExPattern.re.right.right, Done))), s, 0, true) == None;
    assert Match(FedExHead.left.left.right.left, Then(Digit, Then(FedExHead.left.right, Then(FedExPattern.re.right.left.right, Then(FedExPattern.re.right.right, Done)))), s, 0, true) == None;
    assert Match(FedExHead.left.left.right, Then(FedExHead.left.right, Then(FedExPattern.re.right.left.right, Then(FedExPattern.re.right.right, Done))), s, 0, true) == None;
    assert Match(FedExHead.left.left, Then(FedExHead.left.right, Then(FedExPattern.re.right.left.right, Then(FedExPattern.re.right.right, Done))), s, 0, true) == None;
    assert Match(FedExHead.left, Then(FedExPattern.re.right.left.right, Then(FedExPattern.re.right.right, Done)), s, 0, true) == None;
    assert Match(FedExHead.right.left.left.left, Then(FedExHead.right.left.left.right, Then(FedExHead.right.left.right, Then(FedExPattern.re.right.left.right, Then(FedExPattern.re.right.right, Done)))), s, 0, true) == None;
    assert Match(FedExHead.right.left.left, Then(FedExHead.right.left.right, Then(FedExPattern.re.right.left.right, Then(FedExPattern.re.right.right, Done))), s, 0, true) == None;
    assert Match(FedExHead.right.left, Then(FedExPattern.re.right.left.right, Then(FedExPattern.re.right.right, Done)), s, 0, true) == None;
    assert Match(Digit, Then(Rep(Digit, 3, 3), Then(FedExPattern.re.right.left.right, Then(FedExPattern.re.right.right, Done))), s, 0, true) == None;
    assert Match(FedExHead.right.right, Then(FedExPattern.re.right.left.right, Then(FedExPattern.re.right.right, Done)), s, 0, true) == None;
    assert Match(FedExHead.right, Then(FedExPattern.re.right.left.right, Then(FedExPattern.re.right.right, Done)), s, 0, true) == None;
    assert Match(FedExHead, Then(FedExPattern.re.right.left.right, Then(FedExPattern.re.right.right, Done)), s, 0, true) == None;
    assert Match(FedExPattern.re.right.left, Then(FedExPattern.re.right.right, Done), s, 0, true) == None;
    assert Match(FedExPattern.re.right, Done, s, 0, true) == None;
    assert Match(FedExPattern.re.left, Then(FedExPattern.re.right, Done), s, 0, true) == None;
  }

  lemma UpsOnRoyalEePart1(s: Bytes)
    requires SpellsRoyalEe(s)
    ensures Match(UpsPattern.re, Done, s, 0, true) == None
  {
    assert Match(Ups1Z.left.left, Then(Ups1Z.left.right, Then(Ups1Z.right, Then(UpsPattern.re.right.right, Done))), s, 0, true) == None;
    assert Match(Ups1Z.left, Then(Ups1Z.right, Then(UpsPattern.re.right.right, Done)), s, 0, true) == None;
    assert Match(Ups1Z, Then(UpsPattern.re.right.right, Done), s, 0, true) == None;
    assert Match(UpsT.left, Then(UpsT.right, Then(UpsPattern.re.right.right, Done)), s, 0, true) == None;
    assert Match(UpsT, Then(UpsPattern.re.right.right, Done), s, 0, true) == None;
    assert Match(UpsPattern.re.right.left, Then(UpsPattern.re.right.right, Done), s, 0, true) == None;
    assert Match(UpsPattern.re.right, Done, s, 0, true) == None;
    assert Match(UpsPattern.re.left, Then(UpsPattern.re.right, Done), s, 0, true) == None;
  }

  lemma Usps1OnRoyalEePart1(s: Bytes)
    requires SpellsRoyalEe(s)
    ensures Match(UspsRouting, Then(Rep(UspsRouting, 0, 0), Then(UspsPattern1.re.right.left.right, Then(UspsPattern1.re.right.right, Done))), s, 0, true) == None
    ensures Match(UspsServiceCode.left, Then(UspsPattern1.re.right.left.right.right, Then(UspsPattern1.re.right.right, Done)), s, 0, true) == None
    ensures Match(UspsServiceCode.right.left, Then(UspsPattern1.re.right.left.right.right, Then(UspsPattern1.re.right.right, Done)), s, 0, true) == None
    ensures Match(UspsServiceCode.right.right.left, Then(UspsPattern1.re.right.left.right.right, Then(UspsPattern1.re.right.right, Done)), s, 0, true) == None
    ensures Match(UspsServiceCode.right.right.right.left, Then(UspsPattern1.re.right.left.right.right, Then(UspsPattern1.re.right.right, Done)), s, 0, true) == None
    ensures Match(UspsServiceCode.right.right.right.right.left, Then(UspsPattern1.re.right.left.right.right, Then(UspsPattern1.re.right.right, Done)), s, 0, true) == None
    ensures Match(UspsServiceCode.right.right.right.right.right.left, Then(UspsPattern1.re.right.left.right.right, Then(UspsPattern1.re.right.right, Done)), s, 0, true) == None
    ensures Match(UspsServiceCode.right.right.right.right.right.right.left, Then(UspsPattern1.re.right.left.right.right, Then(UspsPattern1.re.right.right, Done)), s, 0, true) == None
    ensures Match(UspsServiceCode.right.right.right.right.right.right.right, Then(UspsPattern1.re.right.left.right.right, Then(UspsPattern1.re.right.right, Done)), s, 0, true) == None
  {
    assert Match(UspsRouting.left, Then(UspsRouting.right, Then(Rep(UspsRouting, 0, 0), Then(UspsPattern1.re.right.left.right, Then(UspsPattern1.re.right.right, Done)))), s, 0, true) == None;
    assert Match(UspsRouting, Then(Rep(UspsRouting, 0, 0), Then(UspsPattern1.re.right.left.right, Then(UspsPattern1.re.right.right, Done))), s, 0, true) == None;
    assert Match(UspsServiceCode.left.left, Then(UspsServiceCode.left.right, Then(UspsPattern1.re.right.left.right.right, Then(UspsPattern1.re.right.right, Done))), s, 0, true) == None;
    assert Match(UspsServiceCode.left, Then(UspsPattern1.re.right.left.right.right, Then(UspsPattern1.re.right.right, Done)), s, 0, true) == None;
    assert Match(UspsServiceCode.right.left.left, Then(UspsServiceCode.right.left.right, Then(UspsPattern1.re.right.left.right.right, Then(UspsPattern1.re.right.right, Done))), s, 0, true) == None;
    assert Match(UspsServiceCode.right.left, Then(UspsPattern1.re.right.left.right.right, Then(UspsPattern1.re.right.right, Done)), s, 0, true) == None;
    assert Match(UspsServiceCode.right.right.left.left, Then(UspsServiceCode.right.right.left.right, Then(UspsPattern1.re.right.left.right.right, Then(UspsPattern1.re.right.right, Done))), s, 0, true) == None;
    assert Match(UspsServiceCode.right.right.left, Then(UspsPattern1.re.right.left.right.right, Then(UspsPattern1.re.right.right, Done)), s, 0, true) == None;
    assert Match(UspsServiceCode.right.right.right.left.left, Then(UspsServiceCode.right.right.right.left.right, Then(UspsPattern1.re.right.left.right.right, Then(UspsPattern1.re.right.right, Done))), s, 0, true) == None;
    assert Match(UspsServiceCode.right.right.right.left, Then(UspsPattern1.re.right.left.right.right, Then(UspsPattern1.re.right.right, Done)), s, 0, true) == None;
    assert Match(UspsServiceCode.right.right.right.right.left.left, Then(UspsServiceCode.right.right.right.right.left.right, Then(UspsPattern1.re.right.left.right.right, Then(UspsPattern1.re.right.right, Done))), s, 0, true) == None;
    assert Match(UspsServiceCode.right.right.right.right.left, Then(UspsPattern1.re.right.left.right.right, Then(UspsPattern1.re.right.right, Done)), s, 0, true) == None;
    assert Match(UspsServiceCode.right.right.right.right.right.left.left, Then(UspsServiceCode.right.right.right.right.right.left.right, Then(UspsPattern1.re.right.left.right.right, Then(UspsPattern1.re.right.right, Done))), s, 0, true) == None;
    assert Match(UspsServiceCode.right.right.right.right.right.left, Then(UspsPattern1.re.right.left.right.right, Then(UspsPattern1.re.right.right, Done)), s, 0, true) == None;
    assert Match(UspsServiceCode.right.right.right.right.right.right.left.left, Then(UspsServiceCode.right.right.right.right.right.right.left.right, Then(UspsPattern1.re.right.left.right.right, Then(UspsPattern1.re.right.right, Done))), s, 0, true) == None;
    assert Match(UspsServiceCode.right.right.right.right.right.right.left, Then(UspsPattern1.re.right.left.right.right, Then(UspsPattern1.re.right.right, Done)), s, 0, true) == None;
    assert Match(UspsServiceCode.right.right.right.right.right.right.right.left.left, Then(UspsServiceCode.right.right.right.right.right.right.right.left.right, Then(UspsPattern1.re.right.left.right.right, Then(UspsPattern1.re.right.right, Done))), s, 0, true) == None;
    assert Match(UspsServiceCode.right.right.right.right.right.right.right.left, Then(UspsPattern1.re.right.left.right.right, Then(UspsPattern1.re.right.right, Done)), s, 0, true) == None;
    assert Match(UspsServiceCode.right.right.right.right.right.right.right.right.left.left, Then(UspsServiceCode.right.right.right.right.right.right.right.right.left.right, Then(UspsPattern1.re.right.left.right.right, Then(UspsPattern1.re.right.right, Done))), s, 0, true) == None;
    assert Match(UspsServiceCode.right.right.right.right.right.right.right.right.left, Then(UspsPattern1.re.right.left.right.right, Then(UspsPattern1.re.right.right, Done)), s, 0, true) == None;
    assert Match(UspsServiceCode.right.right.right.right.right.right.right.right.right.left, Then(UspsServiceCode.right.right.right.right.right.right.right.right.right.right, Then(UspsPattern1.re.right.left.right.right, Then(UspsPattern1.re.right.right, Done))), s, 0, true) == None;
    assert Match(UspsServiceCode.right.right.right.right.right.right.right.right.right, Then(UspsPattern1.re.right.left.right.right, Then(UspsPattern1.re.right.right, Done)), s, 0, true) == None;
    assert Match(UspsServiceCode.right.right.right.right.right.right.right.right, Then(UspsPattern1.re.right.left.right.right, Then(UspsPattern1.re.right.right, Done)), s, 0, true) == None;
  }

  lemma Usps1OnRoyalEePart2(s: Bytes)
    requires SpellsRoyalEe(s)
    ensures Match(UspsPattern1.re, Done, s, 0, true) == None
  {
    Usps1OnRoyalEePart1(s);
    assert Match(UspsServiceCode.right.right.right.right.right.right, Then(UspsPattern1.re.right.left.right.right, Then(UspsPattern1.re.right.right, Done)), s, 0, true) == None;
    assert Match(UspsServiceCode.right.right.right.right.right, Then(UspsPattern1.re.right.left.right.right, Then(UspsPattern1.re.right.right, Done)), s, 0, true) == None;
    assert Match(UspsServiceCode.right.right.right.right, Then(UspsPattern1.re.right.left.right.right, Then(UspsPattern1.re.right.right, Done)), s, 0, true) == None;
    assert Match(UspsServiceCode.right.right.right, Then(UspsPattern1.re.right.left.right.right, Then(UspsPattern1.re.right.right, Done)), s, 0, true) == None;
    assert Match(UspsServiceCode.right.right, Then(UspsPattern1.re.right.left.right.right, Then(UspsPattern1.re.right.right, Done)), s, 0, true) == None;
    assert Match(UspsServiceCode.right, Then(UspsPattern1.re.right.left.right.right, Then(UspsPattern1.re.right.right, Done)), s, 0, true) == None;
    assert Match(UspsServiceCode, Then(UspsPattern1.re.right.left.right.right, Then(UspsPattern1.re.right.right, Done)), s, 0, true) == None;
    assert Match(UspsPattern1.re.right.left.right, Then(UspsPattern1.re.right.right, Done), s, 0, true) == None;
    assert Match(UspsPattern1.re.right.left.left, Then(UspsPattern1.re.right.left.right, Then(UspsPattern1.re.right.right, Done)), s, 0, true) == None;
    assert Match(UspsPattern1.re.right.left, Then(UspsPattern1.re.right.right, Done), s, 0, true) == None;
    assert Match(UspsPattern1.re.right, Done, s, 0, true) == None;
    assert Match(UspsPattern1.re.left, Then(UspsPattern1.re.right, Done), s, 0, true) == None;
  }

  lemma Usps2OnRoyalEePart1(s: Bytes)
    requires SpellsRoyalEe(s)
    ensures Match(UspsPrefix.left, Then(UspsPattern2.re.right.left.right, Then(UspsPattern2.re.right.right, Done)), s, 0, true) == None
    ensures Match(UspsPrefix.right.left, Then(UspsPattern2.re.right.left.right, Then(UspsPattern2.re.right.right, Done)), s, 0, true) == None
    ensures Match(UspsPrefix.right.right.left, Then(UspsPattern2.re.right.left.right, Then(UspsPattern2.re.right.right, Done)), s, 0, true) == None
    ensures Match(UspsPrefix.right.right.right.left, Then(UspsPattern2.re.right.left.right, Then(UspsPattern2.re.right.right, Done)), s, 0, true) == None
    ensures Match(UspsPrefix.right.right.right.right.left, Then(UspsPattern2.re.right.left.right, Then(UspsPattern2.re.right.right, Done)), s, 0, true) == None
    ensures Match(UspsPrefix.right.right.right.right.right.left, Then(UspsPattern2.re.right.left.right, Then(UspsPattern2.re.right.right, Done)), s, 0, true) == None
    ensures Match(UspsPrefix.right.right.right.right.right.right.left, Then(UspsPattern2.re.right.left.right, Then(UspsPattern2.re.right.right, Done)), s, 0, true) == None
    ensures Match(UspsPrefix.right.right.right.right.right.right.right.left, Then(UspsPattern2.re.right.left.right, Then(UspsPattern2.re.right.right, Done)), s, 0, true) == None
    ensures Match(UspsPrefix.right.right.right.right.right.right.right.right, Then(UspsPattern2.re.right.left.right, Then(UspsPattern2.re.right.right, Done)), s, 0, true) == None
  {
    assert Match(UspsPrefix.left, Then(UspsPattern2.re.right.left.right, Then(UspsPattern2.re.right.right, Done)), s, 0, true) == None;
    assert Match(UspsPrefix.right.left.left, Then(UspsPrefix.right.left.right, Then(UspsPattern2.re.right.left.right, Then(UspsPattern2.re.right.right, Done))), s, 0, true) == None;
    assert Match(UspsPrefix.right.left, Then(UspsPattern2.re.right.left.right, Then(UspsPattern2.re.right.right, Done)), s, 0, true) == None;
    assert Match(UspsPrefix.right.right.left.left, Then(UspsPrefix.right.right.left.right, Then(UspsPattern2.re.right.left.right, Then(UspsPattern2.re.right.right, Done))), s, 0, true) == None;
    assert Match(UspsPrefix.right.right.left, Then(UspsPattern2.re.right.left.right, Then(UspsPattern2.re.right.right, Done)), s, 0, true) == None;
    assert Match(UspsPrefix.right.right.right.left.left, Then(UspsPrefix.right.right.right.left.right, Then(UspsPattern2.re.right.left.right, Then(UspsPattern2.re.right.right, Done))), s, 0, true) == None;
    assert Match(UspsPrefix.right.right.right.left, Then(UspsPattern2.re.right.left.right, Then(UspsPattern2.re.right.right, Done)), s, 0, true) == None;
    assert Match(UspsPrefix.right.right.right.right.left.right, Then(UspsPattern2.re.right.left.right, Then(UspsPattern2.re.right.right, Done)), s, 1, true) == None;
    assert Match(UspsPrefix.right.right.right.right.left.left, Then(UspsPrefix.right.right.right.right.left.right, Then(UspsPattern2.re.right.left.right, Then(UspsPattern2.re.right.right, Done))), s, 0, true) == None;
    assert Match(UspsPrefix.right.right.right.right.left, Then(UspsPattern2.re.right.left.right, Then(UspsPattern2.re.right.right, Done)), s, 0, true) == None;
    assert Match(UspsPrefix.right.right.right.right.right.left.left, Then(Letter, Then(UspsPattern2.re.right.left.right, Then(UspsPattern2.re.right.right, Done))), s, 0, true) == None;
    assert Match(UspsPrefix.right.right.right.right.right.left, Then(UspsPattern2.re.right.left.right, Then(UspsPattern2.re.right.right, Done)), s, 0, true) == None;
    assert Match(UspsPrefix.right.right.right.right.right.right.left.left, Then(Letter, Then(UspsPattern2.re.right.left.right, Then(UspsPattern2.re.right.right, Done))), s, 0, true) == None;
    assert Match(UspsPrefix.right.right.right.right.right.right.left, Then(UspsPattern2.re.right.left.right, Then(UspsPattern2.re.right.right, Done)), s, 0, true) == None;
    assert Match(UspsPrefix.right.right.right.right.right.right.right.left.left, Then(UspsPrefix.right.right.right.right.right.right.right.left.right, Then(UspsPattern2.re.right.left.right, Then(UspsPattern2.re.right.right, Done))), s, 0, true) == None;
    assert Match(UspsPrefix.right.right.right.right.right.right.right.left, Then(UspsPattern2.re.right.left.right, Then(UspsPattern2.re.right.right, Done)), s, 0, true) == None;
    assert Match(UspsPrefix.right.right.right.right.right.right.right.right.left.left, Then(UspsPrefix.right.right.right.right.right.right.right.right.left.right, Then(UspsPattern2.re.right.left.right, Then(UspsPattern2.re.right.right, Done))), s, 0, true) == None;
    assert Match(UspsPrefix.right.right.right.right.right.right.right.right.left, Then(UspsPattern2.re.right.left.right, Then(UspsPattern2.re.right.right, Done)), s, 0, true) == None;
    assert Match(UspsPrefix.right.right.right.right.right.right.right.right.right.left.left, Then(UspsPrefix.right.right.right.right.right.right.right.right.right.left.right, Then(UspsPattern2.re.right.left.right, Then(UspsPattern2.re.right.right, Done))), s, 0, true) == None;
    assert Match(UspsPrefix.right.right.right.right.right.right.right.right.right.left, Then(UspsPattern2.re.right.left.right, Then(UspsPattern2.re.right.right, Done)), s, 0, true) == None;
    assert Match(UspsPrefix.right.right.right.right.right.right.right.right.right.right.left, Then(UspsPrefix.right.right.right.right.right.right.right.right.right.right.right, Then(UspsPattern2.re.right.left.right, Then(UspsPattern2.re.right.right, Done))), s, 0, true) == None;
    assert Match(UspsPrefix.right.right.right.right.right.right.right.right.right.right, Then(UspsPattern2.re.right.left.right, Then(UspsPattern2.re.right.right, Done)), s, 0, true) == None;
    assert Match(UspsPrefix.right.right.right.right.right.right.right.right.right, Then(UspsPattern2.re.right.left.right, Then(UspsPattern2.re.right.right, Done)), s, 0, true) == None;
  }

  lemma Usps2OnRoyalEePart2(s: Bytes)
    requires SpellsRoyalEe(s)
    ensures Match(UspsPattern2.re, Done, s, 0, true) == None
  {
    Usps2OnRoyalEePart1(s);
    assert Match(UspsPrefix.right.right.right.right.right.right.right, Then(UspsPattern2.re.right.left.right, Then(UspsPattern2.re.right.right, Done)), s, 0, true) == None;
    assert Match(UspsPrefix.right.right.right.right.right.right, Then(UspsPattern2.re.right.left.right, Then(UspsPattern2.re.right.right, Done)), s, 0, true) == None;
    assert Match(UspsPrefix.right.right.right.right.right, Then(UspsPattern2.re.right.left.right, Then(UspsPattern2.re.right.right, Done)), s, 0, true) == None;
    assert Match(UspsPrefix.right.right.right.right, Then(UspsPattern2.re.right.left.right, Then(UspsPattern2.re.right.right, Done)), s, 0, true) == None;
    assert Match(UspsPrefix.right.right.right, Then(UspsPattern2.re.right.left.right, Then(UspsPattern2.re.right.right, Done)), s, 0, true) == None;
    assert Match(UspsPrefix.right.right, Then(UspsPattern2.re.right.left.right, Then(UspsPattern2.re.right.right, Done)), s, 0, true) == None;
    assert Match(UspsPrefix.right, Then(UspsPattern2.re.right.left.right, Then(UspsPattern2.re.right.right, Done)), s, 0, true) == None;
    assert Match(UspsPrefix, Then(UspsPattern2.re.right.left.right, Then(UspsPattern2.re.right.right, Done)), s, 0, true) == None;
    assert Match(UspsPattern2.re.right.left, Then(UspsPattern2.re.right.right, Done), s, 0, true) == None;
    assert Match(UspsPattern2.re.right, Done, s, 0, true) == None;
    assert Match(UspsPattern2.re.left, Then(UspsPattern2.re.right, Done), s, 0, true) == None;
  }

  lemma Usps3OnRoyalEePart1(s: Bytes)
    requires SpellsRoyalEe(s)
    ensures Match(UspsPattern3.re, Done, s, 0, true) == None
  {
    assert Match(UspsPattern3.re.right.left.left.left, Then(UspsPattern3.re.right.left.left.right, Then(UspsPattern3.re.right.left.right, Then(UspsPattern3.re.right.right, Done))), s, 0, true) == None;
    assert Match(UspsPattern3.re.right.left.left, Then(UspsPattern3.re.right.left.right, Then(UspsPattern3.re.right.right, Done)), s, 0, true) == None;
    assert Match(UspsPattern3.re.right.left, Then(UspsPattern3.re.right.right, Done), s, 0, true) == None;
    assert Match(UspsPattern3.re.right, Done, s, 0, true) == None;
    assert Match(UspsPattern3.re.left, Then(UspsPattern3.re.right, Done), s, 0, true) == None;
  }

  /** A Royal Mail number with a reserved prefix: none of the six patterns before Royal Mail matches at its start. */
  lemma RunsOnRoyalEe()
    ensures MatchAt(DhlPattern, NumRoyalEe, 0) == None
    ensures MatchAt(FedExPattern, NumRoyalEe, 0) == None
    ensures MatchAt(UpsPattern, NumRoyalEe, 0) == None
    ensures MatchAt(UspsPattern1, NumRoyalEe, 0) == None
    ensures MatchAt(UspsPattern2, NumRoyalEe, 0) == None
    ensures MatchAt(UspsPattern3, NumRoyalEe, 0) == None
  {
    NumRoyalEeSpelled();
    DhlOnRoyalEePart1(NumRoyalEe);
    FedExOnRoyalEePart1(NumRoyalEe);
    UpsOnRoyalEePart1(NumRoyalEe);
    Usps1OnRoyalEePart2(NumRoyalEe);
    Usps2OnRoyalEePart2(NumRoyalEe);
    Usps3OnRoyalEePart1(NumRoyalEe);
  }

  lemma DhlOnRoyalLowerPart1(s: Bytes)
    requires SpellsRoyalLower(s)
    ensures Match(DhlPattern.re, Done, s, 0, true) == None
  {
    assert Match(Digit, Then(Rep(Digit, 3, 3), Then(DhlGrouped.right, Then(DhlPattern.re.right.right, Done))), s, 0, true) == None;
    assert Match(DhlGrouped.left, Then(DhlGrouped.right, Then(DhlPattern.re.right.right, Done)), s, 0, true) == None;
    assert Match(DhlGrouped, Then(DhlPattern.re.right.right, Done), s, 0, true) == None;
    assert Match(Digit, Then(Rep(Digit, 2, 2), Then(DhlLong.right, Then(DhlPattern.re.right.right, Done))), s, 0, true) == None;
    assert Match(DhlLong.left, Then(DhlLong.right, Then(DhlPattern.re.right.right, Done)), s, 0, true) == None;
    assert Match(DhlLong, Then(DhlPattern.re.right.right, Done), s, 0, true) == None;
    assert Match(Letter, Then(Rep(Letter, 0, 0), Then(DhlLettered.right, Then(DhlPattern.re.right.right, Done))), s, 2, true) == None;
    assert Match(Rep(Letter, 1, 1), Then(DhlLettered.right, Then(DhlPattern.re.right.right, Done)), s, 2, true) == None;
    assert Match(Letter, Then(Rep(Letter, 1, 1), Then(DhlLettered.right, Then(DhlPattern.re.right.right, Done))), s, 1, true) == None;
    assert Match(Rep(Letter, 2, 2), Then(DhlLettered.right, Then(DhlPattern.re.right.right, Done)), s, 1, true) == None;
    assert Match(Letter, Then(Rep(Letter, 2, 2), Then(DhlLettered.right, Then(DhlPattern.re.right.right, Done))), s, 0, true) == None;
    assert Match(DhlLettered.left, Then(DhlLettered.right, Then(DhlPattern.re.right.right, Done)), s, 0, true) == None;
    assert Match(DhlLettered, Then(DhlPattern.re.right.right, Done), s, 0, true) == None;
    assert Match(DhlPattern.re.right.left.right, Then(DhlPattern.re.right.right, Done), s, 0, true) == None;
    assert Match(DhlPattern.re.right.left, Then(DhlPattern.re.right.right, Done), s, 0, true) == None;
    assert Match(DhlPattern.re.right, Done, s, 0, true) == None;
    assert Match(DhlPattern.re.left, Then(DhlPattern.re.right, Done), s, 0, true) == None;
  }

  lemma FedExOnRoyalLowerPart1(s: Bytes)
    requires SpellsRoyalLower(s)
    ensures Match(FedExPattern.re, Done, s, 0, true) == None
  {
    assert Match(FedExHead.left.left.left.left.left, Then(FedExHead.left.left.left.left.right, Then(FedExHead.left.left.left.right, Then(FedExHead.left.right, Then(FedExPattern.re.right.left.right, Then(FedExPattern.re.right.right, Done))))), s, 0, true) == None;
    assert Match(FedExHead.left.left.left.left, Then(FedExHead.left.left.left.right, Then(FedExHead.left.right, Then(FedExPattern.re.right.left.right, Then(FedExPattern.re.right.right, Done)))), s, 0, true) == None;
    assert Match(FedExHead.left.left.left, Then(FedExHead.left.right, Then(FedExPattern.re.right.left.right, Then(FedExPattern.re.right.right, Done))), s, 0, true) == None;
    assert Match(FedExHead.left.left.right.left, Then(Digit, Then(FedExHead.left.right, Then(FedExPattern.re.right.left.right, Then(FedExPattern.re.right.right, Done)))), s, 0, true) == None;
    assert Match(FedExHead.left.left.right, Then(FedExHead.left.right, Then(FedExPattern.re.right.left.right, Then(FedExPattern.re.right.right, Done))), s, 0, true) == None;
    assert Match(FedExHead.left.left, Then(FedExHead.left.right, Then(FedExPattern.re.right.left.right, Then(FedExPattern.re.right.right, Done))), s, 0, true) == None;
    assert Match(FedExHead.left, Then(FedExPattern.re.right.left.right, Then(FedExPattern.re.right.right, Done)), s, 0, true) == None;
    assert Match(FedExHead.right.left.left.left, Then(FedExHead.right.left.left.right, Then(FedExHead.right.left.right, Then(FedExPattern.re.right.left.right, Then(FedExPattern.re.right.right, Done)))), s, 0, true) == None;
    assert Match(FedExHead.right.left.left, Then(FedExHead.right.left.right, Then(FedExPattern.re.right.left.right, Then(FedExPattern.re.right.right, Done))), s, 0, true) == None;
    assert Match(FedExHead.right.left, Then(FedExPattern.re.right.left.right, Then(FedExPattern.re.right.right, Done)), s, 0, true) == None;
    assert Match(Digit, Then(Rep(Digit, 3, 3), Then(FedExPattern.re.right.left.right, Then(FedExPattern.re.right.right, Done))), s, 0, true) == None;
    assert Match(FedExHead.right.right, Then(FedExPattern.re.right.left.right, Then(FedExPattern.re.right.right, Done)), s, 0, true) == None;
    assert Match(FedExHead.right, Then(FedExPattern.re.right.left.right, Then(FedExPattern.re.right.right, Done)), s, 0, true) == None;
    assert Match(FedExHead, Then(FedExPattern.re.right.left.right, Then(FedExPattern.re.right.right, Done)), s, 0, true) == None;
    assert Match(FedExPattern.re.right.left, Then(FedExPattern.re.right.right, Done), s, 0, true) == None;
    assert Match(FedExPattern.re.right, Done, s, 0, true) == None;
    assert Match(FedExPattern.re.left, Then(FedExPattern.re.right, Done), s, 0, true) == None;
  }

  lemma UpsOnRoyalLowerPart1(s: Bytes)
    requires SpellsRoyalLower(s)
    ensures Match(UpsPattern.re, Done, s, 0, true) == None
  {
    assert Match(Ups1Z.left.left, Then(Ups1Z.left.right, Then(Ups1Z.right, Then(UpsPattern.re.right.right, Done))), s, 0, true) == None;
    assert Match(Ups1Z.left, Then(Ups1Z.right, Then(UpsPattern.re.right.right, Done)), s, 0, true) == None;
    assert Match(Ups1Z, Then(UpsPattern.re.right.right, Done), s, 0, true) == None;
    assert Match(UpsT.left, Then(UpsT.right, Then(UpsPattern.re.right.right, Done)), s, 0, true) == None;
    assert Match(UpsT, Then(UpsPattern.re.right.right, Done), s, 0, true) == None;
    assert Match(UpsPattern.re.right.left, Then(UpsPattern.re.right.right, Done), s, 0, true) == None;
    assert Match(UpsPattern.re.right, Done, s, 0, true) == None;
    assert Match(UpsPattern.re.left, Then(UpsPattern.re.right, Done), s, 0, true) == None;
  }

  lemma Usps1OnRoyalLowerPart1(s: Bytes)
    requires SpellsRoyalLower(s)
    ensures Match(UspsRouting, Then(Rep(UspsRouting, 0, 0), Then(UspsPattern1.re.right.left.right, Then(UspsPattern1.re.right.right, Done))), s, 0, true) == None
    ensures Match(UspsServiceCode.left, Then(UspsPattern1.re.right.left.right.right, Then(UspsPattern1.re.right.right, Done)), s, 0, true) == None
    ensures Match(UspsServiceCode.right.left, Then(UspsPattern1.re.right.left.right.right, Then(UspsPattern1.re.right.right, Done)), s, 0, true) == None
    ensures Match(UspsServiceCode.right.right.left, Then(UspsPattern1.re.right.left.right.right, Then(UspsPattern1.re.right.right, Done)), s, 0, true) == None
    ensures Match(UspsServiceCode.right.right.right.left, Then(UspsPattern1.re.right.left.right.right, Then(UspsPattern1.re.right.right, Done)), s, 0, true) == None
    ensures Match(UspsServiceCode.right.right.right.right.left, Then(UspsPattern1.re.right.left.right.right, Then(UspsPattern1.re.right.right, Done)), s, 0, true) == None
    ensures Match(UspsServiceCode.right.right.right.right.right.left, Then(UspsPattern1.re.right.left.right.right, Then(UspsPattern1.re.right.right, Done)), s, 0, true) == None
    ensures Match(UspsServiceCode.right.right.right.right.right.right.left, Then(UspsPattern1.re.right.left.right.right, Then(UspsPattern1.re.right.right, Done)), s, 0, true) == None
    ensures Match(UspsServiceCode.right.right.right.right.right.right.right, Then(UspsPattern1.re.right.left.right.right, Then(UspsPattern1.re.right.right, Done)), s, 0, true) == None
  {
    assert Match(UspsRouting.left, Then(UspsRouting.right, Then(Rep(UspsRouting, 0, 0), Then(UspsPattern1.re.right.left.right, Then(UspsPattern1.re.right.right, Done)))), s, 0, true) == None;
    assert Match(UspsRouting, Then(Rep(UspsRouting, 0, 0), Then(UspsPattern1.re.right.left.right, Then(UspsPattern1.re.right.right, Done))), s, 0, true) == None;
    assert Match(UspsServiceCode.left.left, Then(UspsServiceCode.left.right, Then(UspsPattern1.re.right.left.right.right, Then(UspsPattern1.re.right.right, Done))), s, 0, true) == None;
    assert Match(UspsServiceCode.left, Then(UspsPattern1.re.right.left.right.right, Then(UspsPattern1.re.right.right, Done)), s, 0, true) == None;
    assert Match(UspsServiceCode.right.left.left, Then(UspsServiceCode.right.left.right, Then(UspsPattern1.re.right.left.right.right, Then(UspsPattern1.re.right.right, Done))), s, 0, true) == None;
    assert Match(UspsServiceCode.right.left, Then(UspsPattern1.re.right.left.right.right, Then(UspsPattern1.re.right.right, Done)), s, 0, true) == None;
    assert Match(UspsServiceCode.right.right.left.left, Then(UspsServiceCode.right.right.left.right, Then(UspsPattern1.re.right.left.right.right, Then(UspsPattern1.re.right.right, Done))), s, 0, true) == None;
    assert Match(UspsServiceCode.right.right.left, Then(UspsPattern1.re.right.left.right.right, Then(UspsPattern1.re.right.right, Done)), s, 0, true) == None;
    assert Match(UspsServiceCode.right.right.right.left.left, Then(UspsServiceCode.right.right.right.left.right, Then(UspsPattern1.re.right.left.right.right, Then(UspsPattern1.re.right.right, Done))), s, 0, true) == None;
    assert Match(UspsServiceCode.right.right.right.left, Then(UspsPattern1.re.right.left.right.right, Then(UspsPattern1.re.right.right, Done)), s, 0, true) == None;
    assert Match(UspsServiceCode.right.right.right.right.left.left, Then(UspsServiceCode.right.right.right.right.left.right, Then(UspsPattern1.re.right.left.right.right, Then(UspsPattern1.re.right.right, Done))), s, 0, true) == None;
    assert Match(UspsServiceCode.right.right.right.right.left, Then(UspsPattern1.re.right.left.right.right, Then(UspsPattern1.re.right.right, Done)), s, 0, true) == None;
    assert Match(UspsServiceCode.right.right.right.right.right.left.left, Then(UspsServiceCode.right.right.right.right.right.left.right, Then(UspsPattern1.re.right.left.right.right, Then(UspsPattern1.re.right.right, Done))), s, 0, true) == None;
    assert Match(UspsServiceCode.right.right.right.right.right.left, Then(UspsPattern1.re.right.left.right.right, Then(UspsPattern1.re.right.right, Done)), s, 0, true) == None;
    assert Match(UspsServiceCode.right.right.right.right.right.right.left.left, Then(UspsServiceCode.right.right.right.right.right.right.left.right, Then(UspsPattern1.re.right.left.right.right, Then(UspsPattern1.re.right.right, Done))), s, 0, true) == None;
    assert Match(UspsServiceCode.right.right.right.right.right.right.left, Then(UspsPattern1.re.right.left.right.right, Then(UspsPattern1.re.right.right, Done)), s, 0, true) == None;
    assert Match(UspsServiceCode.right.right.right.right.right.right.right.left.left, Then(UspsServiceCode.right.right.right.right.right.right.right.left.right, Then(UspsPattern1.re.right.left.right.right, Then(UspsPattern1.re.right.right, Done))), s, 0, true) == None;
    assert Match(UspsServiceCode.right.right.right.right.right.right.right.left, Then(UspsPattern1.re.right.left.right.right, Then(UspsPattern1.re.right.right, Done)), s, 0, true) == None;
    assert Match(UspsServiceCode.right.right.right.right.right.right.right.right.left.left, Then(UspsServiceCode.right.right.right.right.right.right.right.right.left.right, Then(UspsPattern1.re.right.left.right.right, Then(UspsPattern1.re.right.right, Done))), s, 0, true) == None;
    assert Match(UspsServiceCode.right.right.right.right.right.right.right.right.left, Then(UspsPattern1.re.right.left.right.right, Then(UspsPattern1.re.right.right, Done)), s, 0, true) == None;
    assert Match(UspsServiceCode.right.right.right.right.right.right.right.right.right.left, Then(UspsServiceCode.right.right.right.right.right.right.right.right.right.right, Then(UspsPattern1.re.right.left.right.right, Then(UspsPattern1.re.right.right, Done))), s, 0, true) == None;
    assert Match(UspsServiceCode.right.right.right.right.right.right.right.right.right, Then(UspsPattern1.re.right.left.right.right, Then(UspsPattern1.re.right.right, Done)), s, 0, true) == None;
    assert Match(UspsServiceCode.right.right.right.right.right.right.right.right, Then(UspsPattern1.re.right.left.right.right, Then(UspsPattern1.re.right.right, Done)), s, 0, true) == None;
  }

  lemma Usps1OnRoyalLowerPart2(s: Bytes)
    requires SpellsRoyalLower(s)
    ensures Match(UspsPattern1.re, Done, s, 0, true) == None
  {
    Usps1OnRoyalLowerPart1(s);
    assert Match(UspsServiceCode.right.right.right.right.right.right, Then(UspsPattern1.re.right.left.right.right, Then(UspsPattern1.re.right.right, Done)), s, 0, true) == None;
    assert Match(UspsServiceCode.right.right.right.right.right, Then(UspsPattern1.re.right.left.right.right, Then(UspsPattern1.re.right.right, Done)), s, 0, true) == None;
    assert Match(UspsServiceCode.right.right.right.right, Then(UspsPattern1.re.right.left.right.right, Then(UspsPattern1.re.right.right, Done)), s, 0, true) == None;
    assert Match(UspsServiceCode.right.right.right, Then(UspsPattern1.re.right.left.right.right, Then(UspsPattern1.re.right.right, Done)), s, 0, true) == None;
    assert Match(UspsServiceCode.right.right, Then(UspsPattern1.re.right.left.right.right, Then(UspsPattern1.re.right.right, Done)), s, 0, true) == None;
    assert Match(UspsServiceCode.right, Then(UspsPattern1.re.right.left.right.right, Then(UspsPattern1.re.right.right, Done)), s, 0, true) == None;
    assert Match(UspsServiceCode, Then(UspsPattern1.re.right.left.right.right, Then(UspsPattern1.re.right.right, Done)), s, 0, true) == None;
    assert Match(UspsPattern1.re.right.left.right, Then(UspsPattern1.re.right.right, Done), s, 0, true) == None;
    assert Match(UspsPattern1.re.right.left.left, Then(UspsPattern1.re.right.left.right, Then(UspsPattern1.re.right.right, Done)), s, 0, true) == None;
    assert Match(UspsPattern1.re.right.left, Then(UspsPattern1.re.right.right, Done), s, 0, true) == None;
    assert Match(UspsPattern1.re.right, Done, s, 0, true) == None;
    assert Match(UspsPattern1.re.left, Then(UspsPattern1.re.right, Done), s, 0, true) == None;
  }

  lemma Usps2OnRoyalLowerPart1(s: Bytes)
    requires SpellsRoyalLower(s)
    ensures Match(UspsPrefix.left, Then(UspsPattern2.re.right.left.right, Then(UspsPattern2.re.right.right, Done)), s, 0, true) == None
    ensures Match(UspsPrefix.right.left, Then(UspsPattern2.re.right.left.right, Then(UspsPattern2.re.right.right, Done)), s, 0, true) == None
    ensures Match(UspsPrefix.right.right.left, Then(UspsPattern2.re.right.left.right, Then(UspsPattern2.re.right.right, Done)), s, 0, true) == None
    ensures Match(UspsPrefix.right.right.right.left, Then(UspsPattern2.re.right.left.right, Then(UspsPattern2.re.right.right, Done)), s, 0, true) == None
    ensures Match(UspsPrefix.right.right.right.right.left, Then(UspsPattern2.re.right.left.right, Then(UspsPattern2.re.right.right, Done)), s, 0, true) == None
    ensures Match(UspsPrefix.right.right.right.right.right.left, Then(UspsPattern2.re.right.left.right, Then(UspsPattern2.re.right.right, Done)), s, 0, true) == None
    ensures Match(UspsPrefix.right.right.right.right.right.right.left, Then(UspsPattern2.re.right.left.right, Then(UspsPattern2.re.right.right, Done)), s, 0, true) == None
    ensures Match(UspsPrefix.right.right.right.right.right.right.right, Then(UspsPattern2.re.right.left.right, Then(UspsPattern2.re.right.right, Done)), s, 0, true) == None
  {
    assert Match(UspsPrefix.left, Then(UspsPattern2.re.right.left.right, Then(UspsPattern2.re.right.right, Done)), s, 0, true) == None;
    assert Match(UspsPrefix.right.left.left, Then(UspsPrefix.right.left.right, Then(UspsPattern2.re.right.left.right, Then(UspsPattern2.re.right.right, Done))), s, 0, true) == None;
    assert Match(UspsPrefix.right.left, Then(UspsPattern2.re.right.left.right, Then(UspsPattern2.re.right.right, Done)), s, 0, true) == None;
    assert Match(UspsPrefix.right.right.left.left, Then(UspsPrefix.right.right.left.right, Then(UspsPattern2.re.right.left.right, Then(UspsPattern2.re.right.right, Done))), s, 0, true) == None;
    assert Match(UspsPrefix.right.right.left, Then(UspsPattern2.re.right.left.right, Then(UspsPattern2.re.right.right, Done)), s, 0, true) == None;
    assert Match(UspsPrefix.right.right.right.left.left, Then(UspsPrefix.right.right.right.left.right, Then(UspsPattern2.re.right.left.right, Then(UspsPattern2.re.right.right, Done))), s, 0, true) == None;
    assert Match(UspsPrefix.right.right.right.left, Then(UspsPattern2.re.right.left.right, Then(UspsPattern2.re.right.right, Done)), s, 0, true) == None;
    assert Match(UspsPrefix.right.right.right.right.left.left, Then(UspsPrefix.right.right.right.right.left.right, Then(UspsPattern2.re.right.left.right, Then(UspsPattern2.re.right.right, Done))), s, 0, true) == None;
    assert Match(UspsPrefix.right.right.right.right.left, Then(UspsPattern2.re.right.left.right, Then(UspsPattern2.re.right.right, Done)), s, 0, true) == None;
    assert Match(UspsPrefix.right.right.right.right.right.left.left, Then(Letter, Then(UspsPattern2.re.right.left.right, Then(UspsPattern2.re.right.right, Done))), s, 0, true) == None;
    assert Match(UspsPrefix.right.right.right.right.right.left, Then(UspsPattern2.re.right.left.right, Then(UspsPattern2.re.right.right, Done)), s, 0, true) == None;
    assert Match(UspsPrefix.right.right.right.right.right.right.left.left, Then(Letter, Then(UspsPattern2.re.right.left.right, Then(UspsPattern2.re.right.right, Done))), s, 0, true) == None;
    assert Match(UspsPrefix.right.right.right.right.right.right.left, Then(UspsPattern2.re.right.left.right, Then(UspsPattern2.re.right.right, Done)), s, 0, true) == None;
    assert Match(UspsPrefix.right.right.right.right.right.right.right.left.left, Then(UspsPrefix.right.right.right.right.right.right.right.left.right, Then(UspsPattern2.re.right.left.right, Then(UspsPattern2.re.right.right, Done))), s, 0, true) == None;
    assert Match(UspsPrefix.right.right.right.right.right.right.right.left, Then(UspsPattern2.re.right.left.right, Then(UspsPattern2.re.right.right, Done)), s, 0, true) == None;
    assert Match(UspsPrefix.right.right.right.right.right.right.right.right.left.left, Then(UspsPrefix.right.right.right.right.right.right.right.right.left.right, Then(UspsPattern2.re.right.left.right, Then(UspsPattern2.re.right.right, Done))), s, 0, true) == None;
    assert Match(UspsPrefix.right.right.right.right.right.right.right.right.left, Then(UspsPattern2.re.right.left.right, Then(UspsPattern2.re.right.right, Done)), s, 0, true) == None;
    assert Match(UspsPrefix.right.right.right.right.right.right.right.right.right.left.left, Then(UspsPrefix.right.right.right.right.right.right.right.right.right.left.right, Then(UspsPattern2.re.right.left.right, Then(UspsPattern2.re.right.right, Done))), s, 0, true) == None;
    assert Match(UspsPrefix.right.right.right.right.right.right.right.right.right.left, Then(UspsPattern2.re.right.left.right, Then(UspsPattern2.re.right.right, Done)), s, 0, true) == None;
    assert Match(UspsPrefix.right.right.right.right.right.right.right.right.right.right.left, Then(UspsPrefix.right.right.right.right.right.right.right.right.right.right.right, Then(UspsPattern2.re.right.left.right, Then(UspsPattern2.re.right.right, Done))), s, 0, true) == None;
    assert Match(UspsPrefix.right.right.right.right.right.right.right.right.right.right, Then(UspsPattern2.re.right.left.right, Then(UspsPattern2.re.right.right, Done)), s, 0, true) == None;
    assert Match(UspsPrefix.right.right.right.right.right.right.right.right.right, Then(UspsPattern2.re.right.left.right, Then(UspsPattern2.re.right.right, Done)), s, 0, true) == None;
    assert Match(UspsPrefix.right.right.right.right.right.right.right.right, Then(UspsPattern2.re.right.left.right, Then(UspsPattern2.re.right.right, Done)), s, 0, true) == None;
  }

  lemma Usps2OnRoyalLowerPart2(s: Bytes)
    requires SpellsRoyalLower(s)
    ensures Match(UspsPattern2.re, Done, s, 0, true) == None
  {
    Usps2OnRoyalLowerPart1(s);
    assert Match(UspsPrefix.right.right.right.right.right.right, Then(UspsPattern2.re.right.left.right, Then(UspsPattern2.re.right.right, Done)), s, 0, true) == None;
    assert Match(UspsPrefix.right.right.right.right.right, Then(UspsPattern2.re.right.left.right, Then(UspsPattern2.re.right.right, Done)), s, 0, true) == None;
    assert Match(UspsPrefix.right.right.right.right, Then(UspsPattern2.re.right.left.right, Then(UspsPattern2.re.right.right, Done)), s, 0, true) == None;
    assert Match(UspsPrefix.right.right.right, Then(UspsPattern2.re.right.left.right, Then(UspsPattern2.re.right.right, Done)), s, 0, true) == None;
    assert Match(UspsPrefix.right.right, Then(UspsPattern2.re.right.left.right, Then(UspsPattern2.re.right.right, Done)), s, 0, true) == None;
    assert Match(UspsPrefix.right, Then(UspsPattern2.re.right.left.right, Then(UspsPattern2.re.right.right, Done)), s, 0, true) == None;
    assert Match(UspsPrefix, Then(UspsPattern2.re.right.left.right, Then(UspsPattern2.re.right.right, Done)), s, 0, true) == None;
    assert Match(UspsPattern2.re.right.left, Then(UspsPattern2.re.right.right, Done), s, 0, true) == None;
    assert Match(UspsPattern2.re.right, Done, s, 0, true) == None;
    assert Match(UspsPattern2.re.left, Then(UspsPattern2.re.right, Done), s, 0, true) == None;
  }

  lemma Usps3OnRoyalLowerPart1(s: Bytes)
    requires SpellsRoyalLower(s)
    ensures Match(UspsPattern3.re, Done, s, 0, true) == None
  {
    assert Match(UspsPattern3.re.right.left.left.left, Then(UspsPattern3.re.right.left.left.right, Then(UspsPattern3.re.right.left.right, Then(UspsPattern3.re.right.right, Done))), s, 0, true) == None;
    assert Match(UspsPattern3.re.right.left.left, Then(UspsPattern3.re.right.left.right, Then(UspsPattern3.re.right.right, Done)), s, 0, true) == None;
    assert Match(UspsPattern3.re.right.left, Then(UspsPattern3.re.right.right, Done), s, 0, true) == None;
    assert Match(UspsPattern3.re.right, Done, s, 0, true) == None;
    assert Match(UspsPattern3.re.left, Then(UspsPattern3.re.right, Done), s, 0, true) == None;
  }

  /** A lower-case Royal Mail number: none of the six patterns before Royal Mail matches at its start. */
  lemma RunsOnRoyalLower()
    ensures MatchAt(DhlPattern, NumRoyalLower, 0) == None
    ensures MatchAt(FedExPattern, NumRoyalLower, 0) == None
    ensures MatchAt(UpsPattern, NumRoyalLower, 0) == None
    ensures MatchAt(UspsPattern1, NumRoyalLower, 0) == None
    ensures MatchAt(UspsPattern2, NumRoyalLower, 0) == None
    ensures MatchAt(UspsPattern3, NumRoyalLower, 0) == None
  {
    NumRoyalLowerSpelled();
    DhlOnRoyalLowerPart1(NumRoyalLower);
    FedExOnRoyalLowerPart1(NumRoyalLower);
    UpsOnRoyalLowerPart1(NumRoyalLower);
    Usps1OnRoyalLowerPart2(NumRoyalLower);
    Usps2OnRoyalLowerPart2(NumRoyalLower);
    Usps3OnRoyalLowerPart1(NumRoyalLower);
  }

  lemma DhlOnUspsPart1(s: Bytes)
    requires SpellsUsps(s)
    ensures Match(OptDashOrSpace.body, Then(Rep(OptDashOrSpace.body, 0, 0), Then(DhlGrouped.right.right, Then(DhlPattern.re.right.right, Done))), s, 4, true) == None
    ensures Match(DhlGrouped.right.right.right, Then(DhlPattern.re.right.right, Done), s, 8, true) == None
  {
    assert Match(OptDashOrSpace.body.left, Then(Rep(OptDashOrSpace.body, 0, 0), Then(DhlGrouped.right.right, Then(DhlPattern.re.right.right, Done))), s, 4, true) == None;
    assert Match(OptDashOrSpace.body.right, Then(Rep(OptDashOrSpace.body, 0, 0), Then(DhlGrouped.right.right, Then(DhlPattern.re.right.right, Done))), s, 4, true) == None;
    assert Match(OptDashOrSpace.body, Then(Rep(OptDashOrSpace.body, 0, 0), Then(DhlGrouped.right.right, Then(DhlPattern.re.right.right, Done))), s, 4, true) == None;
    assert Match(OptDashOrSpace.body.left, Then(Rep(OptDashOrSpace.body, 0, 0), Then(DhlGrouped.right.right.right.right, Then(DhlPattern.re.right.right, Done))), s, 8, true) == None;
    assert Match(OptDashOrSpace.body.right, Then(Rep(OptDashOrSpace.body, 0, 0), Then(DhlGrouped.right.right.right.right, Then(DhlPattern.re.right.right, Done))), s, 8, true) == None;
    assert Match(OptDashOrSpace.body, Then(Rep(OptDashOrSpace.body, 0, 0), Then(DhlGrouped.right.right.right.right, Then(DhlPattern.re.right.right, Done))), s, 8, true) == None;
    assert Match(DhlPattern.re.right.right, Done, s, 10, true) == None;
    assert Match(Rep(Digit, 0, 0), Then(DhlPattern.re.right.right, Done), s, 10, true) == None;
    assert Match(Digit, Then(Rep(Digit, 0, 0), Then(DhlPattern.re.right.right, Done)), s, 9, true) == None;
    assert Match(Rep(Digit, 1, 1), Then(DhlPattern.re.right.right, Done), s, 9, true) == None;
    assert Match(Digit, Then(Rep(Digit, 1, 1), Then(DhlPattern.re.right.right, Done)), s, 8, true) == None;
    assert Match(DhlGrouped.right.right.right.right, Then(DhlPattern.re.right.right, Done), s, 8, true) == None;
    assert Match(OptDashOrSpace, Then(DhlGrouped.right.right.right.right, Then(DhlPattern.re.right.right, Done)), s, 8, true) == None;
  }

  lemma DhlOnUspsPart2(s: Bytes)
    requires SpellsUsps(s)
    ensures Match(Digit, Then(Rep(Digit, 0, 0), Then(DhlGrouped.right, Then(DhlPattern.re.right.right, Done))), s, 3, true) == None
  {
    DhlOnUspsPart1(s);
    assert Match(Rep(Digit, 0, 0), Then(DhlGrouped.right.right.right, Then(DhlPattern.re.right.right, Done)), s, 8, true) == None;
    assert Match(Digit, Then(Rep(Digit, 0, 0), Then(DhlGrouped.right.right.right, Then(DhlPattern.re.right.right, Done))), s, 7, true) == None;
    assert Match(Rep(Digit, 1, 1), Then(DhlGrouped.right.right.right, Then(DhlPattern.re.right.right, Done)), s, 7, true) == None;
    assert Match(Digit, Then(Rep(Digit, 1, 1), Then(DhlGrouped.right.right.right, Then(DhlPattern.re.right.right, Done))), s, 6, true) == None;
    assert Match(Rep(Digit, 2, 2), Then(DhlGrouped.right.right.right, Then(DhlPattern.re.right.right, Done)), s, 6, true) == None;
    assert Match(Digit, Then(Rep(Digit, 2, 2), Then(DhlGrouped.right.right.right, Then(DhlPattern.re.right.right, Done))), s, 5, true) == None;
    assert Match(Rep(Digit, 3, 3), Then(DhlGrouped.right.right.right, Then(DhlPattern.re.right.right, Done)), s, 5, true) == None;
    assert Match(Digit, Then(Rep(Digit, 3, 3), Then(DhlGrouped.right.right.right, Then(DhlPattern.re.right.right, Done))), s, 4, true) == None;
    assert Match(DhlGrouped.right.right.left, Then(DhlGrouped.right.right.right, Then(DhlPattern.re.right.right, Done)), s, 4, true) == None;
    assert Match(DhlGrouped.right.right, Then(DhlPattern.re.right.right, Done), s, 4, true) == None;
    assert Match(OptDashOrSpace, Then(DhlGrouped.right.right, Then(DhlPattern.re.right.right, Done)), s, 4, true) == None;
    assert Match(DhlGrouped.right, Then(DhlPattern.re.right.right, Done), s, 4, true) == None;
    assert Match(Rep(Digit, 0, 0), Then(DhlGrouped.right, Then(DhlPattern.re.right.right, Done)), s, 4, true) == None;
  }

  lemma DhlOnUspsPart3(s: Bytes)
    requires SpellsUsps(s)
    ensures Match(DhlGrouped, Then(DhlPattern.re.right.right, Done), s, 0, true) == None
    ensures Match(OptDashOrSpace.body, Then(Rep(OptDashOrSpace.body, 0, 0), Then(DhlLong.right.right, Then(DhlPattern.re.right.right, Done))), s, 3, true) == None
    ensures Match(Digit, Then(Rep(Digit, 0, 0), Then(DhlPattern.re.right.right, Done)), s, 10, true) == None
  {
    DhlOnUspsPart2(s);
    assert Match(Rep(Digit, 1, 1), Then(DhlGrouped.right, Then(DhlPattern.re.right.right, Done)), s, 3, true) == None;
    assert Match(Digit, Then(Rep(Digit, 1, 1), Then(DhlGrouped.right, Then(DhlPattern.re.right.right, Done))), s, 2, true) == None;
    assert Match(Rep(Digit, 2, 2), Then(DhlGrouped.right, Then(DhlPattern.re.right.right, Done)), s, 2, true) == None;
    assert Match(Digit, Then(Rep(Digit, 2, 2), Then(DhlGrouped.right, Then(DhlPattern.re.right.right, Done))), s, 1, true) == None;
    assert Match(Rep(Digit, 3, 3), Then(DhlGrouped.right, Then(DhlPattern.re.right.right, Done)), s, 1, true) == None;
    assert Match(Digit, Then(Rep(Digit, 3, 3), Then(DhlGrouped.right, Then(DhlPattern.re.right.right, Done))), s, 0, true) == None;
    assert Match(DhlGrouped.left, Then(DhlGrouped.right, Then(DhlPattern.re.right.right, Done)), s, 0, true) == None;
    assert Match(DhlGrouped, Then(DhlPattern.re.right.right, Done), s, 0, true) == None;
    assert Match(OptDashOrSpace.body.left, Then(Rep(OptDashOrSpace.body, 0, 0), Then(DhlLong.right.right, Then(DhlPattern.re.right.right, Done))), s, 3, true) == None;
    assert Match(OptDashOrSpace.body.right, Then(Rep(OptDashOrSpace.body, 0, 0), Then(DhlLong.right.right, Then(DhlPattern.re.right.right, Done))), s, 3, true) == None;
    assert Match(OptDashOrSpace.body, Then(Rep(OptDashOrSpace.body, 0, 0), Then(DhlLong.right.right, Then(DhlPattern.re.right.right, Done))), s, 3, true) == None;
    assert Match(DhlPattern.re.right.right, Done, s, 11, true) == None;
    assert Match(Rep(Digit, 0, 0), Then(DhlPattern.re.right.right, Done), s, 11, true) == None;
  }

  lemma DhlOnUspsPart4(s: Bytes)
    requires SpellsUsps(s)
    ensures Match(Digit, Then(Rep(Digit, 7, 7), Then(DhlPattern.re.right.right, Done)), s, 3, true) == None
  {
    DhlOnUspsPart3(s);
    assert Match(Rep(Digit, 1, 1), Then(DhlPattern.re.right.right, Done), s, 10, true) == None;
    assert Match(Digit, Then(Rep(Digit, 1, 1), Then(DhlPattern.re.right.right, Done)), s, 9, true) == None;
    assert Match(Rep(Digit, 2, 2), Then(DhlPattern.re.right.right, Done), s, 9, true) == None;
    assert Match(Digit, Then(Rep(Digit, 2, 2), Then(DhlPattern.re.right.right, Done)), s, 8, true) == None;
    assert Match(Rep(Digit, 3, 3), Then(DhlPattern.re.right.right, Done), s, 8, true) == None;
    assert Match(Digit, Then(Rep(Digit, 3, 3), Then(DhlPattern.re.right.right, Done)), s, 7, true) == None;
    assert Match(Rep(Digit, 4, 4), Then(DhlPattern.re.right.right, Done), s, 7, true) == None;
    assert Match(Digit, Then(Rep(Digit, 4, 4), Then(DhlPattern.re.right.right, Done)), s, 6, true) == None;
    assert Match(Rep(Digit, 5, 5), Then(DhlPattern.re.right.right, Done), s, 6, true) == None;
    assert Match(Digit, Then(Rep(Digit, 5, 5), Then(DhlPattern.re.right.right, Done)), s, 5, true) == None;
    assert Match(Rep(Digit, 6, 6), Then(DhlPattern.re.right.right, Done), s, 5, true) == None;
    assert Match(Digit, Then(Rep(Digit, 6, 6), Then(DhlPattern.re.right.right, Done)), s, 4, true) == None;
    assert Match(Rep(Digit, 7, 7), Then(DhlPattern.re.right.right, Done), s, 4, true) == None;
  }

  lemma DhlOnUspsPart5(s: Bytes)
    requires SpellsUsps(s)
    ensures Match(DhlLong, Then(DhlPattern.re.right.right, Done), s, 0, true) == None
    ensures Match(DhlLettered, Then(DhlPattern.re.right.right, Done), s, 0, true) == None
  {
    DhlOnUspsPart3(s);
    DhlOnUspsPart4(s);
    assert Match(DhlLong.right.right, Then(DhlPattern.re.right.right, Done), s, 3, true) == None;
    assert Match(OptDashOrSpace, Then(DhlLong.right.right, Then(DhlPattern.re.right.right, Done)), s, 3, true) == None;
    assert Match(DhlLong.right, Then(DhlPattern.re.right.right, Done), s, 3, true) == None;
    assert Match(Rep(Digit, 0, 0), Then(DhlLong.right, Then(DhlPattern.re.right.right, Done)), s, 3, true) == None;
    assert Match(Digit, Then(Rep(Digit, 0, 0), Then(DhlLong.right, Then(DhlPattern.re.right.right, Done))), s, 2, true) == None;
    assert Match(Rep(Digit, 1, 1), Then(DhlLong.right, Then(DhlPattern.re.right.right, Done)), s, 2, true) == None;
    assert Match(Digit, Then(Rep(Digit, 1, 1), Then(DhlLong.right, Then(DhlPattern.re.right.right, Done))), s, 1, true) == None;
    assert Match(Rep(Digit, 2, 2), Then(DhlLong.right, Then(DhlPattern.re.right.right, Done)), s, 1, true) == None;
    assert Match(Digit, Then(Rep(Digit, 2, 2), Then(DhlLong.right, Then(DhlPattern.re.right.right, Done))), s, 0, true) == None;
    assert Match(DhlLong.left, Then(DhlLong.right, Then(DhlPattern.re.right.right, Done)), s, 0, true) == None;
    assert Match(DhlLong, Then(DhlPattern.re.right.right, Done), s, 0, true) == None;
    assert Match(Letter, Then(Rep(Letter, 2, 2), Then(DhlLettered.right, Then(DhlPattern.re.right.right, Done))), s, 0, true) == None;
    assert Match(DhlLettered.left, Then(DhlLettered.right, Then(DhlPattern.re.right.right, Done)), s, 0, true) == None;
  }

  lemma DhlOnUspsPart6(s: Bytes)
    requires SpellsUsps(s)
    ensures Match(DhlPattern.re, Done, s, 0, true) == None
  {
    DhlOnUspsPart3(s);
    DhlOnUspsPart5(s);
    assert Match(DhlPattern.re.right.left.right, Then(DhlPattern.re.right.right, Done), s, 0, true) == None;
    assert Match(DhlPattern.re.right.left, Then(DhlPattern.re.right.right, Done), s, 0, true) == None;
    assert Match(DhlPattern.re.right, Done, s, 0, true) == None;
    assert Match(DhlPattern.re.left, Then(DhlPattern.re.right, Done), s, 0, true) == None;
  }

  lemma FedExOnUspsPart1(s: Bytes)
    requires SpellsUsps(s)
    ensures Match(FedExHead.left, Then(FedExPattern.re.right.left.right, Then(FedExPattern.re.right.right, Done)), s, 0, true) == None
    ensures Match(FedExHead.right.left, Then(FedExPattern.re.right.left.right, Then(FedExPattern.re.right.right, Done)), s, 0, true) == None
    ensures Match(OptSpace.body, Then(Rep(OptSpace.body, 0, 0), Then(FedExPattern.re.right.left.right.right, Then(FedExPattern.re.right.right, Done))), s, 4, true) == None
    ensures Match(OptSpace.body, Then(Rep(OptSpace.body, 0, 0), Then(FedExPattern.re.right.left.right.right.right.right, Then(FedExPattern.re.right.right, Done))), s, 8, true) == None
    ensures Match(OptSpace.body, Then(Rep(OptSpace.body, 0, 0), Then(FedExPattern.re.right.left.right.right.right.right.right.body.right, Then(Rep(FedExPattern.re.right.left.right.right.right.right.right.body, 0, 0), Then(FedExPattern.re.right.right, Done)))), s, 12, true) == None
    ensures Match(FedExPattern.re.right.left.right.right.right.right.right.body.right, Then(Rep(FedExPattern.re.right.left.right.right.right.right.right.body, 0, 0), Then(FedExPattern.re.right.right, Done)), s, 12, true) == None
  {
    assert Match(FedExHead.left.left.left.left.right, Then(FedExHead.left.left.left.right, Then(FedExHead.left.right, Then(FedExPattern.re.right.left.right, Then(FedExPattern.re.right.right, Done)))), s, 1, true) == None;
    assert Match(FedExHead.left.left.left.left.left, Then(FedExHead.left.left.left.left.right, Then(FedExHead.left.left.left.right, Then(FedExHead.left.right, Then(FedExPattern.re.right.left.right, Then(FedExPattern.re.right.right, Done))))), s, 0, true) == None;
    assert Match(FedExHead.left.left.left.left, Then(FedExHead.left.left.left.right, Then(FedExHead.left.right, Then(FedExPattern.re.right.left.right, Then(FedExPattern.re.right.right, Done)))), s, 0, true) == None;
    assert Match(FedExHead.left.left.left, Then(FedExHead.left.right, Then(FedExPattern.re.right.left.right, Then(FedExPattern.re.right.right, Done))), s, 0, true) == None;
    assert Match(FedExHead.left.left.right.left, Then(Digit, Then(FedExHead.left.right, Then(FedExPattern.re.right.left.right, Then(FedExPattern.re.right.right, Done)))), s, 0, true) == None;
    assert Match(FedExHead.left.left.right, Then(FedExHead.left.right, Then(FedExPattern.re.right.left.right, Then(FedExPattern.re.right.right, Done))), s, 0, true) == None;
    assert Match(FedExHead.left.left, Then(FedExHead.left.right, Then(FedExPattern.re.right.left.right, Then(FedExPattern.re.right.right, Done))), s, 0, true) == None;
    assert Match(FedExHead.left, Then(FedExPattern.re.right.left.right, Then(FedExPattern.re.right.right, Done)), s, 0, true) == None;
    assert Match(FedExHead.right.left.left.right, Then(FedExHead.right.left.right, Then(FedExPattern.re.right.left.right, Then(FedExPattern.re.right.right, Done))), s, 1, true) == None;
    assert Match(FedExHead.right.left.left.left, Then(FedExHead.right.left.left.right, Then(FedExHead.right.left.right, Then(FedExPattern.re.right.left.right, Then(FedExPattern.re.right.right, Done)))), s, 0, true) == None;
    assert Match(FedExHead.right.left.left, Then(FedExHead.right.left.right, Then(FedExPattern.re.right.left.right, Then(FedExPattern.re.right.right, Done))), s, 0, true) == None;
    assert Match(FedExHead.right.left, Then(FedExPattern.re.right.left.right, Then(FedExPattern.re.right.right, Done)), s, 0, true) == None;
    assert Match(OptSpace.body, Then(Rep(OptSpace.body, 0, 0), Then(FedExPattern.re.right.left.right.right, Then(FedExPattern.re.right.right, Done))), s, 4, true) == None;
    assert Match(OptSpace.body, Then(Rep(OptSpace.body, 0, 0), Then(FedExPattern.re.right.left.right.right.right.right, Then(FedExPattern.re.right.right, Done))), s, 8, true) == None;
    assert Match(OptSpace.body, Then(Rep(OptSpace.body, 0, 0), Then(FedExPattern.re.right.left.right.right.right.right.right.body.right, Then(Rep(FedExPattern.re.right.left.right.right.right.right.right.body, 0, 0), Then(FedExPattern.re.right.right, Done)))), s, 12, true) == None;
    assert Match(FedExPattern.re.right.right, Done, s, 15, true) == None;
    assert Match(Rep(FedExPattern.re.right.left.right.right.right.right.right.body, 0, 0), Then(FedExPattern.re.right.right, Done), s, 15, true) == None;
    assert Match(Rep(Digit, 0, 0), Then(Rep(FedExPattern.re.right.left.right.right.right.right.right.body, 0, 0), Then(FedExPattern.re.right.right, Done)), s, 15, true) == None;
    assert Match(Digit, Then(Rep(Digit, 0, 0), Then(Rep(FedExPattern.re.right.left.right.right.right.right.right.body, 0, 0), Then(FedExPattern.re.right.right, Done))), s, 14, true) == None;
    assert Match(Rep(Digit, 1, 1), Then(Rep(FedExPattern.re.right.left.right.right.right.right.right.body, 0, 0), Then(FedExPattern.re.right.right, Done)), s, 14, true) == None;
    assert Match(Digit, Then(Rep(Digit, 1, 1), Then(Rep(FedExPattern.re.right.left.right.right.right.right.right.body, 0, 0), Then(FedExPattern.re.right.right, Done))), s, 13, true) == None;
    assert Match(Rep(Digit, 2, 2), Then(Rep(FedExPattern.re.right.left.right.right.right.right.right.body, 0, 0), Then(FedExPattern.re.right.right, Done)), s, 13, true) == None;
    assert Match(Digit, Then(Rep(Digit, 2, 2), Then(Rep(FedExPattern.re.right.left.right.right.right.right.right.body, 0, 0), Then(FedExPattern.re.right.right, Done))), s, 12, true) == None;
  }

  lemma FedExOnUspsPart2(s: Bytes)
    requires SpellsUsps(s)
    ensures Match(Digit, Then(Rep(Digit, 3, 3), Then(FedExPattern.re.right.left.right.right.right, Then(FedExPattern.re.right.right, Done))), s, 4, true) == None
  {
    FedExOnUspsPart1(s);
    assert Match(OptSpace, Then(FedExPattern.re.right.left.right.right.right.right.right.body.right, Then(Rep(FedExPattern.re.right.left.right.right.right.right.right.body, 0, 0), Then(FedExPattern.re.right.right, Done))), s, 12, true) == None;
    assert Match(FedExPattern.re.right.left.right.right.right.right.right.body, Then(Rep(FedExPattern.re.right.left.right.right.right.right.right.body, 0, 0), Then(FedExPattern.re.right.right, Done)), s, 12, true) == None;
    assert Match(FedExPattern.re.right.right, Done, s, 12, true) == None;
    assert Match(FedExPattern.re.right.left.right.right.right.right.right, Then(FedExPattern.re.right.right, Done), s, 12, true) == None;
    assert Match(Rep(Digit, 0, 0), Then(FedExPattern.re.right.left.right.right.right.right.right, Then(FedExPattern.re.right.right, Done)), s, 12, true) == None;
    assert Match(Digit, Then(Rep(Digit, 0, 0), Then(FedExPattern.re.right.left.right.right.right.right.right, Then(FedExPattern.re.right.right, Done))), s, 11, true) == None;
    assert Match(Rep(Digit, 1, 1), Then(FedExPattern.re.right.left.right.right.right.right.right, Then(FedExPattern.re.right.right, Done)), s, 11, true) == None;
    assert Match(Digit, Then(Rep(Digit, 1, 1), Then(FedExPattern.re.right.left.right.right.right.right.right, Then(FedExPattern.re.right.right, Done))), s, 10, true) == None;
    assert Match(Rep(Digit, 2, 2), Then(FedExPattern.re.right.left.right.right.right.right.right, Then(FedExPattern.re.right.right, Done)), s, 10, true) == None;
    assert Match(Digit, Then(Rep(Digit, 2, 2), Then(FedExPattern.re.right.left.right.right.right.right.right, Then(FedExPattern.re.right.right, Done))), s, 9, true) == None;
    assert Match(Rep(Digit, 3, 3), Then(FedExPattern.re.right.left.right.right.right.right.right, Then(FedExPattern.re.right.right, Done)), s, 9, true) == None;
    assert Match(Digit, Then(Rep(Digit, 3, 3), Then(FedExPattern.re.right.left.right.right.right.right.right, Then(FedExPattern.re.right.right, Done))), s, 8, true) == None;
    assert Match(FedExPattern.re.right.left.right.right.right.right.left, Then(FedExPattern.re.right.left.right.right.right.right.right, Then(FedExPattern.re.right.right, Done)), s, 8, true) == None;
    assert Match(FedExPattern.re.right.left.right.right.right.right, Then(FedExPattern.re.right.right, Done), s, 8, true) == None;
    assert Match(OptSpace, Then(FedExPattern.re.right.left.right.right.right.right, Then(FedExPattern.re.right.right, Done)), s, 8, true) == None;
    assert Match(FedExPattern.re.right.left.right.right.right, Then(FedExPattern.re.right.right, Done), s, 8, true) == None;
    assert Match(Rep(Digit, 0, 0), Then(FedExPattern.re.right.left.right.right.right, Then(FedExPattern.re.right.right, Done)), s, 8, true) == None;
    assert Match(Digit, Then(Rep(Digit, 0, 0), Then(FedExPattern.re.right.left.right.right.right, Then(FedExPattern.re.right.right, Done))), s, 7, true) == None;
    assert Match(Rep(Digit, 1, 1), Then(FedExPattern.re.right.left.right.right.right, Then(FedExPattern.re.right.right, Done)), s, 7, true) == None;
    assert Match(Digit, Then(Rep(Digit, 1, 1), Then(FedExPattern.re.right.left.right.right.right, Then(FedExPattern.re.right.right, Done))), s, 6, true) == None;
    assert Match(Rep(Digit, 2, 2), Then(FedExPattern.re.right.left.right.right.right, Then(FedExPattern.re.right.right, Done)), s, 6, true) == None;
    assert Match(Digit, Then(Rep(Digit, 2, 2), Then(FedExPattern.re.right.left.right.right.right, Then(FedExPattern.re.right.right, Done))), s, 5, true) == None;
    assert Match(Rep(Digit, 3, 3), Then(FedExPattern.re.right.left.right.right.right, Then(FedExPattern.re.right.right, Done)), s, 5, true) == None;
  }

  lemma FedExOnUspsPart3(s: Bytes)
    requires SpellsUsps(s)
    ensures Match(FedExPattern.re, Done, s, 0, true) == None
  {
    FedExOnUspsPart1(s);
    FedExOnUspsPart2(s);
    assert Match(FedExPattern.re.right.left.right.right.left, Then(FedExPattern.re.right.left.right.right.right, Then(FedExPattern.re.right.right, Done)), s, 4, true) == None;
    assert Match(FedExPattern.re.right.left.right.right, Then(FedExPattern.re.right.right, Done), s, 4, true) == None;
    assert Match(OptSpace, Then(FedExPattern.re.right.left.right.right, Then(FedExPattern.re.right.right, Done)), s, 4, true) == None;
    assert Match(FedExPattern.re.right.left.right, Then(FedExPattern.re.right.right, Done), s, 4, true) == None;
    assert Match(Rep(Digit, 0, 0), Then(FedExPattern.re.right.left.right, Then(FedExPattern.re.right.right, Done)), s, 4, true) == None;
    assert Match(Digit, Then(Rep(Digit, 0, 0), Then(FedExPattern.re.right.left.right, Then(FedExPattern.re.right.right, Done))), s, 3, true) == None;
    assert Match(Rep(Digit, 1, 1), Then(FedExPattern.re.right.left.right, Then(FedExPattern.re.right.right, Done)), s, 3, true) == None;
    assert Match(Digit, Then(Rep(Digit, 1, 1), Then(FedExPattern.re.right.left.right, Then(FedExPattern.re.right.right, Done))), s, 2, true) == None;
    assert Match(Rep(Digit, 2, 2), Then(FedExPattern.re.right.left.right, Then(FedExPattern.re.right.right, Done)), s, 2, true) == None;
    assert Match(Digit, Then(Rep(Digit, 2, 2), Then(FedExPattern.re.right.left.right, Then(FedExPattern.re.right.right, Done))), s, 1, true) == None;
    assert Match(Rep(Digit, 3, 3), Then(FedExPattern.re.right.left.right, Then(FedExPattern.re.right.right, Done)), s, 1, true) == None;
    assert Match(Digit, Then(Rep(Digit, 3, 3), Then(FedExPattern.re.right.left.right, Then(FedExPattern.re.right.right, Done))), s, 0, true) == None;
    assert Match(FedExHead.right.right, Then(FedExPattern.re.right.left.right, Then(FedExPattern.re.right.right, Done)), s, 0, true) == None;
    assert Match(FedExHead.right, Then(FedExPattern.re.right.left.right, Then(FedExPattern.re.right.right, Done)), s, 0, true) == None;
    assert Match(FedExHead, Then(FedExPattern.re.right.left.right, Then(FedExPattern.re.right.right, Done)), s, 0, true) == None;
    assert Match(FedExPattern.re.right.left, Then(FedExPattern.re.right.right, Done), s, 0, true) == None;
    assert Match(FedExPattern.re.right, Done, s, 0, true) == None;
    assert Match(FedExPattern.re.left, Then(FedExPattern.re.right, Done), s, 0, true) == None;
  }

  lemma UpsOnUspsPart1(s: Bytes)
    requires SpellsUsps(s)
    ensures Match(UpsPattern.re, Done, s, 0, true) == None
  {
    assert Match(Ups1Z.left.left, Then(Ups1Z.left.right, Then(Ups1Z.right, Then(UpsPattern.re.right.right, Done))), s, 0, true) == None;
    assert Match(Ups1Z.left, Then(Ups1Z.right, Then(UpsPattern.re.right.right, Done)), s, 0, true) == None;
    assert Match(Ups1Z, Then(UpsPattern.re.right.right, Done), s, 0, true) == None;
    assert Match(UpsT.left, Then(UpsT.right, Then(UpsPattern.re.right.right, Done)), s, 0, true) == None;
    assert Match(UpsT, Then(UpsPattern.re.right.right, Done), s, 0, true) == None;
    assert Match(UpsPattern.re.right.left, Then(UpsPattern.re.right.right, Done), s, 0, true) == None;
    assert Match(UpsPattern.re.right, Done, s, 0, true) == None;
    assert Match(UpsPattern.re.left, Then(UpsPattern.re.right, Done), s, 0, true) == None;
  }

  lemma Usps1OnUspsPart1(s: Bytes)
    requires SpellsUsps(s)
    ensures Match(UspsRouting, Then(Rep(UspsRouting, 0, 0), Then(UspsPattern1.re.right.left.right, Then(UspsPattern1.re.right.right, Done))), s, 0, true) == None
    ensures Match(UspsServiceCode.left, Then(UspsPattern1.re.right.left.right.right, Then(UspsPattern1.re.right.right, Done)), s, 0, true) == None
    ensures Match(UspsServiceCode.right.left, Then(UspsPattern1.re.right.left.right.right, Then(UspsPattern1.re.right.right, Done)), s, 0, true) == None
    ensures Match(UspsServiceCode.right.right.left, Then(UspsPattern1.re.right.left.right.right, Then(UspsPattern1.re.right.right, Done)), s, 0, true) == None
    ensures Match(OptSpace.body, Then(Rep(OptSpace.body, 0, 0), Then(UspsPattern1.re.right.left.right.right.right.right, Then(UspsPattern1.re.right.right, Done))), s, 4, true) == None
    ensures Match(OptSpace.body, Then(Rep(OptSpace.body, 0, 0), Then(UspsPattern1.re.right.left.right.right.right.right.right.right, Then(UspsPattern1.re.right.right, Done))), s, 8, true) == None
    ensures Match(OptSpace.body, Then(Rep(OptSpace.body, 0, 0), Then(UspsPattern1.re.right.left.right.right.right.right.right.right.right.right, Then(UspsPattern1.re.right.right, Done))), s, 12, true) == None
  {
    assert Match(UspsRouting.left, Then(UspsRouting.right, Then(Rep(UspsRouting, 0, 0), Then(UspsPattern1.re.right.left.right, Then(UspsPattern1.re.right.right, Done)))), s, 0, true) == None;
    assert Match(UspsRouting, Then(Rep(UspsRouting, 0, 0), Then(UspsPattern1.re.right.left.right, Then(UspsPattern1.re.right.right, Done))), s, 0, true) == None;
    assert Match(UspsServiceCode.left.right, Then(UspsPattern1.re.right.left.right.right, Then(UspsPattern1.re.right.right, Done)), s, 1, true) == None;
    assert Match(UspsServiceCode.left.left, Then(UspsServiceCode.left.right, Then(UspsPattern1.re.right.left.right.right, Then(UspsPattern1.re.right.right, Done))), s, 0, true) == None;
    assert Match(UspsServiceCode.left, Then(UspsPattern1.re.right.left.right.right, Then(UspsPattern1.re.right.right, Done)), s, 0, true) == None;
    assert Match(UspsServiceCode.right.left.right, Then(UspsPattern1.re.right.left.right.right, Then(UspsPattern1.re.right.right, Done)), s, 1, true) == None;
    assert Match(UspsServiceCode.right.left.left, Then(UspsServiceCode.right.left.right, Then(UspsPattern1.re.right.left.right.right, Then(UspsPattern1.re.right.right, Done))), s, 0, true) == None;
    assert Match(UspsServiceCode.right.left, Then(UspsPattern1.re.right.left.right.right, Then(UspsPattern1.re.right.right, Done)), s, 0, true) == None;
    assert Match(UspsServiceCode.right.right.left.right, Then(UspsPattern1.re.right.left.right.right, Then(UspsPattern1.re.right.right, Done)), s, 1, true) == None;
    assert Match(UspsServiceCode.right.right.left.left, Then(UspsServiceCode.right.right.left.right, Then(UspsPattern1.re.right.left.right.right, Then(UspsPattern1.re.right.right, Done))), s, 0, true) == None;
    assert Match(UspsServiceCode.right.right.left, Then(UspsPattern1.re.right.left.right.right, Then(UspsPattern1.re.right.right, Done)), s, 0, true) == None;
    assert Match(OptSpace.body, Then(Rep(OptSpace.body, 0, 0), Then(UspsPattern1.re.right.left.right.right.right.right, Then(UspsPattern1.re.right.right, Done))), s, 4, true) == None;
    assert Match(OptSpace.body, Then(Rep(OptSpace.body, 0, 0), Then(UspsPattern1.re.right.left.right.right.right.right.right.right, Then(UspsPattern1.re.right.right, Done))), s, 8, true) == None;
  }

  lemma Usps1OnUspsPart2(s: Bytes)
    requires SpellsUsps(s)
    ensures Match(OptSpace.body, Then(Rep(OptSpace.body, 0, 0), Then(UspsPattern1.re.right.left.right.right.right.right.right.right.right.right.right.right, Then(UspsPattern1.re.right.right, Done))), s, 16, true) == None
    ensures Match(Rep(Digit, 0, 0), Then(UspsPattern1.re.right.left.right.right.right.right.right.right.right.right.right.right.right, Then(UspsPattern1.re.right.right, Done)), s, 20, true) == Some(22)
  {
    assert Match(OptSpace.body, Then(Rep(OptSpace.body, 0, 0), Then(UspsPattern1.re.right.left.right.right.right.right.right.right.right.right.right.right, Then(UspsPattern1.re.right.right, Done))), s, 16, true) == None;
    assert Match(OptSpace.body, Then(Rep(OptSpace.body, 0, 0), Then(UspsPattern1.re.right.left.right.right.right.right.right.right.right.right.right.right.right.body.right, Then(Rep(UspsPattern1.re.right.left.right.right.right.right.right.right.right.right.right.right.right.body, 0, 0), Then(UspsPattern1.re.right.right, Done)))), s, 20, true) == None;
    assert Match(Digit, Then(Rep(Digit, 0, 3), Then(Rep(UspsPattern1.re.right.left.right.right.right.right.right.right.right.right.right.right.right.body, 0, 0), Then(UspsPattern1.re.right.right, Done))), s, 22, true) == None;
    assert Match(UspsPattern1.re.right.right, Done, s, 22, true) == Some(22);
    assert Match(Rep(UspsPattern1.re.right.left.right.right.right.right.right.right.right.right.right.right.right.body, 0, 0), Then(UspsPattern1.re.right.right, Done), s, 22, true) == Some(22);
    assert Match(Rep(Digit, 0, 4), Then(Rep(UspsPattern1.re.right.left.right.right.right.right.right.right.right.right.right.right.right.body, 0, 0), Then(UspsPattern1.re.right.right, Done)), s, 22, true) == Some(22);
    assert Match(Digit, Then(Rep(Digit, 0, 4), Then(Rep(UspsPattern1.re.right.left.right.right.right.right.right.right.right.right.right.right.right.body, 0, 0), Then(UspsPattern1.re.right.right, Done))), s, 21, true) == Some(22);
    assert Match(Rep(Digit, 1, 5), Then(Rep(UspsPattern1.re.right.left.right.right.right.right.right.right.right.right.right.right.right.body, 0, 0), Then(UspsPattern1.re.right.right, Done)), s, 21, true) == Some(22);
    assert Match(Digit, Then(Rep(Digit, 1, 5), Then(Rep(UspsPattern1.re.right.left.right.right.right.right.right.right.right.right.right.right.right.body, 0, 0), Then(UspsPattern1.re.right.right, Done))), s, 20, true) == Some(22);
    assert Match(UspsPattern1.re.right.left.right.right.right.right.right.right.right.right.right.right.right.body.right, Then(Rep(UspsPattern1.re.right.left.right.right.right.right.right.right.right.right.right.right.right.body, 0, 0), Then(UspsPattern1.re.right.right, Done)), s, 20, true) == Some(22);
    assert Match(OptSpace, Then(UspsPattern1.re.right.left.right.right.right.right.right.right.right.right.right.right.right.body.right, Then(Rep(UspsPattern1.re.right.left.right.right.right.right.right.right.right.right.right.right.right.body, 0, 0), Then(UspsPattern1.re.right.right, Done))), s, 20, true) == Some(22);
    assert Match(UspsPattern1.re.right.left.right.right.right.right.right.right.right.right.right.right.right.body, Then(Rep(UspsPattern1.re.right.left.right.right.right.right.right.right.right.right.right.right.right.body, 0, 0), Then(UspsPattern1.re.right.right, Done)), s, 20, true) == Some(22);
    assert Match(UspsPattern1.re.right.left.right.right.right.right.right.right.right.right.right.right.right, Then(UspsPattern1.re.right.right, Done), s, 20, true) == Some(22);
  }

  lemma Usps1OnUspsPart3(s: Bytes)
    requires SpellsUsps(s)
    ensures Match(Rep(Digit, 1, 1), Then(UspsPattern1.re.right.left.right.right.right.right.right.right.right.right.right, Then(UspsPattern1.re.right.right, Done)), s, 15, true) == Some(22)
  {
    Usps1OnUspsPart2(s);
    assert Match(Digit, Then(Rep(Digit, 0, 0), Then(UspsPattern1.re.right.left.right.right.right.right.right.right.right.right.right.right.right, Then(UspsPattern1.re.right.right, Done))), s, 19, true) == Some(22);
    assert Match(Rep(Digit, 1, 1), Then(UspsPattern1.re.right.left.right.right.right.right.right.right.right.right.right.right.right, Then(UspsPattern1.re.right.right, Done)), s, 19, true) == Some(22);
    assert Match(Digit, Then(Rep(Digit, 1, 1), Then(UspsPattern1.re.right.left.right.right.right.right.right.right.right.right.right.right.right, Then(UspsPattern1.re.right.right, Done))), s, 18, true) == Some(22);
    assert Match(Rep(Digit, 2, 2), Then(UspsPattern1.re.right.left.right.right.right.right.right.right.right.right.right.right.right, Then(UspsPattern1.re.right.right, Done)), s, 18, true) == Some(22);
    assert Match(Digit, Then(Rep(Digit, 2, 2), Then(UspsPattern1.re.right.left.right.right.right.right.right.right.right.right.right.right.right, Then(UspsPattern1.re.right.right, Done))), s, 17, true) == Some(22);
    assert Match(Rep(Digit, 3, 3), Then(UspsPattern1.re.right.left.right.right.right.right.right.right.right.right.right.right.right, Then(UspsPattern1.re.right.right, Done)), s, 17, true) == Some(22);
    assert Match(Digit, Then(Rep(Digit, 3, 3), Then(UspsPattern1.re.right.left.right.right.right.right.right.right.right.right.right.right.right, Then(UspsPattern1.re.right.right, Done))), s, 16, true) == Some(22);
    assert Match(UspsPattern1.re.right.left.right.right.right.right.right.right.right.right.right.right.left, Then(UspsPattern1.re.right.left.right.right.right.right.right.right.right.right.right.right.right, Then(UspsPattern1.re.right.right, Done)), s, 16, true) == Some(22);
    assert Match(UspsPattern1.re.right.left.right.right.right.right.right.right.right.right.right.right, Then(UspsPattern1.re.right.right, Done), s, 16, true) == Some(22);
    assert Match(OptSpace, Then(UspsPattern1.re.right.left.right.right.right.right.right.right.right.right.right.right, Then(UspsPattern1.re.right.right, Done)), s, 16, true) == Some(22);
    assert Match(UspsPattern1.re.right.left.right.right.right.right.right.right.right.right.right, Then(UspsPattern1.re.right.right, Done), s, 16, true) == Some(22);
    assert Match(Rep(Digit, 0, 0), Then(UspsPattern1.re.right.left.right.right.right.right.right.right.right.right.right, Then(UspsPattern1.re.right.right, Done)), s, 16, true) == Some(22);
    assert Match(Digit, Then(Rep(Digit, 0, 0), Then(UspsPattern1.re.right.left.right.right.right.right.right.right.right.right.right, Then(UspsPattern1.re.right.right, Done))), s, 15, true) == Some(22);
  }

  lemma Usps1OnUspsPart4(s: Bytes)
    requires SpellsUsps(s)
    ensures Match(Rep(Digit, 2, 2), Then(UspsPattern1.re.right.left.right.right.right.right.right.right.right, Then(UspsPattern1.re.right.right, Done)), s, 10, true) == Some(22)
  {
    Usps1OnUspsPart1(s);
    Usps1OnUspsPart3(s);
    assert Match(Digit, Then(Rep(Digit, 1, 1), Then(UspsPattern1.re.right.left.right.right.right.right.right.right.right.right.right, Then(UspsPattern1.re.right.right, Done))), s, 14, true) == Some(22);
    assert Match(Rep(Digit, 2, 2), Then(UspsPattern1.re.right.left.right.right.right.right.right.right.right.right.right, Then(UspsPattern1.re.right.right, Done)), s, 14, true) == Some(22);
    assert Match(Digit, Then(Rep(Digit, 2, 2), Then(UspsPattern1.re.right.left.right.right.right.right.right.right.right.right.right, Then(UspsPattern1.re.right.right, Done))), s, 13, true) == Some(22);
    assert Match(Rep(Digit, 3, 3), Then(UspsPattern1.re.right.left.right.right.right.right.right.right.right.right.right, Then(UspsPattern1.re.right.right, Done)), s, 13, true) == Some(22);
    assert Match(Digit, Then(Rep(Digit, 3, 3), Then(UspsPattern1.re.right.left.right.right.right.right.right.right.right.right.right, Then(UspsPattern1.re.right.right, Done))), s, 12, true) == Some(22);
    assert Match(UspsPattern1.re.right.left.right.right.right.right.right.right.right.right.left, Then(UspsPattern1.re.right.left.right.right.right.right.right.right.right.right.right, Then(UspsPattern1.re.right.right, Done)), s, 12, true) == Some(22);
    assert Match(UspsPattern1.re.right.left.right.right.right.right.right.right.right.right, Then(UspsPattern1.re.right.right, Done), s, 12, true) == Some(22);
    assert Match(OptSpace, Then(UspsPattern1.re.right.left.right.right.right.right.right.right.right.right, Then(UspsPattern1.re.right.right, Done)), s, 12, true) == Some(22);
    assert Match(UspsPattern1.re.right.left.right.right.right.right.right.right.right, Then(UspsPattern1.re.right.right, Done), s, 12, true) == Some(22);
    assert Match(Rep(Digit, 0, 0), Then(UspsPattern1.re.right.left.right.right.right.right.right.right.right, Then(UspsPattern1.re.right.right, Done)), s, 12, true) == Some(22);
    assert Match(Digit, Then(Rep(Digit, 0, 0), Then(UspsPattern1.re.right.left.right.right.right.right.right.right.right, Then(UspsPattern1.re.right.right, Done))), s, 11, true) == Some(22);
    assert Match(Rep(Digit, 1, 1), Then(UspsPattern1.re.right.left.right.right.right.right.right.right.right, Then(UspsPattern1.re.right.right, Done)), s, 11, true) == Some(22);
    assert Match(Digit, Then(Rep(Digit, 1, 1), Then(UspsPattern1.re.right.left.right.right.right.right.right.right.right, Then(UspsPattern1.re.right.right, Done))), s, 10, true) == Some(22);
  }

  lemma Usps1OnUspsPart5(s: Bytes)
    requires SpellsUsps(s)
    ensures Match(Rep(Digit, 3, 3), Then(UspsPattern1.re.right.left.right.right.right.right.right, Then(UspsPattern1.re.right.right, Done)), s, 5, true) == Some(22)
  {
    Usps1OnUspsPart1(s);
    Usps1OnUspsPart4(s);
    assert Match(Digit, Then(Rep(Digit, 2, 2), Then(UspsPattern1.re.right.left.right.right.right.right.right.right.right, Then(UspsPattern1.re.right.right, Done))), s, 9, true) == Some(22);
    assert Match(Rep(Digit, 3, 3), Then(UspsPattern1.re.right.left.right.right.right.right.right.right.right, Then(UspsPattern1.re.right.right, Done)), s, 9, true) == Some(22);
    assert Match(Digit, Then(Rep(Digit, 3, 3), Then(UspsPattern1.re.right.left.right.right.right.right.right.right.right, Then(UspsPattern1.re.right.right, Done))), s, 8, true) == Some(22);
    assert Match(UspsPattern1.re.right.left.right.right.right.right.right.right.left, Then(UspsPattern1.re.right.left.right.right.right.right.right.right.right, Then(UspsPattern1.re.right.right, Done)), s, 8, true) == Some(22);
    assert Match(UspsPattern1.re.right.left.right.right.right.right.right.right, Then(UspsPattern1.re.right.right, Done), s, 8, true) == Some(22);
    assert Match(OptSpace, Then(UspsPattern1.re.right.left.right.right.right.right.right.right, Then(UspsPattern1.re.right.right, Done)), s, 8, true) == Some(22);
    assert Match(UspsPattern1.re.right.left.right.right.right.right.right, Then(UspsPattern1.re.right.right, Done), s, 8, true) == Some(22);
    assert Match(Rep(Digit, 0, 0), Then(UspsPattern1.re.right.left.right.right.right.right.right, Then(UspsPattern1.re.right.right, Done)), s, 8, true) == Some(22);
    assert Match(Digit, Then(Rep(Digit, 0, 0), Then(UspsPattern1.re.right.left.right.right.right.right.right, Then(UspsPattern1.re.right.right, Done))), s, 7, true) == Some(22);
    assert Match(Rep(Digit, 1, 1), Then(UspsPattern1.re.right.left.right.right.right.right.right, Then(UspsPattern1.re.right.right, Done)), s, 7, true) == Some(22);
    assert Match(Digit, Then(Rep(Digit, 1, 1), Then(UspsPattern1.re.right.left.right.right.right.right.right, Then(UspsPattern1.re.right.right, Done))), s, 6, true) == Some(22);
    assert Match(Rep(Digit, 2, 2), Then(UspsPattern1.re.right.left.right.right.right.right.right, Then(UspsPattern1.re.right.right, Done)), s, 6, true) == Some(22);
    assert Match(Digit, Then(Rep(Digit, 2, 2), Then(UspsPattern1.re.right.left.right.right.right.right.right, Then(UspsPattern1.re.right.right, Done))), s, 5, true) == Some(22);
  }

  lemma Usps1OnUspsPart6(s: Bytes)
    requires SpellsUsps(s)
    ensures Match(UspsServiceCode.right.right.right.left, Then(UspsPattern1.re.right.left.right.right, Then(UspsPattern1.re.right.right, Done)), s, 0, true) == Some(22)
  {
    Usps1OnUspsPart1(s);
    Usps1OnUspsPart5(s);
    assert Match(Digit, Then(Rep(Digit, 3, 3), Then(UspsPattern1.re.right.left.right.right.right.right.right, Then(UspsPattern1.re.right.right, Done))), s, 4, true) == Some(22);
    assert Match(UspsPattern1.re.right.left.right.right.right.right.left, Then(UspsPattern1.re.right.left.right.right.right.right.right, Then(UspsPattern1.re.right.right, Done)), s, 4, true) == Some(22);
    assert Match(UspsPattern1.re.right.left.right.right.right.right, Then(UspsPattern1.re.right.right, Done), s, 4, true) == Some(22);
    assert Match(OptSpace, Then(UspsPattern1.re.right.left.right.right.right.right, Then(UspsPattern1.re.right.right, Done)), s, 4, true) == Some(22);
    assert Match(UspsPattern1.re.right.left.right.right.right, Then(UspsPattern1.re.right.right, Done), s, 4, true) == Some(22);
    assert Match(Rep(Digit, 0, 0), Then(UspsPattern1.re.right.left.right.right.right, Then(UspsPattern1.re.right.right, Done)), s, 4, true) == Some(22);
    assert Match(Digit, Then(Rep(Digit, 0, 0), Then(UspsPattern1.re.right.left.right.right.right, Then(UspsPattern1.re.right.right, Done))), s, 3, true) == Some(22);
    assert Match(Rep(Digit, 1, 1), Then(UspsPattern1.re.right.left.right.right.right, Then(UspsPattern1.re.right.right, Done)), s, 3, true) == Some(22);
    assert Match(Digit, Then(Rep(Digit, 1, 1), Then(UspsPattern1.re.right.left.right.right.right, Then(UspsPattern1.re.right.right, Done))), s, 2, true) == Some(22);
    assert Match(UspsPattern1.re.right.left.right.right.left, Then(UspsPattern1.re.right.left.right.right.right, Then(UspsPattern1.re.right.right, Done)), s, 2, true) == Some(22);
    assert Match(UspsPattern1.re.right.left.right.right, Then(UspsPattern1.re.right.right, Done), s, 2, true) == Some(22);
    assert Match(UspsServiceCode.right.right.right.left.right, Then(UspsPattern1.re.right.left.right.right, Then(UspsPattern1.re.right.right, Done)), s, 1, true) == Some(22);
    assert Match(UspsServiceCode.right.right.right.left.left, Then(UspsServiceCode.right.right.right.left.right, Then(UspsPattern1.re.right.left.right.right, Then(UspsPattern1.re.right.right, Done))), s, 0, true) == Some(22);
  }

  lemma Usps1OnUspsPart7(s: Bytes)
    requires SpellsUsps(s)
    ensures Match(UspsPattern1.re, Done, s, 0, true) == Some(22)
  {
    Usps1OnUspsPart1(s);
    Usps1OnUspsPart6(s);
    assert Match(UspsServiceCode.right.right.right, Then(UspsPattern1.re.right.left.right.right, Then(UspsPattern1.re.right.right, Done)), s, 0, true) == Some(22);
    assert Match(UspsServiceCode.right.right, Then(UspsPattern1.re.right.left.right.right, Then(UspsPattern1.re.right.right, Done)), s, 0, true) == Some(22);
    assert Match(UspsServiceCode.right, Then(UspsPattern1.re.right.left.right.right, Then(UspsPattern1.re.right.right, Done)), s, 0, true) == Some(22);
    assert Match(UspsServiceCode, Then(UspsPattern1.re.right.left.right.right, Then(UspsPattern1.re.right.right, Done)), s, 0, true) == Some(22);
    assert Match(UspsPattern1.re.right.left.right, Then(UspsPattern1.re.right.right, Done), s, 0, true) == Some(22);
    assert Match(UspsPattern1.re.right.left.left, Then(UspsPattern1.re.right.left.right, Then(UspsPattern1.re.right.right, Done)), s, 0, true) == Some(22);
    assert Match(UspsPattern1.re.right.left, Then(UspsPattern1.re.right.right, Done), s, 0, true) == Some(22);
    assert Match(UspsPattern1.re.right, Done, s, 0, true) == Some(22);
    assert Match(UspsPattern1.re.left, Then(UspsPattern1.re.right, Done), s, 0, true) == Some(22);
  }

  /** A USPS number: DHL, FedEx and UPS fail on it and the first USPS pattern matches all of it. */
  lemma RunsOnUsps()
    ensures MatchAt(DhlPattern, NumUsps, 0) == None
    ensures MatchAt(FedExPattern, NumUsps, 0) == None
    ensures MatchAt(UpsPattern, NumUsps, 0) == None
    ensures MatchAt(UspsPattern1, NumUsps, 0) == Some(22)
  {
    NumUspsSpelled();
    DhlOnUspsPart6(NumUsps);
    FedExOnUspsPart3(NumUsps);
    UpsOnUspsPart1(NumUsps);
    Usps1OnUspsPart7(NumUsps);
  }

  lemma DhlOnUspsLkPart1(s: Bytes)
    requires SpellsUspsLk(s)
    ensures Match(DhlPattern.re, Done, s, 0, true) == None
  {
    assert Match(Digit, Then(Rep(Digit, 3, 3), Then(DhlGrouped.right, Then(DhlPattern.re.right.right, Done))), s, 0, true) == None;
    assert Match(DhlGrouped.left, Then(DhlGrouped.right, Then(DhlPattern.re.right.right, Done)), s, 0, true) == None;
    assert Match(DhlGrouped, Then(DhlPattern.re.right.right, Done), s, 0, true) == None;
    assert Match(Digit, Then(Rep(Digit, 2, 2), Then(DhlLong.right, Then(DhlPattern.re.right.right, Done))), s, 0, true) == None;
    assert Match(DhlLong.left, Then(DhlLong.right, Then(DhlPattern.re.right.right, Done)), s, 0, true) == None;
    assert Match(DhlLong, Then(DhlPattern.re.right.right, Done), s, 0, true) == None;
    assert Match(Letter, Then(Rep(Letter, 0, 0), Then(DhlLettered.right, Then(DhlPattern.re.right.right, Done))), s, 2, true) == None;
    assert Match(Rep(Letter, 1, 1), Then(DhlLettered.right, Then(DhlPattern.re.right.right, Done)), s, 2, true) == None;
    assert Match(Letter, Then(Rep(Letter, 1, 1), Then(DhlLettered.right, Then(DhlPattern.re.right.right, Done))), s, 1, true) == None;
    assert Match(Rep(Letter, 2, 2), Then(DhlLettered.right, Then(DhlPattern.re.right.right, Done)), s, 1, true) == None;
    assert Match(Letter, Then(Rep(Letter, 2, 2), Then(DhlLettered.right, Then(DhlPattern.re.right.right, Done))), s, 0, true) == None;
    assert Match(DhlLettered.left, Then(DhlLettered.right, Then(DhlPattern.re.right.right, Done)), s, 0, true) == None;
    assert Match(DhlLettered, Then(DhlPattern.re.right.right, Done), s, 0, true) == None;
    assert Match(DhlPattern.re.right.left.right, Then(DhlPattern.re.right.right, Done), s, 0, true) == None;
    assert Match(DhlPattern.re.right.left, Then(DhlPattern.re.right.right, Done), s, 0, true) == None;
    assert Match(DhlPattern.re.right, Done, s, 0, true) == None;
    assert Match(DhlPattern.re.left, Then(DhlPattern.re.right, Done), s, 0, true) == None;
  }

  lemma FedExOnUspsLkPart1(s: Bytes)
    requires SpellsUspsLk(s)
    ensures Match(FedExPattern.re, Done, s, 0, true) == None
  {
    assert Match(FedExHead.left.left.left.left.left, Then(FedExHead.left.left.left.left.right, Then(FedExHead.left.left.left.right, Then(FedExHead.left.right, Then(FedExPattern.re.right.left.right, Then(FedExPattern.re.right.right, Done))))), s, 0, true) == None;
    assert Match(FedExHead.left.left.left.left, Then(FedExHead.left.left.left.right, Then(FedExHead.left.right, Then(FedExPattern.re.right.left.right, Then(FedExPattern.re.right.right, Done)))), s, 0, true) == None;
    assert Match(FedExHead.left.left.left, Then(FedExHead.left.right, Then(FedExPattern.re.right.left.right, Then(FedExPattern.re.right.right, Done))), s, 0, true) == None;
    assert Match(FedExHead.left.left.right.left, Then(Digit, Then(FedExHead.left.right, Then(FedExPattern.re.right.left.right, Then(FedExPattern.re.right.right, Done)))), s, 0, true) == None;
    assert Match(FedExHead.left.left.right, Then(FedExHead.left.right, Then(FedExPattern.re.right.left.right, Then(FedExPattern.re.right.right, Done))), s, 0, true) == None;
    assert Match(FedExHead.left.left, Then(FedExHead.left.right, Then(FedExPattern.re.right.left.right, Then(FedExPattern.re.right.right, Done))), s, 0, true) == None;
    assert Match(FedExHead.left, Then(FedExPattern.re.right.left.right, Then(FedExPattern.re.right.right, Done)), s, 0, true) == None;
    assert Match(FedExHead.right.left.left.left, Then(FedExHead.right.left.left.right, Then(FedExHead.right.left.right, Then(FedExPattern.re.right.left.right, Then(FedExPattern.re.right.right, Done)))), s, 0, true) == None;
    assert Match(FedExHead.right.left.left, Then(FedExHead.right.left.right, Then(FedExPattern.re.right.left.right, Then(FedExPattern.re.right.right, Done))), s, 0, true) == None;
    assert Match(FedExHead.right.left, Then(FedExPattern.re.right.left.right, Then(FedExPattern.re.right.right, Done)), s, 0, true) == None;
    assert Match(Digit, Then(Rep(Digit, 3, 3), Then(FedExPattern.re.right.left.right, Then(FedExPattern.re.right.right, Done))), s, 0, true) == None;
    assert Match(FedExHead.right.right, Then(FedExPattern.re.right.left.right, Then(FedExPattern.re.right.right, Done)), s, 0, true) == None;
    assert Match(FedExHead.right, Then(FedExPattern.re.right.left.right, Then(FedExPattern.re.right.right, Done)), s, 0, true) == None;
    assert Match(FedExHead, Then(FedExPattern.re.right.left.right, Then(FedExPattern.re.right.right, Done)), s, 0, true) == None;
    assert Match(FedExPattern.re.right.left, Then(FedExPattern.re.right.right, Done), s, 0, true) == None;
    assert Match(FedExPattern.re.right, Done, s, 0, true) == None;
    assert Match(FedExPattern.re.left, Then(FedExPattern.re.right, Done), s, 0, true) == None;
  }

  lemma UpsOnUspsLkPart1(s: Bytes)
    requires SpellsUspsLk(s)
    ensures Match(UpsPattern.re, Done, s, 0, true) == None
  {
    assert Match(Ups1Z.left.left, Then(Ups1Z.left.right, Then(Ups1Z.right, Then(UpsPattern.re.right.right, Done))), s, 0, true) == None;
    assert Match(Ups1Z.left, Then(Ups1Z.right, Then(UpsPattern.re.right.right, Done)), s, 0, true) == None;
    assert Match(Ups1Z, Then(UpsPattern.re.right.right, Done), s, 0, true) == None;
    assert Match(UpsT.left, Then(UpsT.right, Then(UpsPattern.re.right.right, Done)), s, 0, true) == None;
    assert Match(UpsT, Then(UpsPattern.re.right.right, Done), s, 0, true) == None;
    assert Match(UpsPattern.re.right.left, Then(UpsPattern.re.right.right, Done), s, 0, true) == None;
    assert Match(UpsPattern.re.right, Done, s, 0, true) == None;
    assert Match(UpsPattern.re.left, Then(UpsPattern.re.right, Done), s, 0, true) == None;
  }

  lemma Usps1OnUspsLkPart1(s: Bytes)
    requires SpellsUspsLk(s)
    ensures Match(UspsRouting, Then(Rep(UspsRouting, 0, 0), Then(UspsPattern1.re.right.left.right, Then(UspsPattern1.re.right.right, Done))), s, 0, true) == None
    ensures Match(UspsServiceCode.left, Then(UspsPattern1.re.right.left.right.right, Then(UspsPattern1.re.right.right, Done)), s, 0, true) == None
    ensures Match(UspsServiceCode.right.left, Then(UspsPattern1.re.right.left.right.right, Then(UspsPattern1.re.right.right, Done)), s, 0, true) == None
    ensures Match(UspsServiceCode.right.right.left, Then(UspsPattern1.re.right.left.right.right, Then(UspsPattern1.re.right.right, Done)), s, 0, true) == None
    ensures Match(UspsServiceCode.right.right.right.left, Then(UspsPattern1.re.right.left.right.right, Then(UspsPattern1.re.right.right, Done)), s, 0, true) == None
    ensures Match(UspsServiceCode.right.right.right.right.left, Then(UspsPattern1.re.right.left.right.right, Then(UspsPattern1.re.right.right, Done)), s, 0, true) == None
    ensures Match(UspsServiceCode.right.right.right.right.right.left, Then(UspsPattern1.re.right.left.right.right, Then(UspsPattern1.re.right.right, Done)), s, 0, true) == None
    ensures Match(UspsServiceCode.right.right.right.right.right.right.left, Then(UspsPattern1.re.right.left.right.right, Then(UspsPattern1.re.right.right, Done)), s, 0, true) == None
    ensures Match(UspsServiceCode.right.right.right.right.right.right.right, Then(UspsPattern1.re.right.left.right.right, Then(UspsPattern1.re.right.right, Done)), s, 0, true) == None
  {
    assert Match(UspsRouting.left, Then(UspsRouting.right, Then(Rep(UspsRouting, 0, 0), Then(UspsPattern1.re.right.left.right, Then(UspsPattern1.re.right.right, Done)))), s, 0, true) == None;
    assert Match(UspsRouting, Then(Rep(UspsRouting, 0, 0), Then(UspsPattern1.re.right.left.right, Then(UspsPattern1.re.right.right, Done))), s, 0, true) == None;
    assert Match(UspsServiceCode.left.left, Then(UspsServiceCode.left.right, Then(UspsPattern1.re.right.left.right.right, Then(UspsPattern1.re.right.right, Done))), s, 0, true) == None;
    assert Match(UspsServiceCode.left, Then(UspsPattern1.re.right.left.right.right, Then(UspsPattern1.re.right.right, Done)), s, 0, true) == None;
    assert Match(UspsServiceCode.right.left.left, Then(UspsServiceCode.right.left.right, Then(UspsPattern1.re.right.left.right.right, Then(UspsPattern1.re.right.right, Done))), s, 0, true) == None;
    assert Match(UspsServiceCode.right.left, Then(UspsPattern1.re.right.left.right.right, Then(UspsPattern1.re.right.right, Done)), s, 0, true) == None;
    assert Match(UspsServiceCode.right.right.left.left, Then(UspsServiceCode.right.right.left.right, Then(UspsPattern1.re.right.left.right.right, Then(UspsPattern1.re.right.right, Done))), s, 0, true) == None;
    assert Match(UspsServiceCode.right.right.left, Then(UspsPattern1.re.right.left.right.right, Then(UspsPattern1.re.right.right, Done)), s, 0, true) == None;
    assert Match(UspsServiceCode.right.right.right.left.left, Then(UspsServiceCode.right.right.right.left.right, Then(UspsPattern1.re.right.left.right.right, Then(UspsPattern1.re.right.right, Done))), s, 0, true) == None;
    assert Match(UspsServiceCode.right.right.right.left, Then(UspsPattern1.re.right.left.right.right, Then(UspsPattern1.re.right.right, Done)), s, 0, true) == None;
    assert Match(UspsServiceCode.right.right.right.right.left.left, Then(UspsServiceCode.right.right.right.right.left.right, Then(UspsPattern1.re.right.left.right.right, Then(UspsPattern1.re.right.right, Done))), s, 0, true) == None;
    assert Match(UspsServiceCode.right.right.right.right.left, Then(UspsPattern1.re.right.left.right.right, Then(UspsPattern1.re.right.right, Done)), s, 0, true) == None;
    assert Match(UspsServiceCode.right.right.right.right.right.left.left, Then(UspsServiceCode.right.right.right.right.right.left.right, Then(UspsPattern1.re.right.left.right.right, Then(UspsPattern1.re.right.right, Done))), s, 0, true) == None;
    assert Match(UspsServiceCode.right.right.right.right.right.left, Then(UspsPattern1.re.right.left.right.right, Then(UspsPattern1.re.right.right, Done)), s, 0, true) == None;
    assert Match(UspsServiceCode.right.right.right.right.right.right.left.left, Then(UspsServiceCode.right.right.right.right.right.right.left.right, Then(UspsPattern1.re.right.left.right.right, Then(UspsPattern1.re.right.right, Done))), s, 0, true) == None;
    assert Match(UspsServiceCode.right.right.right.right.right.right.left, Then(UspsPattern1.re.right.left.right.right, Then(UspsPattern1.re.right.right, Done)), s, 0, true) == None;
    assert Match(UspsServiceCode.right.right.right.right.right.right.right.left.left, Then(UspsServiceCode.right.right.right.right.right.right.right.left.right, Then(UspsPattern1.re.right.left.right.right, Then(UspsPattern1.re.right.right, Done))), s, 0, true) == None;
    assert Match(UspsServiceCode.right.right.right.right.right.right.right.left, Then(UspsPattern1.re.right.left.right.right, Then(UspsPattern1.re.right.right, Done)), s, 0, true) == None;
    assert Match(UspsServiceCode.right.right.right.right.right.right.right.right.left.left, Then(UspsServiceCode.right.right.right.right.right.right.right.right.left.right, Then(UspsPattern1.re.right.left.right.right, Then(UspsPattern1.re.right.right, Done))), s, 0, true) == None;
    assert Match(UspsServiceCode.right.right.right.right.right.right.right.right.left, Then(UspsPattern1.re.right.left.right.right, Then(UspsPattern1.re.right.right, Done)), s, 0, true) == None;
    assert Match(UspsServiceCode.right.right.right.right.right.right.right.right.right.left, Then(UspsServiceCode.right.right.right.right.right.right.right.right.right.right, Then(UspsPattern1.re.right.left.right.right, Then(UspsPattern1.re.right.right, Done))), s, 0, true) == None;
    assert Match(UspsServiceCode.right.right.right.right.right.right.right.right.right, Then(UspsPattern1.re.right.left.right.right, Then(UspsPattern1.re.right.right, Done)), s, 0, true) == None;
    assert Match(UspsServiceCode.right.right.right.right.right.right.right.right, Then(UspsPattern1.re.right.left.right.right, Then(UspsPattern1.re.right.right, Done)), s, 0, true) == None;
  }

  lemma Usps1OnUspsLkPart2(s: Bytes)
    requires SpellsUspsLk(s)
    ensures Match(UspsPattern1.re, Done, s, 0, true) == None
  {
    Usps1OnUspsLkPart1(s);
    assert Match(UspsServiceCode.right.right.right.right.right.right, Then(UspsPattern1.re.right.left.right.right, Then(UspsPattern1.re.right.right, Done)), s, 0, true) == None;
    assert Match(UspsServiceCode.right.right.right.right.right, Then(UspsPattern1.re.right.left.right.right, Then(UspsPattern1.re.right.right, Done)), s, 0, true) == None;
    assert Match(UspsServiceCode.right.right.right.right, Then(UspsPattern1.re.right.left.right.right, Then(UspsPattern1.re.right.right, Done)), s, 0, true) == None;
    assert Match(UspsServiceCode.right.right.right, Then(UspsPattern1.re.right.left.right.right, Then(UspsPattern1.re.right.right, Done)), s, 0, true) == None;
    assert Match(UspsServiceCode.right.right, Then(UspsPattern1.re.right.left.right.right, Then(UspsPattern1.re.right.right, Done)), s, 0, true) == None;
    assert Match(UspsServiceCode.right, Then(UspsPattern1.re.right.left.right.right, Then(UspsPattern1.re.right.right, Done)), s, 0, true) == None;
    assert Match(UspsServiceCode, Then(UspsPattern1.re.right.left.right.right, Then(UspsPattern1.re.right.right, Done)), s, 0, true) == None;
    assert Match(UspsPattern1.re.right.left.right, Then(UspsPattern1.re.right.right, Done), s, 0, true) == None;
    assert Match(UspsPattern1.re.right.left.left, Then(UspsPattern1.re.right.left.right, Then(UspsPattern1.re.right.right, Done)), s, 0, true) == None;
    assert Match(UspsPattern1.re.right.left, Then(UspsPattern1.re.right.right, Done), s, 0, true) == None;
    assert Match(UspsPattern1.re.right, Done, s, 0, true) == None;
    assert Match(UspsPattern1.re.left, Then(UspsPattern1.re.right, Done), s, 0, true) == None;
  }

  lemma Usps2OnUspsLkPart1(s: Bytes)
    requires SpellsUspsLk(s)
    ensures Match(UspsPrefix.left, Then(UspsPattern2.re.right.left.right, Then(UspsPattern2.re.right.right, Done)), s, 0, true) == None
    ensures Match(UspsPrefix.right.left, Then(UspsPattern2.re.right.left.right, Then(UspsPattern2.re.right.right, Done)), s, 0, true) == None
    ensures Match(UspsPrefix.right.right.left, Then(UspsPattern2.re.right.left.right, Then(UspsPattern2.re.right.right, Done)), s, 0, true) == None
    ensures Match(OptSpace.body, Then(Rep(OptSpace.body, 0, 0), Then(UspsPattern2.re.right.left.right.right, Then(UspsPattern2.re.right.right, Done))), s, 2, true) == None
    ensures Match(OptSpace.body, Then(Rep(OptSpace.body, 0, 0), Then(UspsPattern2.re.right.left.right.right.right.right, Then(UspsPattern2.re.right.right, Done))), s, 5, true) == None
    ensures Match(OptSpace.body, Then(Rep(OptSpace.body, 0, 0), Then(UspsPattern2.re.right.left.right.right.right.right.right.right, Then(UspsPattern2.re.right.right, Done))), s, 8, true) == None
    ensures Match(Rep(Digit, 2, 2), Then(UspsPattern2.re.right.left.right.right.right.right.right.right.right, Then(UspsPattern2.re.right.right, Done)), s, 9, true) == Some(13)
  {
    assert Match(UspsPrefix.left, Then(UspsPattern2.re.right.left.right, Then(UspsPattern2.re.right.right, Done)), s, 0, true) == None;
    assert Match(UspsPrefix.right.left.left, Then(UspsPrefix.right.left.right, Then(UspsPattern2.re.right.left.right, Then(UspsPattern2.re.right.right, Done))), s, 0, true) == None;
    assert Match(UspsPrefix.right.left, Then(UspsPattern2.re.right.left.right, Then(UspsPattern2.re.right.right, Done)), s, 0, true) == None;
    assert Match(UspsPrefix.right.right.left.left, Then(UspsPrefix.right.right.left.right, Then(UspsPattern2.re.right.left.right, Then(UspsPattern2.re.right.right, Done))), s, 0, true) == None;
    assert Match(UspsPrefix.right.right.left, Then(UspsPattern2.re.right.left.right, Then(UspsPattern2.re.right.right, Done)), s, 0, true) == None;
    assert Match(OptSpace.body, Then(Rep(OptSpace.body, 0, 0), Then(UspsPattern2.re.right.left.right.right, Then(UspsPattern2.re.right.right, Done))), s, 2, true) == None;
    assert Match(OptSpace.body, Then(Rep(OptSpace.body, 0, 0), Then(UspsPattern2.re.right.left.right.right.right.right, Then(UspsPattern2.re.right.right, Done))), s, 5, true) == None;
    assert Match(OptSpace.body, Then(Rep(OptSpace.body, 0, 0), Then(UspsPattern2.re.right.left.right.right.right.right.right.right, Then(UspsPattern2.re.right.right, Done))), s, 8, true) == None;
    assert Match(OptSpace.body, Then(Rep(OptSpace.body, 0, 0), Then(UspsPattern2.re.right.left.right.right.right.right.right.right.right.right, Then(UspsPattern2.re.right.right, Done))), s, 11, true) == None;
    assert Match(UspsPattern2.re.right.right, Done, s, 13, true) == Some(13);
    assert Match(Rep(Letter, 0, 0), Then(UspsPattern2.re.right.right, Done), s, 13, true) == Some(13);
    assert Match(Letter, Then(Rep(Letter, 0, 0), Then(UspsPattern2.re.right.right, Done)), s, 12, true) == Some(13);
    assert Match(UspsPattern2.re.right.left.right.right.right.right.right.right.right.right.right, Then(UspsPattern2.re.right.right, Done), s, 12, true) == Some(13);
    assert Match(Rep(Letter, 0, 0), Then(UspsPattern2.re.right.left.right.right.right.right.right.right.right.right.right, Then(UspsPattern2.re.right.right, Done)), s, 12, true) == Some(13);
    assert Match(Letter, Then(Rep(Letter, 0, 0), Then(UspsPattern2.re.right.left.right.right.right.right.right.right.right.right.right, Then(UspsPattern2.re.right.right, Done))), s, 11, true) == Some(13);
    assert Match(UspsPattern2.re.right.left.right.right.right.right.right.right.right.right.left, Then(UspsPattern2.re.right.left.right.right.right.right.right.right.right.right.right, Then(UspsPattern2.re.right.right, Done)), s, 11, true) == Some(13);
    assert Match(UspsPattern2.re.right.left.right.right.right.right.right.right.right.right, Then(UspsPattern2.re.right.right, Done), s, 11, true) == Some(13);
    assert Match(OptSpace, Then(UspsPattern2.re.right.left.right.right.right.right.right.right.right.right, Then(UspsPattern2.re.right.right, Done)), s, 11, true) == Some(13);
    assert Match(UspsPattern2.re.right.left.right.right.right.right.right.right.right, Then(UspsPattern2.re.right.right, Done), s, 11, true) == Some(13);
    assert Match(Rep(Digit, 0, 0), Then(UspsPattern2.re.right.left.right.right.right.right.right.right.right, Then(UspsPattern2.re.right.right, Done)), s, 11, true) == Some(13);
    assert Match(Digit, Then(Rep(Digit, 0, 0), Then(UspsPattern2.re.right.left.right.right.right.right.right.right.right, Then(UspsPattern2.re.right.right, Done))), s, 10, true) == Some(13);
    assert Match(Rep(Digit, 1, 1), Then(UspsPattern2.re.right.left.right.right.right.right.right.right.right, Then(UspsPattern2.re.right.right, Done)), s, 10, true) == Some(13);
    assert Match(Digit, Then(Rep(Digit, 1, 1), Then(UspsPattern2.re.right.left.right.right.right.right.right.right.right, Then(UspsPattern2.re.right.right, Done))), s, 9, true) == Some(13);
  }

  lemma Usps2OnUspsLkPart2(s: Bytes)
    requires SpellsUspsLk(s)
    ensures Match(OptSpace, Then(UspsPattern2.re.right.left.right.right, Then(UspsPattern2.re.right.right, Done)), s, 2, true) == Some(13)
  {
    Usps2OnUspsLkPart1(s);
    assert Match(Digit, Then(Rep(Digit, 2, 2), Then(UspsPattern2.re.right.left.right.right.right.right.right.right.right, Then(UspsPattern2.re.right.right, Done))), s, 8, true) == Some(13);
    assert Match(UspsPattern2.re.right.left.right.right.right.right.right.right.left, Then(UspsPattern2.re.right.left.right.right.right.right.right.right.right, Then(UspsPattern2.re.right.right, Done)), s, 8, true) == Some(13);
    assert Match(UspsPattern2.re.right.left.right.right.right.right.right.right, Then(UspsPattern2.re.right.right, Done), s, 8, true) == Some(13);
    assert Match(OptSpace, Then(UspsPattern2.re.right.left.right.right.right.right.right.right, Then(UspsPattern2.re.right.right, Done)), s, 8, true) == Some(13);
    assert Match(UspsPattern2.re.right.left.right.right.right.right.right, Then(UspsPattern2.re.right.right, Done), s, 8, true) == Some(13);
    assert Match(Rep(Digit, 0, 0), Then(UspsPattern2.re.right.left.right.right.right.right.right, Then(UspsPattern2.re.right.right, Done)), s, 8, true) == Some(13);
    assert Match(Digit, Then(Rep(Digit, 0, 0), Then(UspsPattern2.re.right.left.right.right.right.right.right, Then(UspsPattern2.re.right.right, Done))), s, 7, true) == Some(13);
    assert Match(Rep(Digit, 1, 1), Then(UspsPattern2.re.right.left.right.right.right.right.right, Then(UspsPattern2.re.right.right, Done)), s, 7, true) == Some(13);
    assert Match(Digit, Then(Rep(Digit, 1, 1), Then(UspsPattern2.re.right.left.right.right.right.right.right, Then(UspsPattern2.re.right.right, Done))), s, 6, true) == Some(13);
    assert Match(Rep(Digit, 2, 2), Then(UspsPattern2.re.right.left.right.right.right.right.right, Then(UspsPattern2.re.right.right, Done)), s, 6, true) == Some(13);
    assert Match(Digit, Then(Rep(Digit, 2, 2), Then(UspsPattern2.re.right.left.right.right.right.right.right, Then(UspsPattern2.re.right.right, Done))), s, 5, true) == Some(13);
    assert Match(UspsPattern2.re.right.left.right.right.right.right.left, Then(UspsPattern2.re.right.left.right.right.right.right.right, Then(UspsPattern2.re.right.right, Done)), s, 5, true) == Some(13);
    assert Match(UspsPattern2.re.right.left.right.right.right.right, Then(UspsPattern2.re.right.right, Done), s, 5, true) == Some(13);
    assert Match(OptSpace, Then(UspsPattern2.re.right.left.right.right.right.right, Then(UspsPattern2.re.right.right, Done)), s, 5, true) == Some(13);
    assert Match(UspsPattern2.re.right.left.right.right.right, Then(UspsPattern2.re.right.right, Done), s, 5, true) == Some(13);
    assert Match(Rep(Digit, 0, 0), Then(UspsPattern2.re.right.left.right.right.right, Then(UspsPattern2.re.right.right, Done)), s, 5, true) == Some(13);
    assert Match(Digit, Then(Rep(Digit, 0, 0), Then(UspsPattern2.re.right.left.right.right.right, Then(UspsPattern2.re.right.right, Done))), s, 4, true) == Some(13);
    assert Match(Rep(Digit, 1, 1), Then(UspsPattern2.re.right.left.right.right.right, Then(UspsPattern2.re.right.right, Done)), s, 4, true) == Some(13);
    assert Match(Digit, Then(Rep(Digit, 1, 1), Then(UspsPattern2.re.right.left.right.right.right, Then(UspsPattern2.re.right.right, Done))), s, 3, true) == Some(13);
    assert Match(Rep(Digit, 2, 2), Then(UspsPattern2.re.right.left.right.right.right, Then(UspsPattern2.re.right.right, Done)), s, 3, true) == Some(13);
    assert Match(Digit, Then(Rep(Digit, 2, 2), Then(UspsPattern2.re.right.left.right.right.right, Then(UspsPattern2.re.right.right, Done))), s, 2, true) == Some(13);
    assert Match(UspsPattern2.re.right.left.right.right.left, Then(UspsPattern2.re.right.left.right.right.right, Then(UspsPattern2.re.right.right, Done)), s, 2, true) == Some(13);
    assert Match(UspsPattern2.re.right.left.right.right, Then(UspsPattern2.re.right.right, Done), s, 2, true) == Some(13);
  }

  lemma Usps2OnUspsLkPart3(s: Bytes)
    requires SpellsUspsLk(s)
    ensures Match(UspsPattern2.re, Done, s, 0, true) == Some(13)
  {
    Usps2OnUspsLkPart1(s);
    Usps2OnUspsLkPart2(s);
    assert Match(UspsPattern2.re.right.left.right, Then(UspsPattern2.re.right.right, Done), s, 2, true) == Some(13);
    assert Match(UspsPrefix.right.right.right.left.right, Then(UspsPattern2.re.right.left.right, Then(UspsPattern2.re.right.right, Done)), s, 1, true) == Some(13);
    assert Match(UspsPrefix.right.right.right.left.left, Then(UspsPrefix.right.right.right.left.right, Then(UspsPattern2.re.right.left.right, Then(UspsPattern2.re.right.right, Done))), s, 0, true) == Some(13);
    assert Match(UspsPrefix.right.right.right.left, Then(UspsPattern2.re.right.left.right, Then(UspsPattern2.re.right.right, Done)), s, 0, true) == Some(13);
    assert Match(UspsPrefix.right.right.right, Then(UspsPattern2.re.right.left.right, Then(UspsPattern2.re.right.right, Done)), s, 0, true) == Some(13);
    assert Match(UspsPrefix.right.right, Then(UspsPattern2.re.right.left.right, Then(UspsPattern2.re.right.right, Done)), s, 0, true) == Some(13);
    assert Match(UspsPrefix.right, Then(UspsPattern2.re.right.left.right, Then(UspsPattern2.re.right.right, Done)), s, 0, true) == Some(13);
    assert Match(UspsPrefix, Then(UspsPattern2.re.right.left.right, Then(UspsPattern2.re.right.right, Done)), s, 0, true) == Some(13);
    assert Match(UspsPattern2.re.right.left, Then(UspsPattern2.re.right.right, Done), s, 0, true) == Some(13);
    assert Match(UspsPattern2.re.right, Done, s, 0, true) == Some(13);
    assert Match(UspsPattern2.re.left, Then(UspsPattern2.re.right, Done), s, 0, true) == Some(13);
  }

  /** A USPS number of the second form: DHL, FedEx, UPS and the first USPS pattern fail on it and the second USPS pattern matches all of it. */
  lemma RunsOnUspsLk()
    ensures MatchAt(DhlPattern, NumUspsLk, 0) == None
    ensures MatchAt(FedExPattern, NumUspsLk, 0) == None
    ensures MatchAt(UpsPattern, NumUspsLk, 0) == None
    ensures MatchAt(UspsPattern1, NumUspsLk, 0) == None
    ensures MatchAt(UspsPattern2, NumUspsLk, 0) == Some(13)
  {
    NumUspsLkSpelled();
    DhlOnUspsLkPart1(NumUspsLk);
    FedExOnUspsLkPart1(NumUspsLk);
    UpsOnUspsLkPart1(NumUspsLk);
    Usps1OnUspsLkPart2(NumUspsLk);
    Usps2OnUspsLkPart3(NumUspsLk);
  }

  lemma DhlOnShortPart1(s: Bytes)
    requires SpellsShort(s)
    ensures Match(DhlGrouped, Then(DhlPattern.re.right.right, Done), s, 0, true) == None
    ensures Match(DhlLong, Then(DhlPattern.re.right.right, Done), s, 0, true) == None
  {
    assert Match(Digit, Then(Rep(Digit, 0, 0), Then(DhlGrouped.right, Then(DhlPattern.re.right.right, Done))), s, 3, true) == None;
    assert Match(Rep(Digit, 1, 1), Then(DhlGrouped.right, Then(DhlPattern.re.right.right, Done)), s, 3, true) == None;
    assert Match(Digit, Then(Rep(Digit, 1, 1), Then(DhlGrouped.right, Then(DhlPattern.re.right.right, Done))), s, 2, true) == None;
    assert Match(Rep(Digit, 2, 2), Then(DhlGrouped.right, Then(DhlPattern.re.right.right, Done)), s, 2, true) == None;
    assert Match(Digit, Then(Rep(Digit, 2, 2), Then(DhlGrouped.right, Then(DhlPattern.re.right.right, Done))), s, 1, true) == None;
    assert Match(Rep(Digit, 3, 3), Then(DhlGrouped.right, Then(DhlPattern.re.right.right, Done)), s, 1, true) == None;
    assert Match(Digit, Then(Rep(Digit, 3, 3), Then(DhlGrouped.right, Then(DhlPattern.re.right.right, Done))), s, 0, true) == None;
    assert Match(DhlGrouped.left, Then(DhlGrouped.right, Then(DhlPattern.re.right.right, Done)), s, 0, true) == None;
    assert Match(DhlGrouped, Then(DhlPattern.re.right.right, Done), s, 0, true) == None;
    assert Match(OptDashOrSpace.body.left, Then(Rep(OptDashOrSpace.body, 0, 0), Then(DhlLong.right.right, Then(DhlPattern.re.right.right, Done))), s, 3, true) == None;
    assert Match(OptDashOrSpace.body.right, Then(Rep(OptDashOrSpace.body, 0, 0), Then(DhlLong.right.right, Then(DhlPattern.re.right.right, Done))), s, 3, true) == None;
    assert Match(OptDashOrSpace.body, Then(Rep(OptDashOrSpace.body, 0, 0), Then(DhlLong.right.right, Then(DhlPattern.re.right.right, Done))), s, 3, true) == None;
    assert Match(Digit, Then(Rep(Digit, 7, 7), Then(DhlPattern.re.right.right, Done)), s, 3, true) == None;
    assert Match(DhlLong.right.right, Then(DhlPattern.re.right.right, Done), s, 3, true) == None;
    assert Match(OptDashOrSpace, Then(DhlLong.right.right, Then(DhlPattern.re.right.right, Done)), s, 3, true) == None;
    assert Match(DhlLong.right, Then(DhlPattern.re.right.right, Done), s, 3, true) == None;
    assert Match(Rep(Digit, 0, 0), Then(DhlLong.right, Then(DhlPattern.re.right.right, Done)), s, 3, true) == None;
    assert Match(Digit, Then(Rep(Digit, 0, 0), Then(DhlLong.right, Then(DhlPattern.re.right.right, Done))), s, 2, true) == None;
    assert Match(Rep(Digit, 1, 1), Then(DhlLong.right, Then(DhlPattern.re.right.right, Done)), s, 2, true) == None;
    assert Match(Digit, Then(Rep(Digit, 1, 1), Then(DhlLong.right, Then(DhlPattern.re.right.right, Done))), s, 1, true) == None;
    assert Match(Rep(Digit, 2, 2), Then(DhlLong.right, Then(DhlPattern.re.right.right, Done)), s, 1, true) == None;
    assert Match(Digit, Then(Rep(Digit, 2, 2), Then(DhlLong.right, Then(DhlPattern.re.right.right, Done))), s, 0, true) == None;
    assert Match(DhlLong.left, Then(DhlLong.right, Then(DhlPattern.re.right.right, Done)), s, 0, true) == None;
  }

  lemma DhlOnShortPart2(s: Bytes)
    requires SpellsShort(s)
    ensures Match(DhlPattern.re, Done, s, 0, true) == None
  {
    DhlOnShortPart1(s);
    assert Match(Letter, Then(Rep(Letter, 2, 2), Then(DhlLettered.right, Then(DhlPattern.re.right.right, Done))), s, 0, true) == None;
    assert Match(DhlLettered.left, Then(DhlLettered.right, Then(DhlPattern.re.right.right, Done)), s, 0, true) == None;
    assert Match(DhlLettered, Then(DhlPattern.re.right.right, Done), s, 0, true) == None;
    assert Match(DhlPattern.re.right.left.right, Then(DhlPattern.re.right.right, Done), s, 0, true) == None;
    assert Match(DhlPattern.re.right.left, Then(DhlPattern.re.right.right, Done), s, 0, true) == None;
    assert Match(DhlPattern.re.right, Done, s, 0, true) == None;
    assert Match(DhlPattern.re.left, Then(DhlPattern.re.right, Done), s, 0, true) == None;
  }

  lemma FedExOnShortPart1(s: Bytes)
    requires SpellsShort(s)
    ensures Match(FedExPattern.re, Done, s, 0, true) == None
  {
    assert Match(FedExHead.left.left.left.left.left, Then(FedExHead.left.left.left.left.right, Then(FedExHead.left.left.left.right, Then(FedExHead.left.right, Then(FedExPattern.re.right.left.right, Then(FedExPattern.re.right.right, Done))))), s, 0, true) == None;
    assert Match(FedExHead.left.left.left.left, Then(FedExHead.left.left.left.right, Then(FedExHead.left.right, Then(FedExPattern.re.right.left.right, Then(FedExPattern.re.right.right, Done)))), s, 0, true) == None;
    assert Match(FedExHead.left.left.left, Then(FedExHead.left.right, Then(FedExPattern.re.right.left.right, Then(FedExPattern.re.right.right, Done))), s, 0, true) == None;
    assert Match(FedExHead.left.left.right.left, Then(Digit, Then(FedExHead.left.right, Then(FedExPattern.re.right.left.right, Then(FedExPattern.re.right.right, Done)))), s, 0, true) == None;
    assert Match(FedExHead.left.left.right, Then(FedExHead.left.right, Then(FedExPattern.re.right.left.right, Then(FedExPattern.re.right.right, Done))), s, 0, true) == None;
    assert Match(FedExHead.left.left, Then(FedExHead.left.right, Then(FedExPattern.re.right.left.right, Then(FedExPattern.re.right.right, Done))), s, 0, true) == None;
    assert Match(FedExHead.left, Then(FedExPattern.re.right.left.right, Then(FedExPattern.re.right.right, Done)), s, 0, true) == None;
    assert Match(FedExHead.right.left.left.left, Then(FedExHead.right.left.left.right, Then(FedExHead.right.left.right, Then(FedExPattern.re.right.left.right, Then(FedExPattern.re.right.right, Done)))), s, 0, true) == None;
    assert Match(FedExHead.right.left.left, Then(FedExHead.right.left.right, Then(FedExPattern.re.right.left.right, Then(FedExPattern.re.right.right, Done))), s, 0, true) == None;
    assert Match(FedExHead.right.left, Then(FedExPattern.re.right.left.right, Then(FedExPattern.re.right.right, Done)), s, 0, true) == None;
    assert Match(Digit, Then(Rep(Digit, 0, 0), Then(FedExPattern.re.right.left.right, Then(FedExPattern.re.right.right, Done))), s, 3, true) == None;
    assert Match(Rep(Digit, 1, 1), Then(FedExPattern.re.right.left.right, Then(FedExPattern.re.right.right, Done)), s, 3, true) == None;
    assert Match(Digit, Then(Rep(Digit, 1, 1), Then(FedExPattern.re.right.left.right, Then(FedExPattern.re.right.right, Done))), s, 2, true) == None;
    assert Match(Rep(Digit, 2, 2), Then(FedExPattern.re.right.left.right, Then(FedExPattern.re.right.right, Done)), s, 2, true) == None;
    assert Match(Digit, Then(Rep(Digit, 2, 2), Then(FedExPattern.re.right.left.right, Then(FedExPattern.re.right.right, Done))), s, 1, true) == None;
    assert Match(Rep(Digit, 3, 3), Then(FedExPattern.re.right.left.right, Then(FedExPattern.re.right.right, Done)), s, 1, true) == None;
    assert Match(Digit, Then(Rep(Digit, 3, 3), Then(FedExPattern.re.right.left.right, Then(FedExPattern.re.right.right, Done))), s, 0, true) == None;
    assert Match(FedExHead.right.right, Then(FedExPattern.re.right.left.right, Then(FedExPattern.re.right.right, Done)), s, 0, true) == None;
    assert Match(FedExHead.right, Then(FedExPattern.re.right.left.right, Then(FedExPattern.re.right.right, Done)), s, 0, true) == None;
    assert Match(FedExHead, Then(FedExPattern.re.right.left.right, Then(FedExPattern.re.right.right, Done)), s, 0, true) == None;
    assert Match(FedExPattern.re.right.left, Then(FedExPattern.re.right.right, Done), s, 0, true) == None;
    assert Match(FedExPattern.re.right, Done, s, 0, true) == None;
    assert Match(FedExPattern.re.left, Then(FedExPattern.re.right, Done), s, 0, true) == None;
  }

  lemma UpsOnShortPart1(s: Bytes)
    requires SpellsShort(s)
    ensures Match(UpsPattern.re, Done, s, 0, true) == None
  {
    assert Match(Ups1Z.left.right, Then(Ups1Z.right, Then(UpsPattern.re.right.right, Done)), s, 1, true) == None;
    assert Match(Ups1Z.left.left, Then(Ups1Z.left.right, Then(Ups1Z.right, Then(UpsPattern.re.right.right, Done))), s, 0, true) == None;
    assert Match(Ups1Z.left, Then(Ups1Z.right, Then(UpsPattern.re.right.right, Done)), s, 0, true) == None;
    assert Match(Ups1Z, Then(UpsPattern.re.right.right, Done), s, 0, true) == None;
    assert Match(UpsT.left, Then(UpsT.right, Then(UpsPattern.re.right.right, Done)), s, 0, true) == None;
    assert Match(UpsT, Then(UpsPattern.re.right.right, Done), s, 0, true) == None;
    assert Match(UpsPattern.re.right.left, Then(UpsPattern.re.right.right, Done), s, 0, true) == None;
    assert Match(UpsPattern.re.right, Done, s, 0, true) == None;
    assert Match(UpsPattern.re.left, Then(UpsPattern.re.right, Done), s, 0, true) == None;
  }

  lemma Usps1OnShortPart1(s: Bytes)
    requires SpellsShort(s)
    ensures Match(UspsRouting, Then(Rep(UspsRouting, 0, 0), Then(UspsPattern1.re.right.left.right, Then(UspsPattern1.re.right.right, Done))), s, 0, true) == None
    ensures Match(UspsServiceCode.left, Then(UspsPattern1.re.right.left.right.right, Then(UspsPattern1.re.right.right, Done)), s, 0, true) == None
    ensures Match(UspsServiceCode.right.left, Then(UspsPattern1.re.right.left.right.right, Then(UspsPattern1.re.right.right, Done)), s, 0, true) == None
    ensures Match(UspsServiceCode.right.right.left, Then(UspsPattern1.re.right.left.right.right, Then(UspsPattern1.re.right.right, Done)), s, 0, true) == None
    ensures Match(UspsServiceCode.right.right.right.left, Then(UspsPattern1.re.right.left.right.right, Then(UspsPattern1.re.right.right, Done)), s, 0, true) == None
    ensures Match(UspsServiceCode.right.right.right.right.left, Then(UspsPattern1.re.right.left.right.right, Then(UspsPattern1.re.right.right, Done)), s, 0, true) == None
    ensures Match(UspsServiceCode.right.right.right.right.right.left, Then(UspsPattern1.re.right.left.right.right, Then(UspsPattern1.re.right.right, Done)), s, 0, true) == None
    ensures Match(UspsServiceCode.right.right.right.right.right.right.left, Then(UspsPattern1.re.right.left.right.right, Then(UspsPattern1.re.right.right, Done)), s, 0, true) == None
    ensures Match(UspsServiceCode.right.right.right.right.right.right.right.left, Then(UspsPattern1.re.right.left.right.right, Then(UspsPattern1.re.right.right, Done)), s, 0, true) == None
    ensures Match(UspsServiceCode.right.right.right.right.right.right.right.right, Then(UspsPattern1.re.right.left.right.right, Then(UspsPattern1.re.right.right, Done)), s, 0, true) == None
  {
    assert Match(UspsRouting.left, Then(UspsRouting.right, Then(Rep(UspsRouting, 0, 0), Then(UspsPattern1.re.right.left.right, Then(UspsPattern1.re.right.right, Done)))), s, 0, true) == None;
    assert Match(UspsRouting, Then(Rep(UspsRouting, 0, 0), Then(UspsPattern1.re.right.left.right, Then(UspsPattern1.re.right.right, Done))), s, 0, true) == None;
    assert Match(UspsServiceCode.left.left, Then(UspsServiceCode.left.right, Then(UspsPattern1.re.right.left.right.right, Then(UspsPattern1.re.right.right, Done))), s, 0, true) == None;
    assert Match(UspsServiceCode.left, Then(UspsPattern1.re.right.left.right.right, Then(UspsPattern1.re.right.right, Done)), s, 0, true) == None;
    assert Match(UspsServiceCode.right.left.left, Then(UspsServiceCode.right.left.right, Then(UspsPattern1.re.right.left.right.right, Then(UspsPattern1.re.right.right, Done))), s, 0, true) == None;
    assert Match(UspsServiceCode.right.left, Then(UspsPattern1.re.right.left.right.right, Then(UspsPattern1.re.right.right, Done)), s, 0, true) == None;
    assert Match(UspsServiceCode.right.right.left.left, Then(UspsServiceCode.right.right.left.right, Then(UspsPattern1.re.right.left.right.right, Then(UspsPattern1.re.right.right, Done))), s, 0, true) == None;
    assert Match(UspsServiceCode.right.right.left, Then(UspsPattern1.re.right.left.right.right, Then(UspsPattern1.re.right.right, Done)), s, 0, true) == None;
    assert Match(UspsServiceCode.right.right.right.left.left, Then(UspsServiceCode.right.right.right.left.right, Then(UspsPattern1.re.right.left.right.right, Then(UspsPattern1.re.right.right, Done))), s, 0, true) == None;
    assert Match(UspsServiceCode.right.right.right.left, Then(UspsPattern1.re.right.left.right.right, Then(UspsPattern1.re.right.right, Done)), s, 0, true) == None;
    assert Match(UspsServiceCode.right.right.right.right.left.left, Then(UspsServiceCode.right.right.right.right.left.right, Then(UspsPattern1.re.right.left.right.right, Then(UspsPattern1.re.right.right, Done))), s, 0, true) == None;
    assert Match(UspsServiceCode.right.right.right.right.left, Then(UspsPattern1.re.right.left.right.right, Then(UspsPattern1.re.right.right, Done)), s, 0, true) == None;
    assert Match(UspsServiceCode.right.right.right.right.right.left.left, Then(UspsServiceCode.right.right.right.right.right.left.right, Then(UspsPattern1.re.right.left.right.right, Then(UspsPattern1.re.right.right, Done))), s, 0, true) == None;
    assert Match(UspsServiceCode.right.right.right.right.right.left, Then(UspsPattern1.re.right.left.right.right, Then(UspsPattern1.re.right.right, Done)), s, 0, true) == None;
    assert Match(UspsServiceCode.right.right.right.right.right.right.left.left, Then(UspsServiceCode.right.right.right.right.right.right.left.right, Then(UspsPattern1.re.right.left.right.right, Then(UspsPattern1.re.right.right, Done))), s, 0, true) == None;
    assert Match(UspsServiceCode.right.right.right.right.right.right.left, Then(UspsPattern1.re.right.left.right.right, Then(UspsPattern1.re.right.right, Done)), s, 0, true) == None;
    assert Match(UspsServiceCode.right.right.right.right.right.right.right.left.left, Then(UspsServiceCode.right.right.right.right.right.right.right.left.right, Then(UspsPattern1.re.right.left.right.right, Then(UspsPattern1.re.right.right, Done))), s, 0, true) == None;
    assert Match(UspsServiceCode.right.right.right.right.right.right.right.left, Then(UspsPattern1.re.right.left.right.right, Then(UspsPattern1.re.right.right, Done)), s, 0, true) == None;
    assert Match(UspsServiceCode.right.right.right.right.right.right.right.right.left.left, Then(UspsServiceCode.right.right.right.right.right.right.right.right.left.right, Then(UspsPattern1.re.right.left.right.right, Then(UspsPattern1.re.right.right, Done))), s, 0, true) == None;
    assert Match(UspsServiceCode.right.right.right.right.right.right.right.right.left, Then(UspsPattern1.re.right.left.right.right, Then(UspsPattern1.re.right.right, Done)), s, 0, true) == None;
    assert Match(UspsServiceCode.right.right.right.right.right.right.right.right.right.right, Then(UspsPattern1.re.right.left.right.right, Then(UspsPattern1.re.right.right, Done)), s, 1, true) == None;
    assert Match(UspsServiceCode.right.right.right.right.right.right.right.right.right.left, Then(UspsServiceCode.right.right.right.right.right.right.right.right.right.right, Then(UspsPattern1.re.right.left.right.right, Then(UspsPattern1.re.right.right, Done))), s, 0, true) == None;
    assert Match(UspsServiceCode.right.right.right.right.right.right.right.right.right, Then(UspsPattern1.re.right.left.right.right, Then(UspsPattern1.re.right.right, Done)), s, 0, true) == None;
  }

  lemma Usps1OnShortPart2(s: Bytes)
    requires SpellsShort(s)
    ensures Match(UspsPattern1.re, Done, s, 0, true) == None
  {
    Usps1OnShortPart1(s);
    assert Match(UspsServiceCode.right.right.right.right.right.right.right, Then(UspsPattern1.re.right.left.right.right, Then(UspsPattern1.re.right.right, Done)), s, 0, true) == None;
    assert Match(UspsServiceCode.right.right.right.right.right.right, Then(UspsPattern1.re.right.left.right.right, Then(UspsPattern1.re.right.right, Done)), s, 0, true) == None;
    assert Match(UspsServiceCode.right.right.right.right.right, Then(UspsPattern1.re.right.left.right.right, Then(UspsPattern1.re.right.right, Done)), s, 0, true) == None;
    assert Match(UspsServiceCode.right.right.right.right, Then(UspsPattern1.re.right.left.right.right, Then(UspsPattern1.re.right.right, Done)), s, 0, true) == None;
    assert Match(UspsServiceCode.right.right.right, Then(UspsPattern1.re.right.left.right.right, Then(UspsPattern1.re.right.right, Done)), s, 0, true) == None;
    assert Match(UspsServiceCode.right.right, Then(UspsPattern1.re.right.left.right.right, Then(UspsPattern1.re.right.right, Done)), s, 0, true) == None;
    assert Match(UspsServiceCode.right, Then(UspsPattern1.re.right.left.right.right, Then(UspsPattern1.re.right.right, Done)), s, 0, true) == None;
    assert Match(UspsServiceCode, Then(UspsPattern1.re.right.left.right.right, Then(UspsPattern1.re.right.right, Done)), s, 0, true) == None;
    assert Match(UspsPattern1.re.right.left.right, Then(UspsPattern1.re.right.right, Done), s, 0, true) == None;
    assert Match(UspsPattern1.re.right.left.left, Then(UspsPattern1.re.right.left.right, Then(UspsPattern1.re.right.right, Done)), s, 0, true) == None;
    assert Match(UspsPattern1.re.right.left, Then(UspsPattern1.re.right.right, Done), s, 0, true) == None;
    assert Match(UspsPattern1.re.right, Done, s, 0, true) == None;
    assert Match(UspsPattern1.re.left, Then(UspsPattern1.re.right, Done), s, 0, true) == None;
  }

  lemma Usps2OnShortPart1(s: Bytes)
    requires SpellsShort(s)
    ensures Match(UspsPrefix.left, Then(UspsPattern2.re.right.left.right, Then(UspsPattern2.re.right.right, Done)), s, 0, true) == None
    ensures Match(UspsPrefix.right.left, Then(UspsPattern2.re.right.left.right, Then(UspsPattern2.re.right.right, Done)), s, 0, true) == None
    ensures Match(UspsPrefix.right.right.left, Then(UspsPattern2.re.right.left.right, Then(UspsPattern2.re.right.right, Done)), s, 0, true) == None
    ensures Match(UspsPrefix.right.right.right.left, Then(UspsPattern2.re.right.left.right, Then(UspsPattern2.re.right.right, Done)), s, 0, true) == None
    ensures Match(UspsPrefix.right.right.right.right.left, Then(UspsPattern2.re.right.left.right, Then(UspsPattern2.re.right.right, Done)), s, 0, true) == None
    ensures Match(UspsPrefix.right.right.right.right.right.left, Then(UspsPattern2.re.right.left.right, Then(UspsPattern2.re.right.right, Done)), s, 0, true) == None
    ensures Match(UspsPrefix.right.right.right.right.right.right.left, Then(UspsPattern2.re.right.left.right, Then(UspsPattern2.re.right.right, Done)), s, 0, true) == None
    ensures Match(UspsPrefix.right.right.right.right.right.right.right, Then(UspsPattern2.re.right.left.right, Then(UspsPattern2.re.right.right, Done)), s, 0, true) == None
  {
    assert Match(UspsPrefix.left, Then(UspsPattern2.re.right.left.right, Then(UspsPattern2.re.right.right, Done)), s, 0, true) == None;
    assert Match(UspsPrefix.right.left.left, Then(UspsPrefix.right.left.right, Then(UspsPattern2.re.right.left.right, Then(UspsPattern2.re.right.right, Done))), s, 0, true) == None;
    assert Match(UspsPrefix.right.left, Then(UspsPattern2.re.right.left.right, Then(UspsPattern2.re.right.right, Done)), s, 0, true) == None;
    assert Match(UspsPrefix.right.right.left.left, Then(UspsPrefix.right.right.left.right, Then(UspsPattern2.re.right.left.right, Then(UspsPattern2.re.right.right, Done))), s, 0, true) == None;
    assert Match(UspsPrefix.right.right.left, Then(UspsPattern2.re.right.left.right, Then(UspsPattern2.re.right.right, Done)), s, 0, true) == None;
    assert Match(UspsPrefix.right.right.right.left.left, Then(UspsPrefix.right.right.right.left.right, Then(UspsPattern2.re.right.left.right, Then(UspsPattern2.re.right.right, Done))), s, 0, true) == None;
    assert Match(UspsPrefix.right.right.right.left, Then(UspsPattern2.re.right.left.right, Then(UspsPattern2.re.right.right, Done)), s, 0, true) == None;
    assert Match(UspsPrefix.right.right.right.right.left.left, Then(UspsPrefix.right.right.right.right.left.right, Then(UspsPattern2.re.right.left.right, Then(UspsPattern2.re.right.right, Done))), s, 0, true) == None;
    assert Match(UspsPrefix.right.right.right.right.left, Then(UspsPattern2.re.right.left.right, Then(UspsPattern2.re.right.right, Done)), s, 0, true) == None;
    assert Match(UspsPrefix.right.right.right.right.right.left.left, Then(Letter, Then(UspsPattern2.re.right.left.right, Then(UspsPattern2.re.right.right, Done))), s, 0, true) == None;
    assert Match(UspsPrefix.right.right.right.right.right.left, Then(UspsPattern2.re.right.left.right, Then(UspsPattern2.re.right.right, Done)), s, 0, true) == None;
    assert Match(UspsPrefix.right.right.right.right.right.right.left.left, Then(Letter, Then(UspsPattern2.re.right.left.right, Then(UspsPattern2.re.right.right, Done))), s, 0, true) == None;
    assert Match(UspsPrefix.right.right.right.right.right.right.left, Then(UspsPattern2.re.right.left.right, Then(UspsPattern2.re.right.right, Done)), s, 0, true) == None;
    assert Match(UspsPrefix.right.right.right.right.right.right.right.left.left, Then(UspsPrefix.right.right.right.right.right.right.right.left.right, Then(UspsPattern2.re.right.left.right, Then(UspsPattern2.re.right.right, Done))), s, 0, true) == None;
    assert Match(UspsPrefix.right.right.right.right.right.right.right.left, Then(UspsPattern2.re.right.left.right, Then(UspsPattern2.re.right.right, Done)), s, 0, true) == None;
    assert Match(UspsPrefix.right.right.right.right.right.right.right.right.left.left, Then(UspsPrefix.right.right.right.right.right.right.right.right.left.right, Then(UspsPattern2.re.right.left.right, Then(UspsPattern2.re.right.right, Done))), s, 0, true) == None;
    assert Match(UspsPrefix.right.right.right.right.right.right.right.right.left, Then(UspsPattern2.re.right.left.right, Then(UspsPattern2.re.right.right, Done)), s, 0, true) == None;
    assert Match(UspsPrefix.right.right.right.right.right.right.right.right.right.left.left, Then(UspsPrefix.right.right.right.right.right.right.right.right.right.left.right, Then(UspsPattern2.re.right.left.right, Then(UspsPattern2.re.right.right, Done))), s, 0, true) == None;
    assert Match(UspsPrefix.right.right.right.right.right.right.right.right.right.left, Then(UspsPattern2.re.right.left.right, Then(UspsPattern2.re.right.right, Done)), s, 0, true) == None;
    assert Match(UspsPrefix.right.right.right.right.right.right.right.right.right.right.left, Then(UspsPrefix.right.right.right.right.right.right.right.right.right.right.right, Then(UspsPattern2.re.right.left.right, Then(UspsPattern2.re.right.right, Done))), s, 0, true) == None;
    assert Match(UspsPrefix.right.right.right.right.right.right.right.right.right.right, Then(UspsPattern2.re.right.left.right, Then(UspsPattern2.re.right.right, Done)), s, 0, true) == None;
    assert Match(UspsPrefix.right.right.right.right.right.right.right.right.right, Then(UspsPattern2.re.right.left.right, Then(UspsPattern2.re.right.right, Done)), s, 0, true) == None;
    assert Match(UspsPrefix.right.right.right.right.right.right.right.right, Then(UspsPattern2.re.right.left.right, Then(UspsPattern2.re.right.right, Done)), s, 0, true) == None;
  }

  lemma Usps2OnShortPart2(s: Bytes)
    requires SpellsShort(s)
    ensures Match(UspsPattern2.re, Done, s, 0, true) == None
  {
    Usps2OnShortPart1(s);
    assert Match(UspsPrefix.right.right.right.right.right.right, Then(UspsPattern2.re.right.left.right, Then(UspsPattern2.re.right.right, Done)), s, 0, true) == None;
    assert Match(UspsPrefix.right.right.right.right.right, Then(UspsPattern2.re.right.left.right, Then(UspsPattern2.re.right.right, Done)), s, 0, true) == None;
    assert Match(UspsPrefix.right.right.right.right, Then(UspsPattern2.re.right.left.right, Then(UspsPattern2.re.right.right, Done)), s, 0, true) == None;
    assert Match(UspsPrefix.right.right.right, Then(UspsPattern2.re.right.left.right, Then(UspsPattern2.re.right.right, Done)), s, 0, true) == None;
    assert Match(UspsPrefix.right.right, Then(UspsPattern2.re.right.left.right, Then(UspsPattern2.re.right.right, Done)), s, 0, true) == None;
    assert Match(UspsPrefix.right, Then(UspsPattern2.re.right.left.right, Then(UspsPattern2.re.right.right, Done)), s, 0, true) == None;
    assert Match(UspsPrefix, Then(UspsPattern2.re.right.left.right, Then(UspsPattern2.re.right.right, Done)), s, 0, true) == None;
    assert Match(UspsPattern2.re.right.left, Then(UspsPattern2.re.right.right, Done), s, 0, true) == None;
    assert Match(UspsPattern2.re.right, Done, s, 0, true) == None;
    assert Match(UspsPattern2.re.left, Then(UspsPattern2.re.right, Done), s, 0, true) == None;
  }

  lemma Usps3OnShortPart1(s: Bytes)
    requires SpellsShort(s)
    ensures Match(UspsPattern3.re, Done, s, 0, true) == None
  {
    assert Match(UspsPattern3.re.right.left.left.left, Then(UspsPattern3.re.right.left.left.right, Then(UspsPattern3.re.right.left.right, Then(UspsPattern3.re.right.right, Done))), s, 0, true) == None;
    assert Match(UspsPattern3.re.right.left.left, Then(UspsPattern3.re.right.left.right, Then(UspsPattern3.re.right.right, Done)), s, 0, true) == None;
    assert Match(UspsPattern3.re.right.left, Then(UspsPattern3.re.right.right, Done), s, 0, true) == None;
    assert Match(UspsPattern3.re.right, Done, s, 0, true) == None;
    assert Match(UspsPattern3.re.left, Then(UspsPattern3.re.right, Done), s, 0, true) == None;
  }

  lemma RoyalMailOnShortPart1(s: Bytes)
    requires SpellsShort(s)
    ensures Match(RoyalMailPattern.re.right, Done, s, 0, true) == None
  {
    assert Match(RoyalMailReserved.left.left, Then(RoyalMailReserved.left.right, Done), s, 0, true) == None;
    assert Match(RoyalMailReserved.left, Done, s, 0, true) == None;
    assert Match(RoyalMailReserved.right.left.left, Then(RoyalMailReserved.right.left.right, Done), s, 0, true) == None;
    assert Match(RoyalMailReserved.right.left, Done, s, 0, true) == None;
    assert Match(RoyalMailReserved.right.right.left.left, Then(RoyalMailReserved.right.right.left.right, Done), s, 0, true) == None;
    assert Match(RoyalMailReserved.right.right.left, Done, s, 0, true) == None;
    assert Match(RoyalMailReserved.right.right.right.left.left, Then(RoyalMailReserved.right.right.right.left.right, Done), s, 0, true) == None;
    assert Match(RoyalMailReserved.right.right.right.left, Done, s, 0, true) == None;
    assert Match(RoyalMailReserved.right.right.right.right.left.left, Then(RoyalMailReserved.right.right.right.right.left.right, Done), s, 0, true) == None;
    assert Match(RoyalMailReserved.right.right.right.right.left, Done, s, 0, true) == None;
    assert Match(RoyalMailReserved.right.right.right.right.right.left, Then(RoyalMailReserved.right.right.right.right.right.right, Done), s, 0, true) == None;
    assert Match(RoyalMailReserved.right.right.right.right.right, Done, s, 0, true) == None;
    assert Match(RoyalMailReserved.right.right.right.right, Done, s, 0, true) == None;
    assert Match(RoyalMailReserved.right.right.right, Done, s, 0, true) == None;
    assert Match(RoyalMailReserved.right.right, Done, s, 0, true) == None;
    assert Match(RoyalMailReserved.right, Done, s, 0, true) == None;
    assert Match(RoyalMailReserved, Done, s, 0, true) == None;
    assert Match(RoyalMailPattern.re.right.right.left.body.left, Then(Rep(RoyalMailPattern.re.right.right.left.body, 1, 1), Then(RoyalMailPattern.re.right.right.right, Done)), s, 0, true) == None;
    assert Match(RoyalMailPattern.re.right.right.left.body.right, Then(Rep(RoyalMailPattern.re.right.right.left.body, 1, 1), Then(RoyalMailPattern.re.right.right.right, Done)), s, 0, true) == None;
    assert Match(RoyalMailPattern.re.right.right.left.body, Then(Rep(RoyalMailPattern.re.right.right.left.body, 1, 1), Then(RoyalMailPattern.re.right.right.right, Done)), s, 0, true) == None;
    assert Match(RoyalMailPattern.re.right.right.left, Then(RoyalMailPattern.re.right.right.right, Done), s, 0, true) == None;
    assert Match(RoyalMailPattern.re.right.right, Done, s, 0, true) == None;
    assert Match(RoyalMailPattern.re.right.left, Then(RoyalMailPattern.re.right.right, Done), s, 0, true) == None;
  }

  lemma RoyalMailOnShortPart2(s: Bytes)
    requires SpellsShort(s)
    ensures Match(RoyalMailPattern.re, Done, s, 0, true) == None
  {
    RoyalMailOnShortPart1(s);
    assert Match(RoyalMailPattern.re.left, Then(RoyalMailPattern.re.right, Done), s, 0, true) == None;
  }

  /** A number too short for any carrier: no pattern matches at its start. */
  lemma RunsOnShort()
    ensures MatchAt(DhlPattern, NumShort, 0) == None
    ensures MatchAt(FedExPattern, NumShort, 0) == None
    ensures MatchAt(UpsPattern, NumShort, 0) == None
    ensures MatchAt(UspsPattern1, NumShort, 0) == None
    ensures MatchAt(UspsPattern2, NumShort, 0) == None
    ensures MatchAt(UspsPattern3, NumShort, 0) == None
    ensures MatchAt(RoyalMailPattern, NumShort, 0) == None
  {
    NumShortSpelled();
    DhlOnShortPart2(NumShort);
    FedExOnShortPart1(NumShort);
    UpsOnShortPart1(NumShort);
    Usps1OnShortPart2(NumShort);
    Usps2OnShortPart2(NumShort);
    Usps3OnShortPart1(NumShort);
    RoyalMailOnShortPart2(NumShort);
  }
}
