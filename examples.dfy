/**
 * The classifier on typical numbers of each carrier and on a few near misses: which
 * carrier each one gets, and which get none.
 */
module Examples {
  import opened Text
  import opened Regex
  import opened Carriers
  import opened Classify
  import opened Samples
  import opened Traces
  import opened RoyalMailRules

  /**
   * `8212345678` fits both DHL and the third USPS pattern; DHL comes first in the
   * table, so the number is DHL's.
   */
  lemma DhlBeforeUsps()
    ensures WholeMatch(DhlPattern, NumAwb) && WholeMatch(UspsPattern3, NumAwb)
    ensures GetLinkData(Table, NumAwb) == Some(LinkData("DHL", DhlUrlPrefix + NumAwb))
  {
    RunsOnAwb();
    WholeMatchAtStart(DhlPattern, NumAwb);
    WholeMatchAtStart(UspsPattern3, NumAwb);
    TableDecision(NumAwb);
    NumAwbSpelled();
    AwbUnreserved(NumAwb);
    PlainNumberUrl(Dhl, NumAwb);
  }

  /** `123456789012` is a FedEx number. */
  lemma FedExNumber()
    ensures GetLinkData(Table, NumTwelve) == Some(LinkData("FedEx", FedExUrlPrefix + NumTwelve))
  {
    RunsOnTwelve();
    WholeMatchAtStart(DhlPattern, NumTwelve);
    WholeMatchAtStart(FedExPattern, NumTwelve);
    TableDecision(NumTwelve);
    NumTwelveSpelled();
    TwelveUnreserved(NumTwelve);
    PlainNumberUrl(FedEx, NumTwelve);
  }

  /** `1Z999AA10123456784` is a UPS number, and `getLinkUrl` gives its URL. */
  lemma UpsNumber()
    ensures GetLinkData(Table, NumUps) == Some(LinkData("UPS", UpsUrlPrefix + NumUps))
    ensures GetLinkUrl(Table, NumUps) == Some(UpsUrlPrefix + NumUps)
  {
    RunsOnUps();
    WholeMatchAtStart(DhlPattern, NumUps);
    WholeMatchAtStart(FedExPattern, NumUps);
    WholeMatchAtStart(UpsPattern, NumUps);
    TableDecision(NumUps);
    NumUpsSpelled();
    UpsUnreserved(NumUps);
    PlainNumberUrl(Ups, NumUps);
  }

  /**
   * `x 1Z999AA10123456784`: `preg_match` finds the UPS number from position 2 on, but
   * that match is not the whole input, so the input is no tracking number.
   */
  lemma LeadingTextRejected()
    ensures Search(UpsPattern, NumLed, 0) == Some(Span(2, 20))
    ensures !WholeMatch(UpsPattern, NumLed)
    ensures GetLinkData(Table, NumLed) == None
  {
    LeadingTextFound();
    RunsOnLed();
    MissesEverywhere(NumLed);
  }

  /** The UPS match in `x 1Z999AA10123456784` is found, from 2 to the end, and is not all of it. */
  lemma LeadingTextFound()
    ensures Search(UpsPattern, NumLed, 0) == Some(Span(2, 20))
    ensures !WholeMatch(UpsPattern, NumLed)
  {
    RunsOnLed();
    NumLedSpelled();
    SearchSkipsTwo(UpsPattern, NumLed);
    assert |NumLed[2..20]| != |NumLed|;
  }

  /** No match at 0 or 1 and one at 2: the leftmost match is the one at 2. */
  lemma SearchSkipsTwo(p: Pattern, s: Bytes)
    requires 2 <= |s| && MatchAt(p, s, 0).None? && MatchAt(p, s, 1).None? && MatchAt(p, s, 2).Some?
    ensures Search(p, s, 0) == Some(Span(2, MatchAt(p, s, 2).value))
  {
  }

  /** `prefix 1Z999AA10123456784 suffix` is no tracking number. */
  lemma EmbeddedRejected()
    ensures GetLinkData(Table, NumEmbedded) == None
  {
    RunsOnEmbedded();
    MissesEverywhere(NumEmbedded);
  }

  /** `AB123456785GB` is a Royal Mail number. */
  lemma RoyalMailNumber()
    ensures GetLinkData(Table, NumRoyalAb) == Some(LinkData("Royal Mail", RoyalMailUrlPrefix + NumRoyalAb))
  {
    RunsOnRoyalAb();
    NumRoyalAbSpelled();
    forall j | 2 <= j < 11 ensures '0' <= NumRoyalAb[j] <= '9' {
      assert j == 2 || j == 3 || j == 4 || j == 5 || j == 6 || j == 7 || j == 8 || j == 9 || j == 10;
    }
    AcceptsShape(NumRoyalAb, 0);
    RoyalMailOnly(NumRoyalAb);
    RoyalAbUnreserved(NumRoyalAb);
    PlainNumberUrl(RoyalMail, NumRoyalAb);
  }

  /** The pattern is caseless: `ab123456785gb` is a Royal Mail number too. */
  lemma RoyalMailLowerCase()
    ensures GetLinkData(Table, NumRoyalLower) == Some(LinkData("Royal Mail", RoyalMailUrlPrefix + NumRoyalLower))
  {
    RunsOnRoyalLower();
    NumRoyalLowerSpelled();
    forall j | 2 <= j < 11 ensures '0' <= NumRoyalLower[j] <= '9' {
      assert j == 2 || j == 3 || j == 4 || j == 5 || j == 6 || j == 7 || j == 8 || j == 9 || j == 10;
    }
    AcceptsShape(NumRoyalLower, 0);
    RoyalMailOnly(NumRoyalLower);
    RoyalLowerUnreserved(NumRoyalLower);
    PlainNumberUrl(RoyalMail, NumRoyalLower);
  }

  /** The reserved prefix `EE` keeps `EE123456785GB` from being a Royal Mail number. */
  lemma ReservedPrefixRejected()
    ensures GetLinkData(Table, NumRoyalEe) == None
  {
    RunsOnRoyalEe();
    NumRoyalEeSpelled();
    RejectsReserved(NumRoyalEe, 0);
    MissesEverywhere(NumRoyalEe);
  }

  /** A number that only the Royal Mail pattern matches, from its start to its end, is Royal Mail's. */
  lemma RoyalMailOnly(tn: Bytes)
    requires MatchAt(DhlPattern, tn, 0).None? && MatchAt(FedExPattern, tn, 0).None?
    requires MatchAt(UpsPattern, tn, 0).None? && MatchAt(UspsPattern1, tn, 0).None?
    requires MatchAt(UspsPattern2, tn, 0).None? && MatchAt(UspsPattern3, tn, 0).None?
    requires MatchAt(RoyalMailPattern, tn, 0) == Some(|tn|)
    ensures GetLinkData(Table, tn) == Some(LinkData("Royal Mail", TrackingUrl(RoyalMail, tn)))
  {
    WholeMatchAtStart(DhlPattern, tn);
    WholeMatchAtStart(FedExPattern, tn);
    WholeMatchAtStart(UpsPattern, tn);
    WholeMatchAtStart(UspsPattern1, tn);
    WholeMatchAtStart(UspsPattern2, tn);
    WholeMatchAtStart(UspsPattern3, tn);
    WholeMatchAtStart(RoyalMailPattern, tn);
    TableDecision(tn);
  }

  /** `9400111899560123456789` is a USPS number, by the first USPS pattern. */
  lemma UspsNumber()
    ensures WholeMatch(UspsPattern1, NumUsps)
    ensures GetLinkData(Table, NumUsps) == Some(LinkData("USPS", UspsUrlPrefix + NumUsps))
  {
    RunsOnUsps();
    WholeMatchAtStart(DhlPattern, NumUsps);
    WholeMatchAtStart(FedExPattern, NumUsps);
    WholeMatchAtStart(UpsPattern, NumUsps);
    WholeMatchAtStart(UspsPattern1, NumUsps);
    TableDecision(NumUsps);
    NumUspsSpelled();
    UspsUnreserved(NumUsps);
    PlainNumberUrl(Usps, NumUsps);
  }

  /** `LK123456789US` is a USPS number, by the second USPS pattern. */
  lemma UspsSecondForm()
    ensures WholeMatch(UspsPattern2, NumUspsLk)
    ensures GetLinkData(Table, NumUspsLk) == Some(LinkData("USPS", UspsUrlPrefix + NumUspsLk))
  {
    RunsOnUspsLk();
    WholeMatchAtStart(DhlPattern, NumUspsLk);
    WholeMatchAtStart(FedExPattern, NumUspsLk);
    WholeMatchAtStart(UpsPattern, NumUspsLk);
    WholeMatchAtStart(UspsPattern1, NumUspsLk);
    WholeMatchAtStart(UspsPattern2, NumUspsLk);
    TableDecision(NumUspsLk);
    NumUspsLkSpelled();
    UspsLkUnreserved(NumUspsLk);
    PlainNumberUrl(Usps, NumUspsLk);
  }

  /** `123` is no tracking number. */
  lemma ShortRejected()
    ensures GetLinkData(Table, NumShort) == None
  {
    RunsOnShort();
    MissesEverywhere(NumShort);
  }

  /** The empty string is no tracking number, and `getLinkUrl` gives null for it. */
  lemma EmptyRejected()
    ensures GetLinkData(Table, []) == None
    ensures GetLinkUrl(Table, []) == None
  {
    TableValid();
    EmptyHasNoLink(Table);
  }

  /** A number none of the seven patterns matches at its start gets no carrier. */
  lemma MissesEverywhere(tn: Bytes)
    requires MatchAt(DhlPattern, tn, 0).None? && MatchAt(FedExPattern, tn, 0).None?
    requires MatchAt(UpsPattern, tn, 0).None? && MatchAt(UspsPattern1, tn, 0).None?
    requires MatchAt(UspsPattern2, tn, 0).None? && MatchAt(UspsPattern3, tn, 0).None?
    requires MatchAt(RoyalMailPattern, tn, 0).None?
    ensures GetLinkData(Table, tn) == None
  {
    WholeMatchAtStart(DhlPattern, tn);
    WholeMatchAtStart(FedExPattern, tn);
    WholeMatchAtStart(UpsPattern, tn);
    WholeMatchAtStart(UspsPattern1, tn);
    WholeMatchAtStart(UspsPattern2, tn);
    WholeMatchAtStart(UspsPattern3, tn);
    WholeMatchAtStart(RoyalMailPattern, tn);
    TableDecision(tn);
  }
}
