/**
 * `getLinkData` and `getLinkUrl`: classify a tracking number by trying the carriers in
 * order and, within a carrier, its patterns in order; the first pattern whose match is
 * the whole input decides the carrier and the URL.
 */
module Classify {
  import opened Text
  import opened Regex
  import opened Template
  import opened UrlEncode
  import opened Carriers

  /** What `getLinkData` returns on success: the carrier's label and its tracking URL. */
  datatype LinkData = LinkData(carrier: Bytes, url: Bytes)

  /** A (carrier, pattern) index pair, in the order the two loops visit them. */
  datatype Position = Position(carrier: nat, pattern: nat)

  /**
   * `preg_match(p, tn, $matches)` succeeds and `$matches[0]`, the leftmost match, is
   * the whole of tn.
   */
  predicate WholeMatch(p: Pattern, tn: Bytes)
  {
    match Search(p, tn, 0)
    case None => false
    case Some(sp) => tn[sp.start..sp.end] == tn
  }

  /** The leftmost match is the whole input exactly when the match at 0 runs to the end. */
  lemma WholeMatchAtStart(p: Pattern, tn: Bytes)
    ensures WholeMatch(p, tn) <==> MatchAt(p, tn, 0) == Some(|tn|)
  {
    match Search(p, tn, 0)
    case None =>
      assert !WholeMatch(p, tn);
      assert MatchAt(p, tn, 0).None?;
    case Some(sp) =>
      if WholeMatch(p, tn) {
        assert |tn[sp.start..sp.end]| == |tn|;
      }
  }

  /** Pattern pi of carrier ci matches the whole of tn. */
  predicate Hit(carriers: seq<Carrier>, tn: Bytes, ci: nat, pi: nat)
  {
    ci < |carriers| && pi < |carriers[ci].patterns| && WholeMatch(carriers[ci].patterns[pi], tn)
  }

  /** (ci, pi) is visited before (cj, pj). */
  predicate Before(ci: nat, pi: nat, cj: nat, pj: nat)
  {
    ci < cj || (ci == cj && pi < pj)
  }

  /** A hit that no earlier pair hits. */
  ghost predicate FirstHit(carriers: seq<Carrier>, tn: Bytes, ci: nat, pi: nat)
  {
    Hit(carriers, tn, ci, pi) && forall c: nat, q: nat :: Before(c, q, ci, pi) ==> !Hit(carriers, tn, c, q)
  }

  /** The first hit at or after pattern pi of carrier ci, as the two nested loops find it. */
  function FindFrom(carriers: seq<Carrier>, tn: Bytes, ci: nat, pi: nat): (r: Option<Position>)
    ensures r.Some? ==> Hit(carriers, tn, r.value.carrier, r.value.pattern)
    ensures r.Some? ==> !Before(r.value.carrier, r.value.pattern, ci, pi)
    ensures r.Some? ==> forall c: nat, q: nat :: !Before(c, q, ci, pi) && Before(c, q, r.value.carrier, r.value.pattern)
                                      ==> !Hit(carriers, tn, c, q)
    ensures r.None? ==> forall c: nat, q: nat :: !Before(c, q, ci, pi) ==> !Hit(carriers, tn, c, q)
    decreases |carriers| - ci, if ci < |carriers| then |carriers[ci].patterns| - pi else 0
  {
    if ci >= |carriers| then None
    else if pi >= |carriers[ci].patterns| then FindFrom(carriers, tn, ci + 1, 0)
    else if WholeMatch(carriers[ci].patterns[pi], tn) then Some(Position(ci, pi))
    else FindFrom(carriers, tn, ci, pi + 1)
  }

  /** The URL of carrier c for tn: its template filled with the percent-encoded number. */
  function TrackingUrl(c: Carrier, tn: Bytes): Bytes
  {
    Render(c.url, RawUrlEncode(tn))
  }

  /** For a valid template the URL is `sprintf(url, rawurlencode(tn))` on its format string. */
  lemma TrackingUrlIsSprintf(c: Carrier, tn: Bytes)
    requires ValidTemplate(c.url)
    ensures WellFormed(Format(c.url)) && Conversions(Format(c.url)) == 1
    ensures Sprintf(Format(c.url), [RawUrlEncode(tn)]) == TrackingUrl(c, tn)
  {
    RenderIsSprintf(c.url, RawUrlEncode(tn));
  }

  /**
   * `getLinkData(tn)` over the carrier table carriers. On a hit the matched text is all
   * of tn, so the URL is built from tn itself.
   */
  function GetLinkData(carriers: seq<Carrier>, tn: Bytes): (r: Option<LinkData>)
    ensures r.None? <==> forall c: nat, q: nat :: !Hit(carriers, tn, c, q)
    ensures r.Some? ==> exists c: nat, q: nat :: FirstHit(carriers, tn, c, q)
                                     && r.value == LinkData(carriers[c].name, TrackingUrl(carriers[c], tn))
  {
    match FindFrom(carriers, tn, 0, 0)
    case None => None
    case Some(pos) =>
      assert FirstHit(carriers, tn, pos.carrier, pos.pattern);
      Some(LinkData(carriers[pos.carrier].name, TrackingUrl(carriers[pos.carrier], tn)))
  }

  /** `getLinkUrl(tn)`: the URL part of `getLinkData(tn)`, or null. */
  function GetLinkUrl(carriers: seq<Carrier>, tn: Bytes): (r: Option<Bytes>)
    ensures r.None? <==> GetLinkData(carriers, tn).None?
    ensures r.Some? ==> r.value == GetLinkData(carriers, tn).value.url
  {
    match GetLinkData(carriers, tn)
    case None => None
    case Some(d) => Some(d.url)
  }

  /** There is at most one first hit. */
  lemma FirstHitUnique(carriers: seq<Carrier>, tn: Bytes, c1: nat, q1: nat, c2: nat, q2: nat)
    requires FirstHit(carriers, tn, c1, q1) && FirstHit(carriers, tn, c2, q2)
    ensures c1 == c2 && q1 == q2
  {
  }

  /** The first hit decides the result, whatever later carriers and patterns would say. */
  lemma FirstHitDecides(carriers: seq<Carrier>, tn: Bytes, ci: nat, pi: nat)
    requires FirstHit(carriers, tn, ci, pi)
    ensures GetLinkData(carriers, tn) == Some(LinkData(carriers[ci].name, TrackingUrl(carriers[ci], tn)))
  {
    var r := GetLinkData(carriers, tn);
    var c: nat, q: nat :| FirstHit(carriers, tn, c, q) && r.value == LinkData(carriers[c].name, TrackingUrl(carriers[c], tn));
    FirstHitUnique(carriers, tn, ci, pi, c, q);
  }

  /** Once a table classifies tn, appending more carriers changes nothing. */
  lemma LaterCarriersIgnored(a: seq<Carrier>, b: seq<Carrier>, tn: Bytes)
    requires GetLinkData(a, tn).Some?
    ensures GetLinkData(a + b, tn) == GetLinkData(a, tn)
  {
    var c: nat, q: nat :| FirstHit(a, tn, c, q) && GetLinkData(a, tn).value == LinkData(a[c].name, TrackingUrl(a[c], tn));
    assert Hit(a + b, tn, c, q) by {
      assert (a + b)[c] == a[c];
    }
    forall c': nat, q': nat | Before(c', q', c, q)
      ensures !Hit(a + b, tn, c', q')
    {
      if c' < |a| {
        assert (a + b)[c'] == a[c'];
        assert !Hit(a, tn, c', q');
      }
    }
    assert (a + b)[c] == a[c];
    FirstHitDecides(a + b, tn, c, q);
  }

  /** Carriers that do not classify tn are passed over: the rest of the table decides. */
  lemma MissesSkipped(a: seq<Carrier>, b: seq<Carrier>, tn: Bytes)
    requires GetLinkData(a, tn).None?
    ensures GetLinkData(a + b, tn) == GetLinkData(b, tn)
  {
    forall c: nat, q: nat ensures Hit(a + b, tn, |a| + c, q) == Hit(b, tn, c, q) {
      if c < |b| {
        assert (a + b)[|a| + c] == b[c];
      }
    }
    forall c: nat, q: nat | c < |a| ensures !Hit(a + b, tn, c, q) {
      assert (a + b)[c] == a[c];
      assert !Hit(a, tn, c, q);
    }
    match GetLinkData(b, tn)
    case None =>
      forall c: nat, q: nat ensures !Hit(a + b, tn, c, q) {
        if c >= |a| {
          assert Hit(a + b, tn, |a| + (c - |a|), q) == Hit(b, tn, c - |a|, q);
        }
      }
    case Some(d) =>
      var c: nat, q: nat :| FirstHit(b, tn, c, q) && d == LinkData(b[c].name, TrackingUrl(b[c], tn));
      assert Hit(a + b, tn, |a| + c, q);
      forall c': nat, q': nat | Before(c', q', |a| + c, q) ensures !Hit(a + b, tn, c', q') {
        if c' >= |a| {
          assert Hit(a + b, tn, |a| + (c' - |a|), q') == Hit(b, tn, c' - |a|, q');
          assert Before(c' - |a|, q', c, q);
        }
      }
      assert (a + b)[|a| + c] == b[c];
      FirstHitDecides(a + b, tn, |a| + c, q);
  }

  /** The empty string is never a tracking number: no pattern of a valid table matches it. */
  lemma EmptyHasNoLink(carriers: seq<Carrier>)
    requires ValidCarriers(carriers)
    ensures GetLinkData(carriers, []) == None
  {
    forall c: nat, q: nat | Hit(carriers, [], c, q) ensures false {
      var p := carriers[c].patterns[q];
      assert carriers[c] in carriers && p in carriers[c].patterns;
      WholeMatchAtStart(p, []);
      MatchAdvances(p.re, Done, [], 0, p.caseless);
    }
  }

  /**
   * With templates that end in `%s`, as all of the built-in ones do, the URL is the
   * text before the `%s` followed by the encoded number; for a number made of
   * unreserved characters, the number itself.
   */
  lemma UrlEndsWithNumber(carriers: seq<Carrier>, tn: Bytes)
    requires forall c :: c in carriers ==> c.url.after == []
    requires GetLinkUrl(carriers, tn).Some?
    ensures exists c :: c in carriers && GetLinkUrl(carriers, tn).value == c.url.before + RawUrlEncode(tn)
    ensures (forall i :: 0 <= i < |tn| ==> Unreserved(tn[i])) ==>
      var u := GetLinkUrl(carriers, tn).value;
      |tn| <= |u| && u[|u| - |tn|..] == tn
  {
    var c: nat, q: nat :| FirstHit(carriers, tn, c, q)
      && GetLinkData(carriers, tn).value == LinkData(carriers[c].name, TrackingUrl(carriers[c], tn));
    assert carriers[c] in carriers;
    var u := GetLinkUrl(carriers, tn).value;
    assert u == carriers[c].url.before + RawUrlEncode(tn);
    if forall i :: 0 <= i < |tn| ==> Unreserved(tn[i]) {
      EncodeIdentity(tn);
    }
  }

  /** A number made of unreserved characters goes into a template ending in `%s` as it is. */
  lemma PlainNumberUrl(c: Carrier, tn: Bytes)
    requires c.url.after == []
    requires forall i :: 0 <= i < |tn| ==> Unreserved(tn[i])
    ensures TrackingUrl(c, tn) == c.url.before + tn
  {
    EncodeIdentity(tn);
  }

  /** The first carrier of the table: DHL, one pattern. */
  lemma TableStepDhl(tn: Bytes)
    ensures FindFrom(Table, tn, 0, 0)
      == if WholeMatch(DhlPattern, tn) then Some(Position(0, 0)) else FindFrom(Table, tn, 1, 0)
  {
    assert Table[0] == Dhl;
    assert FindFrom(Table, tn, 0, 1) == FindFrom(Table, tn, 1, 0);
  }

  /** The second carrier: FedEx, one pattern. */
  lemma TableStepFedEx(tn: Bytes)
    ensures FindFrom(Table, tn, 1, 0)
      == if WholeMatch(FedExPattern, tn) then Some(Position(1, 0)) else FindFrom(Table, tn, 2, 0)
  {
    assert Table[1] == FedEx;
    assert FindFrom(Table, tn, 1, 1) == FindFrom(Table, tn, 2, 0);
  }

  /** The third carrier: UPS, one pattern. */
  lemma TableStepUps(tn: Bytes)
    ensures FindFrom(Table, tn, 2, 0)
      == if WholeMatch(UpsPattern, tn) then Some(Position(2, 0)) else FindFrom(Table, tn, 3, 0)
  {
    assert Table[2] == Ups;
    assert FindFrom(Table, tn, 2, 1) == FindFrom(Table, tn, 3, 0);
  }

  /** The fourth carrier: USPS, three patterns tried in order. */
  lemma TableStepUsps(tn: Bytes)
    ensures FindFrom(Table, tn, 3, 0)
      == if WholeMatch(UspsPattern1, tn) then Some(Position(3, 0))
         else if WholeMatch(UspsPattern2, tn) then Some(Position(3, 1))
         else if WholeMatch(UspsPattern3, tn) then Some(Position(3, 2))
         else FindFrom(Table, tn, 4, 0)
  {
    assert Table[3] == Usps;
    assert Usps.patterns[0] == UspsPattern1 && Usps.patterns[1] == UspsPattern2 && Usps.patterns[2] == UspsPattern3;
    assert FindFrom(Table, tn, 3, 2) == if WholeMatch(UspsPattern3, tn) then Some(Position(3, 2)) else FindFrom(Table, tn, 3, 3);
    assert FindFrom(Table, tn, 3, 1) == if WholeMatch(UspsPattern2, tn) then Some(Position(3, 1)) else FindFrom(Table, tn, 3, 2);
    assert FindFrom(Table, tn, 3, 3) == FindFrom(Table, tn, 4, 0);
  }

  /** The last carrier: Royal Mail, one pattern, and nothing after it. */
  lemma TableStepRoyalMail(tn: Bytes)
    ensures FindFrom(Table, tn, 4, 0)
      == if WholeMatch(RoyalMailPattern, tn) then Some(Position(4, 0)) else None
  {
    assert Table[4] == RoyalMail;
    assert FindFrom(Table, tn, 4, 1) == FindFrom(Table, tn, 5, 0);
  }

  /**
   * The built-in table as a decision list: the seven patterns in order, each deciding
   * the carrier when it matches the whole number.
   */
  lemma TableDecision(tn: Bytes)
    ensures GetLinkData(Table, tn) ==
      if WholeMatch(DhlPattern, tn) then Some(LinkData("DHL", TrackingUrl(Dhl, tn)))
      else if WholeMatch(FedExPattern, tn) then Some(LinkData("FedEx", TrackingUrl(FedEx, tn)))
      else if WholeMatch(UpsPattern, tn) then Some(LinkData("UPS", TrackingUrl(Ups, tn)))
      else if WholeMatch(UspsPattern1, tn) || WholeMatch(UspsPattern2, tn) || WholeMatch(UspsPattern3, tn)
        then Some(LinkData("USPS", TrackingUrl(Usps, tn)))
      else if WholeMatch(RoyalMailPattern, tn) then Some(LinkData("Royal Mail", TrackingUrl(RoyalMail, tn)))
      else None
  {
    TableStepDhl(tn);
    TableStepFedEx(tn);
    TableStepUps(tn);
    TableStepUsps(tn);
    TableStepRoyalMail(tn);
    assert Table[0] == Dhl && Table[1] == FedEx && Table[2] == Ups && Table[3] == Usps && Table[4] == RoyalMail;
  }
}
