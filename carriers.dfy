/** The built-in carrier table: five carriers in precedence order, seven patterns in all. */
module Carriers {
  import opened Text
  import opened Regex
  import opened Template

  /** A carrier record: its label (`name`), a URL template with one `%s`, and its patterns in order. */
  datatype Carrier = Carrier(name: Bytes, url: UrlTemplate, patterns: seq<Pattern>)

  // Building blocks for the patterns below.

  function Lit(c: Byte): Regex { Range(c, c) }
  function Opt(r: Regex): Regex { Rep(r, 0, 1) }
  function Times(r: Regex, n: nat): Regex { Rep(r, n, n) }
  function Pair(a: Byte, b: Byte): Regex { Cat(Lit(a), Lit(b)) }

  const Digit: Regex := Range('0', '9')
  const Letter: Regex := Range('A', 'Z')
  const OptSpace: Regex := Opt(Lit(' '))
  /** An optional dash or space. */
  const OptDashOrSpace: Regex := Opt(Alt(Lit('-'), Lit(' ')))
  /** A digit or an upper-case letter; /i widens it to lower case. */
  const Alnum: Regex := Alt(Range('0', '9'), Range('A', 'Z'))

  /** A pattern of the form word-boundary, body, word-boundary, with the /i flag. */
  function Bounded(body: Regex): Pattern
  {
    Pattern(Cat(WordBoundary, Cat(body, WordBoundary)), true)
  }

  /** DHL, first form: 4, 4 and 2 digits, each group after the first led by an optional dash or space. */
  const DhlGrouped: Regex :=
    Cat(Times(Digit, 4), Cat(OptDashOrSpace, Cat(Times(Digit, 4), Cat(OptDashOrSpace, Times(Digit, 2)))))

  /** DHL, second form: 3 and 8 digits with an optional dash or space between. */
  const DhlLong: Regex := Cat(Times(Digit, 3), Cat(OptDashOrSpace, Times(Digit, 8)))

  /** DHL, third form: 3 letters and 7 digits. */
  const DhlLettered: Regex := Cat(Times(Letter, 3), Times(Digit, 7))

  const DhlPattern: Pattern := Bounded(Alt(DhlGrouped, Alt(DhlLong, DhlLettered)))

  /** FedEx: the first group is 96dd or 6d followed by 3+4 digits, or 96dd, or 4 digits. */
  const FedExHead: Regex :=
    Alt(Cat(Alt(Cat(Pair('9', '6'), Times(Digit, 2)), Cat(Lit('6'), Digit)),
            Cat(Times(Digit, 3), Cat(OptSpace, Times(Digit, 4)))),
        Alt(Cat(Pair('9', '6'), Times(Digit, 2)),
            Times(Digit, 4)))

  /** FedEx: the first group, 4 and 4 digits and an optional 3, each after an optional space. */
  const FedExPattern: Pattern := Bounded(
    Cat(FedExHead, Cat(OptSpace, Cat(Times(Digit, 4), Cat(OptSpace, Cat(Times(Digit, 4),
    Opt(Cat(OptSpace, Times(Digit, 3)))))))))

  /** UPS, first form: `1Z` and 16 alphanumerics in groups of 3, 3, 2, 4, 3 and 1. */
  const Ups1Z: Regex :=
    Cat(Pair('1', 'Z'), Cat(OptSpace, Cat(Times(Alnum, 3), Cat(OptSpace, Cat(Times(Alnum, 3),
    Cat(OptSpace, Cat(Times(Alnum, 2), Cat(OptSpace, Cat(Times(Alnum, 4), Cat(OptSpace,
    Cat(Times(Alnum, 3), Cat(OptSpace, Alnum))))))))))))

  /** UPS, second form: `T` and 3, 4 and 3 digits. */
  const UpsT: Regex :=
    Cat(Lit('T'), Cat(Times(Digit, 3), Cat(OptSpace, Cat(Times(Digit, 4), Cat(OptSpace, Times(Digit, 3))))))

  const UpsPattern: Pattern := Bounded(Alt(Ups1Z, UpsT))

  /** The optional `420` and 5-digit ZIP code that may lead the USPS first form. */
  const UspsRouting: Regex :=
    Cat(Lit('4'), Cat(Pair('2', '0'), Cat(OptSpace, Cat(Times(Digit, 5), OptSpace))))

  /** The ten two-digit service codes of the USPS first form, in the order they are tried. */
  const UspsServiceCode: Regex :=
    Alt(Pair('9', '1'), Alt(Pair('9', '2'), Alt(Pair('9', '3'), Alt(Pair('9', '4'),
    Alt(Pair('0', '1'), Alt(Pair('0', '3'), Alt(Pair('0', '4'), Alt(Pair('7', '0'),
    Alt(Pair('2', '3'), Pair('1', '3'))))))))))

  /**
   * USPS, first form: the optional routing prefix, a service code, 2 digits,
   * four groups of 4 digits and an optional group of 2 to 6 digits.
   */
  const UspsPattern1: Pattern := Bounded(
    Cat(Opt(UspsRouting), Cat(UspsServiceCode, Cat(Times(Digit, 2),
    Cat(OptSpace, Cat(Times(Digit, 4), Cat(OptSpace, Cat(Times(Digit, 4),
    Cat(OptSpace, Cat(Times(Digit, 4), Cat(OptSpace, Cat(Times(Digit, 4),
    Opt(Cat(OptSpace, Rep(Digit, 2, 6)))))))))))))))

  /** The prefixes of the USPS second form, in the order they are tried. */
  const UspsPrefix: Regex :=
    Alt(Lit('M'), Alt(Cat(Lit('P'), Opt(Letter)), Alt(Cat(Lit('D'), Range('C', 'Z')),
    Alt(Pair('L', 'K'), Alt(Cat(Lit('E'), Range('A', 'C')), Alt(Cat(Lit('V'), Letter),
    Alt(Cat(Lit('R'), Letter), Alt(Pair('C', 'P'), Alt(Pair('C', 'J'),
    Alt(Pair('L', 'C'), Pair('L', 'J')))))))))))

  /** USPS, second form: a prefix, three groups of 3 digits and up to two letters. */
  const UspsPattern2: Pattern := Bounded(
    Cat(UspsPrefix, Cat(OptSpace, Cat(Times(Digit, 3), Cat(OptSpace, Cat(Times(Digit, 3),
    Cat(OptSpace, Cat(Times(Digit, 3), Cat(OptSpace, Cat(Opt(Letter), Opt(Letter)))))))))))

  /** USPS, third form: `82` and 3, 3 and 2 digits. */
  const UspsPattern3: Pattern := Bounded(
    Cat(Pair('8', '2'), Cat(OptSpace, Cat(Times(Digit, 3), Cat(OptSpace, Cat(Times(Digit, 3),
    Cat(OptSpace, Times(Digit, 2))))))))

  /** The prefixes Royal Mail numbers may not start with. */
  const RoyalMailReserved: Regex :=
    Alt(Pair('E', 'A'), Alt(Pair('E', 'B'), Alt(Pair('E', 'C'), Alt(Pair('E', 'D'),
    Alt(Pair('E', 'E'), Pair('C', 'P'))))))

  /**
   * Royal Mail: not a reserved prefix, then 2 letters, 9 digits and `GB`. The source
   * writes the digits as the possessive `[0-9]{9}+`; an exact count of single bytes
   * leaves nothing to backtrack into, so the plain count is the same pattern.
   */
  const RoyalMailPattern: Pattern := Pattern(
    Cat(WordBoundary, Cat(NotAhead(RoyalMailReserved),
    Cat(Times(Alt(Range('A', 'Z'), Range('a', 'z')), 2), Cat(Times(Range('0', '9'), 9),
    Cat(Pair('G', 'B'), WordBoundary))))), true)

  // The text before the `%s` of each URL template; nothing follows it. The literals
  // are split at the parts of the URL only to keep each one short.

  const DhlUrlPrefix: Bytes :=
    "http://www.dhl.com" + "/content/g0/en/express/" + "tracking.shtml" + "?brand=DHL&AWB="
  const FedExUrlPrefix: Bytes :=
    "https://www.fedex.com" + "/apps/fedextrack/" + "?action=track" + "&locale=en_US"
    + "&cntry_code=us" + "&tracknumbers="
  const UpsUrlPrefix: Bytes :=
    "http://wwwapps.ups.com" + "/WebTracking/" + "processInputRequest" + "?TypeOfInquiryNumber=T"
    + "&InquiryNumber1="
  const UspsUrlPrefix: Bytes := "https://tools.usps.com" + "/go/TrackConfirmAction" + "?tLabels="
  const RoyalMailUrlPrefix: Bytes := "http://www.royalmail.com" + "/portal/rm/track" + "?trackNumber="

  const Dhl: Carrier := Carrier("DHL", UrlTemplate(DhlUrlPrefix, ""), [DhlPattern])
  const FedEx: Carrier := Carrier("FedEx", UrlTemplate(FedExUrlPrefix, ""), [FedExPattern])
  const Ups: Carrier := Carrier("UPS", UrlTemplate(UpsUrlPrefix, ""), [UpsPattern])
  const Usps: Carrier := Carrier("USPS", UrlTemplate(UspsUrlPrefix, ""), [UspsPattern1, UspsPattern2, UspsPattern3])
  const RoyalMail: Carrier := Carrier("Royal Mail", UrlTemplate(RoyalMailUrlPrefix, ""), [RoyalMailPattern])

  /** The default carrier table, in the order the classifier and linkifier try it. */
  const Table: seq<Carrier> := [Dhl, FedEx, Ups, Usps, RoyalMail]

  /**
   * What the classifier and the linkifier rely on in a carrier: none of its patterns
   * matches the empty string.
   */
  predicate ValidCarrier(c: Carrier)
  {
    forall p :: p in c.patterns ==> Consuming(p.re)
  }

  predicate ValidCarriers(carriers: seq<Carrier>)
  {
    forall c :: c in carriers ==> ValidCarrier(c)
  }


  /** The built-in table is valid. */
  lemma TableValid()
    ensures ValidCarriers(Table)
  {
    DhlFedExUpsValid();
    UspsValid();
    assert Consuming(RoyalMailPattern.re);
  }

  lemma DhlFedExUpsValid()
    ensures ValidCarrier(Dhl) && ValidCarrier(FedEx) && ValidCarrier(Ups)
  {
    assert Consuming(DhlPattern.re) && Consuming(FedExPattern.re) && Consuming(UpsPattern.re);
  }

  lemma UspsValid()
    ensures ValidCarrier(Usps)
  {
    assert Consuming(UspsPattern1.re) && Consuming(UspsPattern2.re) && Consuming(UspsPattern3.re);
  }


  /** Each URL template of the table has one `%s` and no other `%`, so filling it is `sprintf`. */
  lemma TemplatesValid()
    ensures forall c :: c in Table ==> ValidTemplate(c.url)
  {
    DhlUrlPercentFree();
    FedExUrlPercentFree();
    UpsUrlPercentFree();
    UspsUrlPercentFree();
    RoyalMailUrlPercentFree();
  }

  lemma DhlUrlPercentFree()
    ensures '%' !in DhlUrlPrefix
  {
  }

  lemma FedExUrlPercentFree()
    ensures '%' !in FedExUrlPrefix
  {
  }

  lemma UpsUrlPercentFree()
    ensures '%' !in UpsUrlPrefix
  {
  }

  lemma UspsUrlPercentFree()
    ensures '%' !in UspsUrlPrefix
  {
  }

  lemma RoyalMailUrlPercentFree()
    ensures '%' !in RoyalMailUrlPrefix
  {
  }
}
