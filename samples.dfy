/**
 * The tracking numbers the examples are about. Each is a constant and a predicate that
 * spells it out byte by byte, so that a proof about a number can read its bytes by
 * position without unfolding the literal.
 */
module Samples {
  import opened Text
  import opened UrlEncode

  /** The DHL number `8212345678`, which the third USPS pattern also fits. */
  const NumAwb: Bytes := "8212" + "3456" + "78"

  predicate SpellsAwb(s: Bytes)
  {
    |s| == 10 && s[0] == '8' && s[1] == '2' && s[2] == '1' && s[3] == '2' && s[4] == '3'
    && s[5] == '4' && s[6] == '5' && s[7] == '6' && s[8] == '7' && s[9] == '8'
  }

  lemma NumAwbSpelled()
    ensures SpellsAwb(NumAwb)
  {
  }

  /** Every byte of the number is unreserved, so percent-encoding leaves it as it is. */
  lemma AwbUnreserved(s: Bytes)
    requires SpellsAwb(s)
    ensures forall i :: 0 <= i < |s| ==> Unreserved(s[i])
  {
    forall i | 0 <= i < |s| ensures Unreserved(s[i]) {
      assert i == 0 || i == 1 || i == 2 || i == 3 || i == 4 || i == 5 || i == 6 || i == 7
        || i == 8 || i == 9;
    }
  }

  /** The FedEx number `123456789012`. */
  const NumTwelve: Bytes := "1234" + "5678" + "9012"

  predicate SpellsTwelve(s: Bytes)
  {
    |s| == 12 && s[0] == '1' && s[1] == '2' && s[2] == '3' && s[3] == '4' && s[4] == '5'
    && s[5] == '6' && s[6] == '7' && s[7] == '8' && s[8] == '9' && s[9] == '0' && s[10] == '1'
    && s[11] == '2'
  }

  lemma NumTwelveSpelled()
    ensures SpellsTwelve(NumTwelve)
  {
  }

  /** Every byte of the number is unreserved, so percent-encoding leaves it as it is. */
  lemma TwelveUnreserved(s: Bytes)
    requires SpellsTwelve(s)
    ensures forall i :: 0 <= i < |s| ==> Unreserved(s[i])
  {
    forall i | 0 <= i < |s| ensures Unreserved(s[i]) {
      assert i == 0 || i == 1 || i == 2 || i == 3 || i == 4 || i == 5 || i == 6 || i == 7
        || i == 8 || i == 9 || i == 10 || i == 11;
    }
  }

  /** The UPS number `1Z999AA10123456784`. */
  const NumUps: Bytes := "1Z99" + "9AA1" + "0123" + "4567" + "84"

  predicate SpellsUps(s: Bytes)
  {
    |s| == 18 && s[0] == '1' && s[1] == 'Z' && s[2] == '9' && s[3] == '9' && s[4] == '9'
    && s[5] == 'A' && s[6] == 'A' && s[7] == '1' && s[8] == '0' && s[9] == '1' && s[10] == '2'
    && s[11] == '3' && s[12] == '4' && s[13] == '5' && s[14] == '6' && s[15] == '7' && s[16] == '8'
    && s[17] == '4'
  }

  lemma NumUpsSpelled()
    ensures SpellsUps(NumUps)
  {
  }

  /** Every byte of the number is unreserved, so percent-encoding leaves it as it is. */
  lemma UpsUnreserved(s: Bytes)
    requires SpellsUps(s)
    ensures forall i :: 0 <= i < |s| ==> Unreserved(s[i])
  {
    forall i | 0 <= i < |s| ensures Unreserved(s[i]) {
      assert i == 0 || i == 1 || i == 2 || i == 3 || i == 4 || i == 5 || i == 6 || i == 7
        || i == 8 || i == 9 || i == 10 || i == 11 || i == 12 || i == 13 || i == 14 || i == 15
        || i == 16 || i == 17;
    }
  }

  /** The UPS number led by `x `. */
  const NumLed: Bytes := "x 1Z" + "999A" + "A101" + "2345" + "6784"

  predicate SpellsLed(s: Bytes)
  {
    |s| == 20 && s[0] == 'x' && s[1] == ' ' && s[2] == '1' && s[3] == 'Z' && s[4] == '9'
    && s[5] == '9' && s[6] == '9' && s[7] == 'A' && s[8] == 'A' && s[9] == '1' && s[10] == '0'
    && s[11] == '1' && s[12] == '2' && s[13] == '3' && s[14] == '4' && s[15] == '5' && s[16] == '6'
    && s[17] == '7' && s[18] == '8' && s[19] == '4'
  }

  lemma NumLedSpelled()
    ensures SpellsLed(NumLed)
  {
  }

  /** The UPS number with words on both sides. */
  const NumEmbedded: Bytes := "pref" + "ix 1" + "Z999" + "AA10" + "1234" + "5678" + "4 su" + "ffix"

  predicate SpellsEmbedded(s: Bytes)
  {
    |s| == 32 && s[0] == 'p' && s[1] == 'r' && s[2] == 'e' && s[3] == 'f' && s[4] == 'i'
    && s[5] == 'x' && s[6] == ' ' && s[7] == '1' && s[8] == 'Z' && s[9] == '9' && s[10] == '9'
    && s[11] == '9' && s[12] == 'A' && s[13] == 'A' && s[14] == '1' && s[15] == '0' && s[16] == '1'
    && s[17] == '2' && s[18] == '3' && s[19] == '4' && s[20] == '5' && s[21] == '6' && s[22] == '7'
    && s[23] == '8' && s[24] == '4' && s[25] == ' ' && s[26] == 's' && s[27] == 'u' && s[28] == 'f'
    && s[29] == 'f' && s[30] == 'i' && s[31] == 'x'
  }

  lemma NumEmbeddedSpelled()
    ensures SpellsEmbedded(NumEmbedded)
  {
  }

  /** The Royal Mail number `AB123456785GB`. */
  const NumRoyalAb: Bytes := "AB12" + "3456" + "785G" + "B"

  predicate SpellsRoyalAb(s: Bytes)
  {
    |s| == 13 && s[0] == 'A' && s[1] == 'B' && s[2] == '1' && s[3] == '2' && s[4] == '3'
    && s[5] == '4' && s[6] == '5' && s[7] == '6' && s[8] == '7' && s[9] == '8' && s[10] == '5'
    && s[11] == 'G' && s[12] == 'B'
  }

  lemma NumRoyalAbSpelled()
    ensures SpellsRoyalAb(NumRoyalAb)
  {
  }

  /** Every byte of the number is unreserved, so percent-encoding leaves it as it is. */
  lemma RoyalAbUnreserved(s: Bytes)
    requires SpellsRoyalAb(s)
    ensures forall i :: 0 <= i < |s| ==> Unreserved(s[i])
  {
    forall i | 0 <= i < |s| ensures Unreserved(s[i]) {
      assert i == 0 || i == 1 || i == 2 || i == 3 || i == 4 || i == 5 || i == 6 || i == 7
        || i == 8 || i == 9 || i == 10 || i == 11 || i == 12;
    }
  }

  /** The same digits behind the reserved Royal Mail prefix `EE`. */
  const NumRoyalEe: Bytes := "EE12" + "3456" + "785G" + "B"

  predicate SpellsRoyalEe(s: Bytes)
  {
    |s| == 13 && s[0] == 'E' && s[1] == 'E' && s[2] == '1' && s[3] == '2' && s[4] == '3'
    && s[5] == '4' && s[6] == '5' && s[7] == '6' && s[8] == '7' && s[9] == '8' && s[10] == '5'
    && s[11] == 'G' && s[12] == 'B'
  }

  lemma NumRoyalEeSpelled()
    ensures SpellsRoyalEe(NumRoyalEe)
  {
  }

  /** The Royal Mail number `ab123456785gb`, in lower case. */
  const NumRoyalLower: Bytes := "ab12" + "3456" + "785g" + "b"

  predicate SpellsRoyalLower(s: Bytes)
  {
    |s| == 13 && s[0] == 'a' && s[1] == 'b' && s[2] == '1' && s[3] == '2' && s[4] == '3'
    && s[5] == '4' && s[6] == '5' && s[7] == '6' && s[8] == '7' && s[9] == '8' && s[10] == '5'
    && s[11] == 'g' && s[12] == 'b'
  }

  lemma NumRoyalLowerSpelled()
    ensures SpellsRoyalLower(NumRoyalLower)
  {
  }

  /** Every byte of the number is unreserved, so percent-encoding leaves it as it is. */
  lemma RoyalLowerUnreserved(s: Bytes)
    requires SpellsRoyalLower(s)
    ensures forall i :: 0 <= i < |s| ==> Unreserved(s[i])
  {
    forall i | 0 <= i < |s| ensures Unreserved(s[i]) {
      assert i == 0 || i == 1 || i == 2 || i == 3 || i == 4 || i == 5 || i == 6 || i == 7
        || i == 8 || i == 9 || i == 10 || i == 11 || i == 12;
    }
  }

  /** The USPS number `9400111899560123456789`. */
  const NumUsps: Bytes := "9400" + "1118" + "9956" + "0123" + "4567" + "89"

  predicate SpellsUsps(s: Bytes)
  {
    |s| == 22 && s[0] == '9' && s[1] == '4' && s[2] == '0' && s[3] == '0' && s[4] == '1'
    && s[5] == '1' && s[6] == '1' && s[7] == '8' && s[8] == '9' && s[9] == '9' && s[10] == '5'
    && s[11] == '6' && s[12] == '0' && s[13] == '1' && s[14] == '2' && s[15] == '3' && s[16] == '4'
    && s[17] == '5' && s[18] == '6' && s[19] == '7' && s[20] == '8' && s[21] == '9'
  }

  lemma NumUspsSpelled()
    ensures SpellsUsps(NumUsps)
  {
  }

  /** Every byte of the number is unreserved, so percent-encoding leaves it as it is. */
  lemma UspsUnreserved(s: Bytes)
    requires SpellsUsps(s)
    ensures forall i :: 0 <= i < |s| ==> Unreserved(s[i])
  {
    forall i | 0 <= i < |s| ensures Unreserved(s[i]) {
      assert i == 0 || i == 1 || i == 2 || i == 3 || i == 4 || i == 5 || i == 6 || i == 7
        || i == 8 || i == 9 || i == 10 || i == 11 || i == 12 || i == 13 || i == 14 || i == 15
        || i == 16 || i == 17 || i == 18 || i == 19 || i == 20 || i == 21;
    }
  }

  /** The USPS number `LK123456789US`, of the second USPS form. */
  const NumUspsLk: Bytes := "LK12" + "3456" + "789U" + "S"

  predicate SpellsUspsLk(s: Bytes)
  {
    |s| == 13 && s[0] == 'L' && s[1] == 'K' && s[2] == '1' && s[3] == '2' && s[4] == '3'
    && s[5] == '4' && s[6] == '5' && s[7] == '6' && s[8] == '7' && s[9] == '8' && s[10] == '9'
    && s[11] == 'U' && s[12] == 'S'
  }

  lemma NumUspsLkSpelled()
    ensures SpellsUspsLk(NumUspsLk)
  {
  }

  /** Every byte of the number is unreserved, so percent-encoding leaves it as it is. */
  lemma UspsLkUnreserved(s: Bytes)
    requires SpellsUspsLk(s)
    ensures forall i :: 0 <= i < |s| ==> Unreserved(s[i])
  {
    forall i | 0 <= i < |s| ensures Unreserved(s[i]) {
      assert i == 0 || i == 1 || i == 2 || i == 3 || i == 4 || i == 5 || i == 6 || i == 7
        || i == 8 || i == 9 || i == 10 || i == 11 || i == 12;
    }
  }

  /** A three-digit number. */
  const NumShort: Bytes := "123"

  predicate SpellsShort(s: Bytes)
  {
    |s| == 3 && s[0] == '1' && s[1] == '2' && s[2] == '3'
  }

  lemma NumShortSpelled()
    ensures SpellsShort(NumShort)
  {
  }
}
