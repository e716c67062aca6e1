/**
 * PHP's `rawurlencode`: percent-encoding as in section 2.1 of RFC 3986, keeping the
 * unreserved characters of section 2.3 (`A-Z a-z 0-9 - . _ ~`) and writing every
 * other byte as `%` and two upper-case hexadecimal digits. Its inverse,
 * `rawurldecode`, is the partner the round trip is proved against.
 */
module UrlEncode {
  import opened Text

  /** The unreserved characters of section 2.3 of RFC 3986. */
  predicate Unreserved(c: Byte)
  {
    ('A' <= c <= 'Z') || ('a' <= c <= 'z') || ('0' <= c <= '9') || c == '-' || c == '.' || c == '_' || c == '~'
  }

  const HexDigits: Bytes := "0123456789ABCDEF"

  /** A hexadecimal digit as `rawurlencode` writes it: a digit or an upper-case A to F. */
  predicate IsUpperHexDigit(c: Byte)
  {
    ('0' <= c <= '9') || ('A' <= c <= 'F')
  }

  /** The upper-case hexadecimal digit for a value below 16. */
  function HexDigit(n: nat): (c: Byte)
    requires n < 16
    ensures IsUpperHexDigit(c)
    ensures n < 10 ==> c as int == '0' as int + n
    ensures n >= 10 ==> c as int == 'A' as int + n - 10
  {
    HexDigits[n]
  }

  predicate IsHexDigit(c: Byte)
  {
    ('0' <= c <= '9') || ('A' <= c <= 'F') || ('a' <= c <= 'f')
  }

  /** The value of a hexadecimal digit of either case. */
  function HexValue(c: Byte): (n: nat)
    requires IsHexDigit(c)
    ensures n < 16
  {
    if '0' <= c <= '9' then c as int - '0' as int
    else if 'A' <= c <= 'F' then c as int - 'A' as int + 10
    else c as int - 'a' as int + 10
  }

  lemma HexValueOfDigit(n: nat)
    requires n < 16
    ensures IsHexDigit(HexDigit(n)) && HexValue(HexDigit(n)) == n
  {
  }

  /** One byte, encoded: itself when unreserved, otherwise `%` and its two upper-case hex digits. */
  function EncodeByte(c: Byte): (r: Bytes)
    ensures Unreserved(c) ==> r == [c]
    ensures !Unreserved(c) ==>
      && |r| == 3 && r[0] == '%'
      && IsUpperHexDigit(r[1]) && IsUpperHexDigit(r[2])
      && HexValue(r[1]) * 16 + HexValue(r[2]) == c as int
  {
    if Unreserved(c) then [c]
    else
      HexValueOfDigit(c as int / 16);
      HexValueOfDigit(c as int % 16);
      ['%', HexDigit(c as int / 16), HexDigit(c as int % 16)]
  }

  /** The number of bytes of s that are not unreserved. */
  function ReservedCount(s: Bytes): nat
  {
    if s == [] then 0 else (if Unreserved(s[0]) then 0 else 1) + ReservedCount(s[1..])
  }

  /** PHP `rawurlencode(s)`. */
  function RawUrlEncode(s: Bytes): (r: Bytes)
    ensures |r| == |s| + 2 * ReservedCount(s)
    ensures forall i :: 0 <= i < |r| ==> Unreserved(r[i]) || r[i] == '%'
  {
    if s == [] then [] else EncodeByte(s[0]) + RawUrlEncode(s[1..])
  }

  /** Encoding works byte by byte: the encoding of a concatenation is the concatenation of the encodings. */
  lemma {:induction false} EncodeAppend(a: Bytes, b: Bytes)
    ensures RawUrlEncode(a + b) == RawUrlEncode(a) + RawUrlEncode(b)
  {
    if a == [] {
      assert a + b == b;
    } else {
      ConsAppend(a, b);
      EncodeAppend(a[1..], b);
      Assoc(EncodeByte(a[0]), RawUrlEncode(a[1..]), RawUrlEncode(b));
    }
  }

  /** A single byte is encoded as EncodeByte says, so reserved bytes get upper-case digits. */
  lemma EncodeSingle(c: Byte)
    ensures RawUrlEncode([c]) == EncodeByte(c)
  {
    assert [c][1..] == [];
  }

  /** PHP `rawurldecode(s)`: `%` and two hex digits of either case become one byte. */
  function RawUrlDecode(s: Bytes): (r: Bytes)
    ensures |r| <= |s|
  {
    if |s| >= 3 && s[0] == '%' && IsHexDigit(s[1]) && IsHexDigit(s[2]) then
      [(HexValue(s[1]) * 16 + HexValue(s[2])) as char] + RawUrlDecode(s[3..])
    else if s == [] then []
    else [s[0]] + RawUrlDecode(s[1..])
  }

  /** Decoding undoes encoding, for every byte string. */
  lemma {:induction false} DecodeEncode(s: Bytes)
    ensures RawUrlDecode(RawUrlEncode(s)) == s
  {
    if s != [] {
      var e := EncodeByte(s[0]);
      var rest := RawUrlEncode(s[1..]);
      assert RawUrlEncode(s) == e + rest;
      DecodeEncode(s[1..]);
      if Unreserved(s[0]) {
        assert (e + rest)[1..] == rest;
      } else {
        assert (e + rest)[3..] == rest;
      }
    }
  }

  /** Encoding leaves a string as it is exactly when every byte is unreserved. */
  lemma {:induction false} EncodeIdentity(s: Bytes)
    ensures RawUrlEncode(s) == s <==> forall i :: 0 <= i < |s| ==> Unreserved(s[i])
  {
    if forall i :: 0 <= i < |s| ==> Unreserved(s[i]) {
      AllUnreservedCount(s);
    } else {
      var i :| 0 <= i < |s| && !Unreserved(s[i]);
      SomeReservedCount(s, i);
    }
  }

  lemma {:induction false} AllUnreservedCount(s: Bytes)
    requires forall i :: 0 <= i < |s| ==> Unreserved(s[i])
    ensures RawUrlEncode(s) == s
  {
    if s != [] {
      AllUnreservedCount(s[1..]);
      assert s == [s[0]] + s[1..];
    }
  }

  lemma {:induction false} SomeReservedCount(s: Bytes, i: nat)
    requires i < |s| && !Unreserved(s[i])
    ensures ReservedCount(s) > 0
  {
    if i > 0 && Unreserved(s[0]) {
      SomeReservedCount(s[1..], i - 1);
    }
  }
}
