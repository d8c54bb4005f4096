/** The payment identifiers the router draws (cmd/payment-router/main.go:314-323): version 4 of
    RFC 9562, section 5.4. The random bytes are a parameter. */
module Uuid {
  type Bytes = seq<bv8>

  /** The version and variant bits are fixed; the other 122 bits are free. */
  function Masked(b: Bytes): (m: Bytes)
    requires |b| == 16
    ensures |m| == 16
  {
    b[6 := (b[6] & 0x0f) | 0x40][8 := (b[8] & 0x3f) | 0x80]
  }

  function Digit(n: bv8): char {
    if n < 10 then '0' + (n as char) else 'a' + ((n - 10) as char)
  }

  function Value(c: char): bv8 {
    if '0' <= c <= '9' then (c as int - '0' as int) as bv8
    else if 'a' <= c <= 'f' then (c as int - 'a' as int + 10) as bv8
    else 0
  }

  function Hex(b: Bytes): (h: string)
    ensures |h| == 2 * |b|
  {
    if b == [] then "" else [Digit(b[0] >> 4), Digit(b[0] & 0x0f)] + Hex(b[1..])
  }

  function Unhex(h: string): Bytes {
    if |h| < 2 then [] else [(Value(h[0]) << 4) | Value(h[1])] + Unhex(h[2..])
  }

  function Dashed(h: string): (s: string)
    requires |h| == 32
    ensures |s| == 36
  {
    h[..8] + "-" + h[8..12] + "-" + h[12..16] + "-" + h[16..20] + "-" + h[20..]
  }

  function Undashed(s: string): string
    requires |s| == 36
  {
    s[..8] + s[9..13] + s[14..18] + s[19..23] + s[24..]
  }

  lemma UndashDash(h: string)
    requires |h| == 32
    ensures Undashed(Dashed(h)) == h
  {
    var s := Dashed(h);
    assert s[..8] == h[..8] && s[9..13] == h[8..12] && s[14..18] == h[12..16] && s[19..23] == h[16..20]
           && s[24..] == h[20..];
    assert h == h[..8] + h[8..12] + h[12..16] + h[16..20] + h[20..];
  }

  predicate IsHexDigit(c: char) { '0' <= c <= '9' || 'a' <= c <= 'f' }

  lemma DigitRoundTrip(n: bv8)
    requires n < 16
    ensures IsHexDigit(Digit(n)) && Value(Digit(n)) == n
  {
  }

  lemma NibblesRebuild(x: bv8)
    ensures x >> 4 < 16 && x & 0x0f < 16
    ensures ((x >> 4) << 4) | (x & 0x0f) == x
  {
  }

  lemma {:induction false} HexRoundTrip(b: Bytes)
    ensures |Hex(b)| == 2 * |b| && Unhex(Hex(b)) == b
    ensures forall i :: 0 <= i < |Hex(b)| ==> IsHexDigit(Hex(b)[i])
  {
    if b != [] {
      HexRoundTrip(b[1..]);
      NibblesRebuild(b[0]);
      DigitRoundTrip(b[0] >> 4);
      DigitRoundTrip(b[0] & 0x0f);
      assert Hex(b)[2..] == Hex(b[1..]);
    }
  }

  lemma {:induction false} HexAt(b: Bytes, i: int)
    requires 0 <= i < |b|
    ensures |Hex(b)| == 2 * |b| && Hex(b)[2 * i] == Digit(b[i] >> 4) && Hex(b)[2 * i + 1] == Digit(b[i] & 0x0f)
  {
    hide Digit, Unhex;
    HexRoundTrip(b);
    if i > 0 {
      HexAt(b[1..], i - 1);
      assert Hex(b)[2..] == Hex(b[1..]);
      assert Hex(b)[2 * i] == Hex(b)[2..][2 * (i - 1)] && Hex(b)[2 * i + 1] == Hex(b)[2..][2 * (i - 1) + 1];
    }
  }

  /** Version nibble 4, variant bits 10, the rest untouched. */
  lemma MaskedBits(b: Bytes)
    requires |b| == 16
    ensures Masked(b)[6] >> 4 == 4 && Masked(b)[6] & 0x0f == b[6] & 0x0f
    ensures 8 <= Masked(b)[8] >> 4 < 12 && Masked(b)[8] & 0x3f == b[8] & 0x3f
    ensures forall i :: 0 <= i < 16 && i != 6 && i != 8 ==> Masked(b)[i] == b[i]
  {
  }

  /** Every identifier has the version-4 layout. */
  lemma VersionFourLayout(b: Bytes)
    requires |b| == 16
    ensures var s := Dashed(Hex(Masked(b)));
            && |s| == 36
            && (forall i :: 0 <= i < 36 ==>
                  if i == 8 || i == 13 || i == 18 || i == 23 then s[i] == '-' else IsHexDigit(s[i]))
            && s[14] == '4' && s[19] in "89ab"
  {
    hide Digit, Unhex, Masked;
    var h := Hex(Masked(b));
    HexRoundTrip(Masked(b));
    HexAt(Masked(b), 6);
    HexAt(Masked(b), 8);
    VersionDigits(b);
    assert Dashed(h)[14] == h[12] && Dashed(h)[19] == h[16];
  }

  lemma VersionDigits(b: Bytes)
    requires |b| == 16
    ensures Digit(Masked(b)[6] >> 4) == '4' && Digit(Masked(b)[8] >> 4) in "89ab"
  {
    MaskedBits(b);
    var n := Masked(b)[8] >> 4;
    assert n == 8 || n == 9 || n == 10 || n == 11;
  }

  /** Reading an identifier back gives the masked bytes. */
  lemma ParseReturnsMasked(b: Bytes)
    requires |b| == 16
    ensures Unhex(Undashed(Dashed(Hex(Masked(b))))) == Masked(b)
  {
    hide Digit, Masked, Hex, Unhex, Dashed, Undashed;
    HexRoundTrip(Masked(b));
    UndashDash(Hex(Masked(b)));
  }

  predicate SameFreeBits(a: Bytes, b: Bytes)
    requires |a| == |b| == 16
  {
    && (forall i :: 0 <= i < 16 && i != 6 && i != 8 ==> a[i] == b[i])
    && a[6] & 0x0f == b[6] & 0x0f && a[8] & 0x3f == b[8] & 0x3f
  }

  /** Two draws collide exactly when their 122 free bits agree. */
  lemma CollisionIffFreeBitsAgree(a: Bytes, b: Bytes)
    requires |a| == |b| == 16
    ensures Dashed(Hex(Masked(a))) == Dashed(Hex(Masked(b))) <==> SameFreeBits(a, b)
  {
    ParseReturnsMasked(a);
    ParseReturnsMasked(b);
    MaskedAgreeIff(a, b);
  }

  lemma MaskedAgreeIff(a: Bytes, b: Bytes)
    requires |a| == |b| == 16
    ensures Masked(a) == Masked(b) <==> SameFreeBits(a, b)
  {
    if Masked(a) == Masked(b) {
      hide Masked;
      MaskedBits(a);
      MaskedBits(b);
      forall i | 0 <= i < 16 && i != 6 && i != 8 ensures a[i] == b[i] {
        assert Masked(a)[i] == a[i] && Masked(b)[i] == b[i];
      }
    }
  }

  /** Where byte i is printed, after the dashes before it. */
  function Place(i: nat): nat {
    2 * i + (if i >= 4 then 1 else 0) + (if i >= 6 then 1 else 0) + (if i >= 8 then 1 else 0)
        + (if i >= 10 then 1 else 0)
  }

  /** Each byte is printed as its two hexadecimal digits, high nibble first. */
  lemma BytesArePrinted(b: Bytes, i: nat)
    requires |b| == 16 && i < 16
    ensures Place(i) + 1 < 36
    ensures Dashed(Hex(b))[Place(i)] == "0123456789abcdef"[b[i] >> 4]
    ensures Dashed(Hex(b))[Place(i) + 1] == "0123456789abcdef"[b[i] & 0x0f]
  {
    hide Hex, Digit, Dashed, Place;
    HexAt(b, i);
    NibblesRebuild(b[i]);
    DigitIsHex(b[i] >> 4);
    DigitIsHex(b[i] & 0x0f);
    DashedAt(Hex(b), i);
  }

  lemma DashedAt(h: string, i: nat)
    requires |h| == 32 && i < 16
    ensures Place(i) + 1 < 36
    ensures Dashed(h)[Place(i)] == h[2 * i] && Dashed(h)[Place(i) + 1] == h[2 * i + 1]
  {
  }

  lemma DigitIsHex(n: bv8)
    requires n < 16
    ensures Digit(n) == "0123456789abcdef"[n]
  {
  }

  /** The byte buffer is edited in place and printed. */
  method NewUUID(b: array<bv8>) returns (s: string)
    requires b.Length == 16
    modifies b
    ensures b[..] == Masked(old(b[..]))
    ensures b[6] == (old(b[6]) & 0x0f) | 0x40 && b[8] == (old(b[8]) & 0x3f) | 0x80
    ensures forall i :: 0 <= i < 16 && i != 6 && i != 8 ==> b[i] == old(b[i])
    ensures |s| == 36 && s == Dashed(Hex(b[..])) && Unhex(Undashed(s)) == b[..]
  {
    hide Hex, Unhex, Dashed, Undashed, Masked;
    ghost var drawn := b[..];
    b[6] := (b[6] & 0x0f) | 0x40;
    b[8] := (b[8] & 0x3f) | 0x80;
    MaskedInPlace(drawn, b[..]);
    ParseReturnsMasked(drawn);
    s := Dashed(Hex(b[..]));
  }

  lemma MaskedInPlace(drawn: Bytes, b: Bytes)
    requires |drawn| == |b| == 16
    requires b[6] == (drawn[6] & 0x0f) | 0x40 && b[8] == (drawn[8] & 0x3f) | 0x80
    requires forall i :: 0 <= i < 16 && i != 6 && i != 8 ==> b[i] == drawn[i]
    ensures b == Masked(drawn)
  {
  }
}
