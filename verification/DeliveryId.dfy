/** The identifier a job's delivery gets: the first sixteen digest bytes with the version and variant bits of a
    random identifier written into them (sections 4 and 5.4 of RFC 9562). */
module DeliveryId {

  type Bytes = b: seq<bv8> | |b| == 16 witness seq(16, _ => 0 as bv8)

  /** The specification of the two byte writes. */
  function Stamped(bytes: Bytes): (r: Bytes) {
    bytes[6 := (bytes[6] & 15) | 64][8 := (bytes[8] & 63) | 128]
  }

  /** The writes happen in place. */
  method Stamp(bytes: array<bv8>)
    requires bytes.Length == 16
    modifies bytes
    ensures bytes[..] == Stamped(old(bytes[..]))
  {
    bytes[6] := (bytes[6] & 15) | 64;
    bytes[8] := (bytes[8] & 63) | 128;
  }

  // ----- what is kept

  /** The 122 bits the two writes do not touch. */
  predicate SameKeptBits(a: Bytes, b: Bytes) {
    && (forall k :: 0 <= k < 16 && k != 6 && k != 8 ==> a[k] == b[k])
    && a[6] & 15 == b[6] & 15
    && a[8] & 63 == b[8] & 63
  }

  lemma LowNibble(x: bv8, y: bv8)
    ensures (x & 15) | 64 == (y & 15) | 64 <==> x & 15 == y & 15
  {
  }

  lemma LowSix(x: bv8, y: bv8)
    ensures (x & 63) | 128 == (y & 63) | 128 <==> x & 63 == y & 63
  {
  }

  /** Two digests get the same identifier exactly when they agree on the kept bits. */
  lemma InjectiveOnKeptBits(a: Bytes, b: Bytes)
    ensures Stamped(a) == Stamped(b) <==> SameKeptBits(a, b)
  {
    LowNibble(a[6], b[6]);
    LowSix(a[8], b[8]);
    var x, y := Stamped(a), Stamped(b);
    assert x[6] == (a[6] & 15) | 64 && y[6] == (b[6] & 15) | 64;
    assert x[8] == (a[8] & 63) | 128 && y[8] == (b[8] & 63) | 128;
    assert forall k :: 0 <= k < 16 && k != 6 && k != 8 ==> x[k] == a[k] && y[k] == b[k];
    if SameKeptBits(a, b) { assert x == y; }
  }

  predicate Version4(bytes: Bytes) {
    bytes[6] >> 4 == 4 && bytes[8] >> 6 == 2
  }

  lemma FieldBits(x: bv8)
    ensures ((x & 15) | 64) >> 4 == 4 && ((x & 63) | 128) >> 6 == 2
    ensures x >> 4 == 4 ==> (x & 15) | 64 == x
    ensures x >> 6 == 2 ==> (x & 63) | 128 == x
  {
  }

  /** The result is always a version-4 identifier, and stamping one of those again changes nothing: the
      identifiers are exactly the byte strings that stamping leaves alone. */
  lemma Version4Exactly(bytes: Bytes)
    ensures Version4(Stamped(bytes))
    ensures Version4(bytes) <==> Stamped(bytes) == bytes
  {
    FieldBits(bytes[6]);
    FieldBits(bytes[8]);
    if Stamped(bytes) == bytes { assert Version4(Stamped(bytes)); }
  }

  // ----- the same writes on one 128-bit number, as queue recovery recomputes the identifier

  /** The bytes as one number, the first byte highest. */
  function Number(b: Bytes): bv128 {
    (b[0] as bv128 << 120) | (b[1] as bv128 << 112) | (b[2] as bv128 << 104) | (b[3] as bv128 << 96)
    | (b[4] as bv128 << 88) | (b[5] as bv128 << 80) | (b[6] as bv128 << 72) | (b[7] as bv128 << 64)
    | (b[8] as bv128 << 56) | (b[9] as bv128 << 48) | (b[10] as bv128 << 40) | (b[11] as bv128 << 32)
    | (b[12] as bv128 << 24) | (b[13] as bv128 << 16) | (b[14] as bv128 << 8) | (b[15] as bv128)
  }

  const VARIANT_MASK: bv128 := 0xc000 << 48
  const VERSION_MASK: bv128 := 0xf000 << 64

  /** Variant first, then the version, each field cleared and set. */
  function StampedNumber(n: bv128): bv128 {
    var variant := (n & !VARIANT_MASK) | (0x8000 << 48);
    (variant & !VERSION_MASK) | (4 << 76)
  }

  lemma BytewiseIsNumeric(b: Bytes)
    ensures Number(Stamped(b)) == StampedNumber(Number(b))
  {
  }

  // ----- the text form

  const HEX := "0123456789abcdef"

  function Digit(nibble: bv8): char
    requires nibble < 16
  {
    HEX[nibble as nat]
  }

  function HexOf(b: seq<bv8>): (r: string)
    ensures |r| == 2 * |b|
  {
    if b == [] then "" else [Digit(b[0] >> 4), Digit(b[0] & 15)] + HexOf(b[1..])
  }

  function Text(b: Bytes): string {
    var hex := HexOf(b);
    hex[..8] + "-" + hex[8..12] + "-" + hex[12..16] + "-" + hex[16..20] + "-" + hex[20..]
  }

  lemma {:induction false} HexAt(b: seq<bv8>, k: nat)
    requires k < |b|
    ensures HexOf(b)[2 * k] == Digit(b[k] >> 4) && HexOf(b)[2 * k + 1] == Digit(b[k] & 15)
  {
    if k > 0 {
      HexAt(b[1..], k - 1);
      assert HexOf(b)[2..] == HexOf(b[1..]);
      assert HexOf(b)[2 * k] == HexOf(b)[2..][2 * (k - 1)];
      assert HexOf(b)[2 * k + 1] == HexOf(b)[2..][2 * (k - 1) + 1];
    }
  }

  lemma DigitInjective(x: bv8, y: bv8)
    requires x < 16 && y < 16 && Digit(x) == Digit(y)
    ensures x == y
  {
    var i, j := x as nat, y as nat;
    assert forall p, q :: 0 <= p < q < 16 ==> HEX[p] != HEX[q];
    assert i == j;
    assert x == i as bv8 && y == j as bv8;
  }

  lemma ByteFromHalves(x: bv8, y: bv8)
    requires x >> 4 == y >> 4 && x & 15 == y & 15
    ensures x == y
  {
  }

  lemma HexInjective(a: Bytes, b: Bytes)
    requires HexOf(a) == HexOf(b)
    ensures a == b
  {
    forall k | 0 <= k < 16 ensures a[k] == b[k] {
      HexAt(a, k);
      HexAt(b, k);
      DigitInjective(a[k] >> 4, b[k] >> 4);
      DigitInjective(a[k] & 15, b[k] & 15);
      ByteFromHalves(a[k], b[k]);
    }
  }

  lemma {:induction false} HexDigits(b: seq<bv8>)
    ensures forall c :: c in HexOf(b) ==> c in HEX
  {
    if b != [] {
      assert Digit(b[0] >> 4) in HEX && Digit(b[0] & 15) in HEX;
      HexDigits(b[1..]);
    }
  }

  predicate IsHyphen(k: nat) { k == 8 || k == 13 || k == 18 || k == 23 }

  /** Lower-case hexadecimal digits in five groups, the version digit four, the variant digit one of four. */
  predicate Version4Text(t: string) {
    && |t| == 36 && t[14] == '4' && t[19] in "89ab"
    && forall k: nat :: k < 36 ==> if IsHyphen(k) then t[k] == '-' else t[k] in HEX
  }

  /** Where each character of the text comes from. */
  lemma TextAt(b: Bytes, k: nat)
    requires k < 36
    ensures |Text(b)| == 36 && if IsHyphen(k) then Text(b)[k] == '-' else Text(b)[k] in HexOf(b)
  {
    var t, hex := Text(b), HexOf(b);
    if k < 8 { assert t[k] == hex[k]; }
    else if 8 < k < 13 { assert t[k] == hex[k - 1]; }
    else if 13 < k < 18 { assert t[k] == hex[k - 2]; }
    else if 18 < k < 23 { assert t[k] == hex[k - 3]; }
    else if 23 < k { assert t[k] == hex[k - 4]; }
  }

  /** The text has the shape of an identifier of version 4 and of the variant of RFC 9562. */
  lemma TextOfVersion4(b: Bytes)
    requires Version4(b)
    ensures Version4Text(Text(b))
  {
    HexAt(b, 6);
    HexAt(b, 8);
    var t, hex := Text(b), HexOf(b);
    assert t[14] == hex[12] && t[19] == hex[16];
    assert Digit(4) == HEX[4];
    VariantDigit(b[8]);
    HexDigits(b);
    forall k: nat | k < 36 ensures if IsHyphen(k) then t[k] == '-' else t[k] in HEX { TextAt(b, k); }
  }

  lemma VariantDigit(x: bv8)
    requires x >> 6 == 2
    ensures Digit(x >> 4) in "89ab"
  {
    assert x >> 4 == 8 || x >> 4 == 9 || x >> 4 == 10 || x >> 4 == 11;
    assert Digit(8) == HEX[8] && Digit(9) == HEX[9] && Digit(10) == HEX[10] && Digit(11) == HEX[11];
  }

  lemma TextInjective(a: Bytes, b: Bytes)
    requires Text(a) == Text(b)
    ensures a == b
  {
    var t, u, x, y := Text(a), Text(b), HexOf(a), HexOf(b);
    assert x[..8] == t[..8] == u[..8] == y[..8];
    assert x[8..12] == t[9..13] == u[9..13] == y[8..12];
    assert x[12..16] == t[14..18] == u[14..18] == y[12..16];
    assert x[16..20] == t[19..23] == u[19..23] == y[16..20];
    assert x[20..] == t[24..] == u[24..] == y[20..];
    assert x == x[..8] + x[8..12] + x[12..16] + x[16..20] + x[20..];
    assert y == y[..8] + y[8..12] + y[12..16] + y[16..20] + y[20..];
    HexInjective(a, b);
  }

  /** Two deliveries share an identifier exactly when their digests agree on the 122 kept bits; the identifier
      is a version-4 one in the form of section 4 of RFC 9562, and its text tells different identifiers apart. */
  lemma StableDeliveryId(a: Bytes, b: Bytes)
    ensures Text(Stamped(a)) == Text(Stamped(b)) <==> SameKeptBits(a, b)
    ensures Version4Text(Text(Stamped(a)))
  {
    InjectiveOnKeptBits(a, b);
    Version4Exactly(a);
    TextOfVersion4(Stamped(a));
    if Text(Stamped(a)) == Text(Stamped(b)) { TextInjective(Stamped(a), Stamped(b)); }
  }
}
