/** Numbers as bytes: keys in base 256, and the points that shares are taken at. */
module Bytes {

  function BitOf(on: bool, mask: bv8): bv8 { if on then mask else 0 }

  function Join(b0: bool, b1: bool, b2: bool, b3: bool, b4: bool, b5: bool, b6: bool, b7: bool): bv8 {
    BitOf(b0, 0x01) | BitOf(b1, 0x02) | BitOf(b2, 0x04) | BitOf(b3, 0x08)
    | BitOf(b4, 0x10) | BitOf(b5, 0x20) | BitOf(b6, 0x40) | BitOf(b7, 0x80)
  }

  function Weight(b: bv8, mask: bv8, weight: nat): nat { if b & mask == 0 then 0 else weight }

  /** The number a byte stands for. */
  function Value(b: bv8): nat {
    Weight(b, 0x01, 1) + Weight(b, 0x02, 2) + Weight(b, 0x04, 4) + Weight(b, 0x08, 8)
    + Weight(b, 0x10, 16) + Weight(b, 0x20, 32) + Weight(b, 0x40, 64) + Weight(b, 0x80, 128)
  }

  function Half(n: nat): nat { n / 2 }

  predicate Odd(n: nat) { n % 2 == 1 }

  function ToByte(n: nat): bv8 {
    var n1 := Half(n);
    var n2 := Half(n1);
    var n3 := Half(n2);
    var n4 := Half(n3);
    var n5 := Half(n4);
    var n6 := Half(n5);
    var n7 := Half(n6);
    Join(Odd(n), Odd(n1), Odd(n2), Odd(n3), Odd(n4), Odd(n5), Odd(n6), Odd(n7))
  }

  lemma JoinBits(b0: bool, b1: bool, b2: bool, b3: bool, b4: bool, b5: bool, b6: bool, b7: bool)
    ensures var b := Join(b0, b1, b2, b3, b4, b5, b6, b7);
            && (b & 0x01 != 0 <==> b0) && (b & 0x02 != 0 <==> b1) && (b & 0x04 != 0 <==> b2)
            && (b & 0x08 != 0 <==> b3) && (b & 0x10 != 0 <==> b4) && (b & 0x20 != 0 <==> b5)
            && (b & 0x40 != 0 <==> b6) && (b & 0x80 != 0 <==> b7)
  {
  }

  function Unit(on: bool): nat { if on then 1 else 0 }

  lemma JoinValue(b0: bool, b1: bool, b2: bool, b3: bool, b4: bool, b5: bool, b6: bool, b7: bool)
    ensures Value(Join(b0, b1, b2, b3, b4, b5, b6, b7))
         == Unit(b0) + 2 * Unit(b1) + 4 * Unit(b2) + 8 * Unit(b3) + 16 * Unit(b4) + 32 * Unit(b5) + 64 * Unit(b6) + 128 * Unit(b7)
  {
    hide Join;
    JoinBits(b0, b1, b2, b3, b4, b5, b6, b7);
  }

  lemma HalfAndOdd(n: nat)
    ensures n == 2 * Half(n) + Unit(Odd(n))
  {
  }

  lemma ByteRoundTrip(n: nat)
    requires n < 256
    ensures Value(ToByte(n)) == n
  {
    hide Join, Value, Half, Odd;
    var n1 := Half(n);
    var n2 := Half(n1);
    var n3 := Half(n2);
    var n4 := Half(n3);
    var n5 := Half(n4);
    var n6 := Half(n5);
    var n7 := Half(n6);
    JoinValue(Odd(n), Odd(n1), Odd(n2), Odd(n3), Odd(n4), Odd(n5), Odd(n6), Odd(n7));
    HalfAndOdd(n);
    HalfAndOdd(n1);
    HalfAndOdd(n2);
    HalfAndOdd(n3);
    HalfAndOdd(n4);
    HalfAndOdd(n5);
    HalfAndOdd(n6);
    HalfAndOdd(n7);
  }

  function ToBytes(n: nat): seq<bv8> { if n == 0 then [] else [ToByte(n % 256)] + ToBytes(n / 256) }

  function FromBytes(bytes: seq<bv8>): nat { if bytes == [] then 0 else Value(bytes[0]) + 256 * FromBytes(bytes[1..]) }

  lemma {:induction false} BytesRoundTrip(n: nat)
    ensures FromBytes(ToBytes(n)) == n
  {
    hide ToByte, Value;
    if n > 0 {
      BytesRoundTrip(n / 256);
      ByteRoundTrip(n % 256);
      assert ToBytes(n)[1..] == ToBytes(n / 256);
    }
  }

  function Pow256(w: nat): nat { if w == 0 then 1 else 256 * Pow256(w - 1) }

  lemma {:induction false} ToBytesFits(n: nat, w: nat)
    requires n < Pow256(w)
    ensures |ToBytes(n)| <= w
  {
    if n > 0 {
      ToBytesFits(n / 256, w - 1);
    }
  }

  /** The bytes of a number, filled up with zeros to the given width. */
  function FixedBytes(n: nat, w: nat): seq<bv8> {
    var bytes := ToBytes(n);
    bytes + seq(if |bytes| < w then w - |bytes| else 0, _ => 0)
  }

  lemma FixedBytesWidth(n: nat, w: nat)
    requires n < Pow256(w)
    ensures |FixedBytes(n, w)| == w
  {
    ToBytesFits(n, w);
  }

  lemma {:induction false} HighZeros(bytes: seq<bv8>, zeros: seq<bv8>)
    requires forall i | 0 <= i < |zeros| :: zeros[i] == 0
    ensures FromBytes(bytes + zeros) == FromBytes(bytes)
    decreases |bytes|, |zeros|
  {
    if bytes != [] {
      assert (bytes + zeros)[1..] == bytes[1..] + zeros;
      HighZeros(bytes[1..], zeros);
    } else {
      assert bytes + zeros == zeros;
      if zeros != [] {
        assert [] + zeros[1..] == zeros[1..];
        HighZeros([], zeros[1..]);
        ByteRoundTrip(0);
      }
    }
  }

  lemma FixedBytesRoundTrip(n: nat, w: nat)
    ensures FromBytes(FixedBytes(n, w)) == n
  {
    hide ToBytes, FromBytes;
    var bytes := ToBytes(n);
    BytesRoundTrip(n);
    HighZeros(bytes, FixedBytes(n, w)[|bytes|..]);
    assert FixedBytes(n, w) == bytes + FixedBytes(n, w)[|bytes|..];
  }

  /** The point of share `i`. */
  function PointOf(i: nat): bv8 { ToByte(i + 1) }

  lemma PointsDiffer(i: nat, j: nat)
    requires i < j < 255
    ensures PointOf(i) != PointOf(j)
  {
    hide ToByte, Value;
    ByteRoundTrip(i + 1);
    ByteRoundTrip(j + 1);
  }

  lemma PointNonzero(i: nat)
    requires i < 255
    ensures PointOf(i) != 0
  {
    hide ToByte;
    ByteRoundTrip(i + 1);
  }
}
