/**
 The field of 256 elements, on bytes: addition is exclusive or, multiplication is
 that of polynomials over two elements modulo x^8 + x^4 + x^3 + x^2 + 1. It is a
 field of the kind deployed sharing schemes work in, and just large enough for the
 255 shares a vault may have.
 */
module ByteField {

  function Add(a: bv8, b: bv8): bv8 { a ^ b }

  function Bit(n: nat): bv8 {
    if n == 0 then 0x01 else if n == 1 then 0x02 else if n == 2 then 0x04 else if n == 3 then 0x08
    else if n == 4 then 0x10 else if n == 5 then 0x20 else if n == 6 then 0x40 else 0x80
  }

  /** `x` where the bit is set. */
  function Pick(b: bv8, mask: bv8, x: bv8): bv8 { if b & mask == 0 then 0 else x }

  function Shift(a: bv8): bv8 { a << 1 }

  /** Multiplication by x. */
  function Xtime(a: bv8): bv8 { Add(Shift(a), Pick(a, 0x80, 0x1d)) }

  /** `a`, shifted, for each bit of `b` from `n` up. */
  function MulFrom(a: bv8, b: bv8, n: nat): bv8
    decreases 8 - n
  {
    if n >= 8 then 0 else Add(Pick(b, Bit(n), a), MulFrom(Xtime(a), b, n + 1))
  }

  function Mul(a: bv8, b: bv8): bv8 { MulFrom(a, b, 0) }

  // ---------------------------------------------------------------------
  // Addition, shifts and bits
  // ---------------------------------------------------------------------

  lemma AddCommutes(a: bv8, b: bv8)
    ensures Add(a, b) == Add(b, a)
  {
  }

  lemma AddAssociates(a: bv8, b: bv8, c: bv8)
    ensures Add(Add(a, b), c) == Add(a, Add(b, c))
  {
  }

  lemma AddZero(a: bv8)
    ensures Add(a, 0) == a && Add(0, a) == a && Add(a, a) == 0
  {
  }

  lemma AddSwap(p: bv8, q: bv8, r: bv8, s: bv8)
    ensures Add(Add(p, q), Add(r, s)) == Add(Add(p, r), Add(q, s))
  {
    hide Add;
    AddAssociates(p, q, Add(r, s));
    AddAssociates(q, r, s);
    AddCommutes(q, r);
    AddAssociates(r, q, s);
    AddAssociates(p, r, Add(q, s));
  }

  predicate OneBit(m: bv8) {
    m == 0x01 || m == 0x02 || m == 0x04 || m == 0x08 || m == 0x10 || m == 0x20 || m == 0x40 || m == 0x80
  }

  lemma BitIsOne(n: nat)
    ensures OneBit(Bit(n))
  {
  }

  lemma MaskAdds(b: bv8, c: bv8, m: bv8)
    ensures Add(b, c) & m == Add(b & m, c & m)
  {
  }

  lemma MaskTwo(b: bv8, m: bv8)
    requires OneBit(m)
    ensures b & m == 0 || b & m == m
  {
  }

  lemma PickAddsMask(b: bv8, c: bv8, m: bv8, x: bv8)
    requires OneBit(m)
    ensures Pick(Add(b, c), m, x) == Add(Pick(b, m, x), Pick(c, m, x))
  {
    hide Add;
    MaskAdds(b, c, m);
    MaskTwo(b, m);
    MaskTwo(c, m);
    AddZero(0);
    AddZero(m);
    AddZero(x);
  }

  lemma ShiftAdds(a: bv8, b: bv8)
    ensures Shift(Add(a, b)) == Add(Shift(a), Shift(b))
  {
  }

  lemma XtimeAdds(a: bv8, b: bv8)
    ensures Xtime(Add(a, b)) == Add(Xtime(a), Xtime(b))
  {
    hide Add, Shift, Pick;
    ShiftAdds(a, b);
    PickAddsMask(a, b, 0x80, 0x1d);
    AddSwap(Shift(a), Shift(b), Pick(a, 0x80, 0x1d), Pick(b, 0x80, 0x1d));
  }

  lemma XtimeZero()
    ensures Xtime(0) == 0
  {
  }

  lemma PickAdds(b: bv8, m: bv8, x: bv8, y: bv8)
    ensures Pick(b, m, Add(x, y)) == Add(Pick(b, m, x), Pick(b, m, y))
  {
  }

  lemma PickXtime(b: bv8, m: bv8, x: bv8)
    ensures Xtime(Pick(b, m, x)) == Pick(b, m, Xtime(x))
  {
    hide Xtime;
    XtimeZero();
  }

  lemma PickZero(b: bv8, m: bv8, x: bv8)
    ensures Pick(b, m, 0) == 0 && Pick(0, m, x) == 0
  {
  }

  // ---------------------------------------------------------------------
  // Multiplication is bilinear
  // ---------------------------------------------------------------------

  lemma {:induction false} AddsRight(a: bv8, b: bv8, c: bv8, n: nat)
    ensures MulFrom(a, Add(b, c), n) == Add(MulFrom(a, b, n), MulFrom(a, c, n))
    decreases 8 - n
  {
    hide Add, Xtime, Bit, Pick;
    AddZero(0);
    if n < 8 {
      BitIsOne(n);
      AddsRight(Xtime(a), b, c, n + 1);
      PickAddsMask(b, c, Bit(n), a);
      AddSwap(Pick(b, Bit(n), a), Pick(c, Bit(n), a), MulFrom(Xtime(a), b, n + 1), MulFrom(Xtime(a), c, n + 1));
    }
  }

  lemma {:induction false} AddsLeft(a: bv8, c: bv8, b: bv8, n: nat)
    ensures MulFrom(Add(a, c), b, n) == Add(MulFrom(a, b, n), MulFrom(c, b, n))
    decreases 8 - n
  {
    hide Add, Xtime, Bit, Pick;
    AddZero(0);
    if n < 8 {
      XtimeAdds(a, c);
      AddsLeft(Xtime(a), Xtime(c), b, n + 1);
      PickAdds(b, Bit(n), a, c);
      AddSwap(Pick(b, Bit(n), a), Pick(b, Bit(n), c), MulFrom(Xtime(a), b, n + 1), MulFrom(Xtime(c), b, n + 1));
    }
  }

  lemma {:induction false} XtimeOut(a: bv8, b: bv8, n: nat)
    ensures MulFrom(Xtime(a), b, n) == Xtime(MulFrom(a, b, n))
    decreases 8 - n
  {
    hide Add, Xtime, Bit, Pick;
    XtimeZero();
    if n < 8 {
      XtimeOut(Xtime(a), b, n + 1);
      PickXtime(b, Bit(n), a);
      XtimeAdds(Pick(b, Bit(n), a), MulFrom(Xtime(a), b, n + 1));
    }
  }

  lemma {:induction false} ZeroFrom(a: bv8, n: nat)
    ensures MulFrom(0, a, n) == 0 && MulFrom(a, 0, n) == 0
    decreases 8 - n
  {
    hide Add, Xtime, Bit, Pick;
    XtimeZero();
    AddZero(0);
    if n < 8 {
      ZeroFrom(a, n + 1);
      ZeroFrom(Xtime(a), n + 1);
      PickZero(a, Bit(n), a);
    }
  }

  lemma MulAdds(a: bv8, b: bv8, c: bv8)
    ensures Mul(a, Add(b, c)) == Add(Mul(a, b), Mul(a, c)) && Mul(Add(b, c), a) == Add(Mul(b, a), Mul(c, a))
  {
    hide Add, MulFrom;
    AddsRight(a, b, c, 0);
    AddsLeft(b, c, a, 0);
  }

  lemma MulZero(a: bv8)
    ensures Mul(a, 0) == 0 && Mul(0, a) == 0
  {
    hide MulFrom;
    ZeroFrom(a, 0);
  }

  lemma PickOut(c: bv8, m: bv8, b: bv8, a: bv8)
    ensures Mul(a, Pick(c, m, b)) == Pick(c, m, Mul(a, b)) && Mul(Pick(c, m, b), a) == Pick(c, m, Mul(b, a))
  {
    hide Mul;
    MulZero(a);
  }

  // ---------------------------------------------------------------------
  // Commutativity and associativity
  // ---------------------------------------------------------------------

  function Xpow(a: bv8, n: nat): bv8 { if n == 0 then a else Xtime(Xpow(a, n - 1)) }

  /** The bits of `b` from `n` up. */
  function Top(b: bv8, n: nat): bv8
    decreases 8 - n
  {
    if n >= 8 then 0 else Add(Pick(b, Bit(n), Bit(n)), Top(b, n + 1))
  }

  /** The additive map that takes each bit to the given byte. */
  function Linear(a: bv8, c0: bv8, c1: bv8, c2: bv8, c3: bv8, c4: bv8, c5: bv8, c6: bv8, c7: bv8): bv8 {
    Add(Pick(a, 0x01, c0), Add(Pick(a, 0x02, c1), Add(Pick(a, 0x04, c2), Add(Pick(a, 0x08, c3),
      Add(Pick(a, 0x10, c4), Add(Pick(a, 0x20, c5), Add(Pick(a, 0x40, c6), Pick(a, 0x80, c7))))))))
  }

  lemma LinearIdentity(a: bv8)
    ensures Linear(a, 0x01, 0x02, 0x04, 0x08, 0x10, 0x20, 0x40, 0x80) == a
  {
  }

  lemma AllBits(b: bv8)
    ensures Top(b, 0) == b
  {
    hide Add, Pick;
    LinearIdentity(b);
    AddZero(Pick(b, 0x80, 0x80));
    assert Top(b, 7) == Add(Pick(b, 0x80, 0x80), Top(b, 8));
    assert Top(b, 6) == Add(Pick(b, 0x40, 0x40), Top(b, 7));
    assert Top(b, 5) == Add(Pick(b, 0x20, 0x20), Top(b, 6));
    assert Top(b, 4) == Add(Pick(b, 0x10, 0x10), Top(b, 5));
    assert Top(b, 3) == Add(Pick(b, 0x08, 0x08), Top(b, 4));
    assert Top(b, 2) == Add(Pick(b, 0x04, 0x04), Top(b, 3));
    assert Top(b, 1) == Add(Pick(b, 0x02, 0x02), Top(b, 2));
  }

  lemma NextBit(n: nat)
    requires n < 7
    ensures Bit(n + 1) == Xtime(Bit(n))
  {
  }

  lemma {:induction false} OneFrom(a: bv8, n: nat)
    requires n <= 8
    ensures n < 8 ==> MulFrom(Bit(n), a, n) == Top(a, n)
    ensures 1 <= n ==> MulFrom(a, 1, n) == 0
    decreases 8 - n
  {
    hide Add, Xtime, Pick;
    AddZero(0);
    if n < 8 {
      OneFrom(a, n + 1);
      OneFrom(Xtime(a), n + 1);
      if n < 7 { NextBit(n); }
      if 1 <= n { OtherBit(n, a); }
    }
  }

  lemma OtherBit(n: nat, a: bv8)
    requires 1 <= n
    ensures Pick(1, Bit(n), a) == 0
  {
  }

  lemma MulOne(a: bv8)
    ensures Mul(1, a) == a && Mul(a, 1) == a
  {
    hide Add, Xtime, Top;
    OneFrom(a, 0);
    AllBits(a);
    OneFrom(Xtime(a), 1);
    AddZero(a);
    assert Pick(1, Bit(0), a) == a;
  }

  lemma {:induction false} BitShifts(a: bv8, n: nat)
    requires n < 8
    ensures Mul(Bit(n), a) == Xpow(a, n)
  {
    hide Xtime, MulFrom;
    if n == 0 {
      MulOne(a);
    } else {
      BitShifts(a, n - 1);
      NextBit(n - 1);
      XtimeOut(Bit(n - 1), a, 0);
    }
  }

  lemma {:induction false} CommutesFrom(a: bv8, b: bv8, n: nat)
    requires n <= 8
    ensures MulFrom(Xpow(a, n), b, n) == Mul(Top(b, n), a)
    decreases 8 - n
  {
    hide Add, Xtime, Bit, Pick, Mul;
    if n == 8 {
      MulZero(a);
    } else {
      CommutesFrom(a, b, n + 1);
      MulAdds(a, Pick(b, Bit(n), Bit(n)), Top(b, n + 1));
      PickOut(b, Bit(n), Bit(n), a);
      BitShifts(a, n);
    }
  }

  lemma Commutes(a: bv8, b: bv8)
    ensures Mul(a, b) == Mul(b, a)
  {
    hide MulFrom, Top;
    CommutesFrom(a, b, 0);
    AllBits(b);
  }

  lemma XtimeOutRight(a: bv8, b: bv8)
    ensures Mul(a, Xtime(b)) == Xtime(Mul(a, b))
  {
    hide MulFrom, Xtime;
    Commutes(a, Xtime(b));
    XtimeOut(b, a, 0);
    Commutes(a, b);
  }

  lemma {:induction false} AssociatesFrom(a: bv8, b: bv8, c: bv8, n: nat)
    ensures Mul(a, MulFrom(b, c, n)) == MulFrom(Mul(a, b), c, n)
    decreases 8 - n
  {
    hide Add, Xtime, Bit, Pick, Mul;
    if n >= 8 {
      MulZero(a);
    } else {
      MulAdds(a, Pick(c, Bit(n), b), MulFrom(Xtime(b), c, n + 1));
      PickOut(c, Bit(n), b, a);
      AssociatesFrom(a, Xtime(b), c, n + 1);
      XtimeOutRight(a, b);
    }
  }

  lemma Associates(a: bv8, b: bv8, c: bv8)
    ensures Mul(Mul(a, b), c) == Mul(a, Mul(b, c))
  {
    hide MulFrom;
    AssociatesFrom(a, b, c, 0);
  }

  // ---------------------------------------------------------------------
  // Squaring
  // ---------------------------------------------------------------------

  function Square(a: bv8): bv8 { Mul(a, a) }

  lemma SquareAdds(a: bv8, b: bv8)
    ensures Square(Add(a, b)) == Add(Square(a), Square(b))
  {
    hide Add, Mul;
    MulAdds(Add(a, b), a, b);
    MulAdds(a, a, b);
    MulAdds(b, a, b);
    Commutes(a, b);
    AddSwap(Mul(a, a), Mul(a, b), Mul(a, b), Mul(b, b));
    AddZero(Mul(a, b));
    AddSwap(Mul(a, a), Mul(b, a), Mul(a, b), Mul(b, b));
    Cancel(Mul(a, a), Mul(a, b), Mul(b, b));
  }

  lemma Cancel(p: bv8, q: bv8, r: bv8)
    ensures Add(Add(p, q), Add(q, r)) == Add(p, r)
  {
  }

  ghost predicate Additive(f: bv8 -> bv8) { f(0) == 0 && forall a, b :: f(Add(a, b)) == Add(f(a), f(b)) }

  /** The images of the bits from `n` up. */
  function Images(f: bv8 -> bv8, a: bv8, n: nat): bv8
    decreases 8 - n
  {
    if n >= 8 then 0 else Add(Pick(a, Bit(n), f(Bit(n))), Images(f, a, n + 1))
  }

  lemma {:induction false} ImagesOfTop(f: bv8 -> bv8, a: bv8, n: nat)
    requires Additive(f)
    ensures f(Top(a, n)) == Images(f, a, n)
    decreases 8 - n
  {
    hide Add, Bit;
    if n < 8 {
      ImagesOfTop(f, a, n + 1);
      assert f(Add(Pick(a, Bit(n), Bit(n)), Top(a, n + 1))) == Add(f(Pick(a, Bit(n), Bit(n))), f(Top(a, n + 1)));
    }
  }

  /** An additive map is known by what it does to the eight bits. */
  lemma AdditiveIsLinear(f: bv8 -> bv8, a: bv8)
    requires Additive(f)
    ensures f(a) == Linear(a, f(0x01), f(0x02), f(0x04), f(0x08), f(0x10), f(0x20), f(0x40), f(0x80))
  {
    hide Add, Pick, Additive;
    AllBits(a);
    ImagesOfTop(f, a, 0);
    AddZero(Pick(a, 0x80, f(0x80)));
    assert Images(f, a, 7) == Add(Pick(a, 0x80, f(0x80)), Images(f, a, 8));
    assert Images(f, a, 6) == Add(Pick(a, 0x40, f(0x40)), Images(f, a, 7));
    assert Images(f, a, 5) == Add(Pick(a, 0x20, f(0x20)), Images(f, a, 6));
    assert Images(f, a, 4) == Add(Pick(a, 0x10, f(0x10)), Images(f, a, 5));
    assert Images(f, a, 3) == Add(Pick(a, 0x08, f(0x08)), Images(f, a, 4));
    assert Images(f, a, 2) == Add(Pick(a, 0x04, f(0x04)), Images(f, a, 3));
    assert Images(f, a, 1) == Add(Pick(a, 0x02, f(0x02)), Images(f, a, 2));
  }

  lemma XtimeTable()
    ensures Xtime(0x01) == 0x02 && Xtime(0x02) == 0x04 && Xtime(0x04) == 0x08 && Xtime(0x08) == 0x10
    ensures Xtime(0x10) == 0x20 && Xtime(0x20) == 0x40 && Xtime(0x40) == 0x80 && Xtime(0x80) == 0x1d
    ensures Xtime(0x1d) == 0x3a && Xtime(0x3a) == 0x74 && Xtime(0x74) == 0xe8 && Xtime(0xe8) == 0xcd
    ensures Xtime(0xcd) == 0x87 && Xtime(0x87) == 0x13
  {
  }

  /** The powers of x up to the fourteenth. */
  function PowerOfX(i: nat): bv8 {
    if i < 8 then Bit(i)
    else if i == 8 then 0x1d else if i == 9 then 0x3a else if i == 10 then 0x74 else if i == 11 then 0xe8
    else if i == 12 then 0xcd else if i == 13 then 0x87 else 0x13
  }

  lemma {:induction false} PowersShift(i: nat, n: nat)
    requires i + n < 15
    ensures Xpow(PowerOfX(i), n) == PowerOfX(i + n)
  {
    hide Xtime, PowerOfX;
    if n > 0 {
      PowersShift(i, n - 1);
      NextPower(i + n - 1);
    }
  }

  lemma NextPower(i: nat)
    requires i + 1 < 15
    ensures Xtime(PowerOfX(i)) == PowerOfX(i + 1)
  {
    hide Xtime;
    XtimeTable();
  }

  lemma SquareBit(n: nat)
    requires n < 8
    ensures Square(Bit(n)) == PowerOfX(2 * n) && Bit(n) == PowerOfX(n)
  {
    hide Mul, Xpow, Bit;
    BitShifts(Bit(n), n);
    PowersShift(n, n);
  }

  /** Squaring, bit by bit. */
  function Squared(a: bv8): bv8 { Linear(a, 0x01, 0x04, 0x10, 0x40, 0x1d, 0x74, 0xcd, 0x13) }

  lemma SquareAdditive()
    ensures Additive(Square)
  {
    hide Add, Square;
    SquareZero();
    forall a, b ensures Square(Add(a, b)) == Add(Square(a), Square(b)) { SquareAdds(a, b); }
  }

  lemma SquareIsLinear(a: bv8)
    ensures Square(a) == Squared(a)
  {
    hide Linear, Square, Additive;
    SquareAdditive();
    AdditiveIsLinear(Square, a);
    SquareBits();
  }

  lemma SquareBits()
    ensures Square(0x01) == 0x01 && Square(0x02) == 0x04 && Square(0x04) == 0x10 && Square(0x08) == 0x40
    ensures Square(0x10) == 0x1d && Square(0x20) == 0x74 && Square(0x40) == 0xcd && Square(0x80) == 0x13
  {
    hide Square;
    SquareBit(0);
    SquareBit(1);
    SquareBit(2);
    SquareBit(3);
    SquareBit(4);
    SquareBit(5);
    SquareBit(6);
    SquareBit(7);
  }

  lemma SquareZero()
    ensures Square(0) == 0
  {
    hide Mul;
    MulZero(0);
  }

  function Fourth(a: bv8): bv8 { Linear(a, 0x01, 0x10, 0x1d, 0xcd, 0x4c, 0xb4, 0x8f, 0x18) }

  function Sixteenth(a: bv8): bv8 { Linear(a, 0x01, 0x4c, 0x9d, 0x46, 0x5f, 0xfd, 0xd9, 0x81) }

  lemma LinearAdds(a: bv8, b: bv8, c0: bv8, c1: bv8, c2: bv8, c3: bv8, c4: bv8, c5: bv8, c6: bv8, c7: bv8)
    ensures Linear(Add(a, b), c0, c1, c2, c3, c4, c5, c6, c7)
         == Add(Linear(a, c0, c1, c2, c3, c4, c5, c6, c7), Linear(b, c0, c1, c2, c3, c4, c5, c6, c7))
  {
    hide Add, Pick;
    PickAddsMask(a, b, 0x01, c0);
    PickAddsMask(a, b, 0x02, c1);
    PickAddsMask(a, b, 0x04, c2);
    PickAddsMask(a, b, 0x08, c3);
    PickAddsMask(a, b, 0x10, c4);
    PickAddsMask(a, b, 0x20, c5);
    PickAddsMask(a, b, 0x40, c6);
    PickAddsMask(a, b, 0x80, c7);
    var p6, q6 := Add(Pick(a, 0x40, c6), Pick(a, 0x80, c7)), Add(Pick(b, 0x40, c6), Pick(b, 0x80, c7));
    var p5, q5 := Add(Pick(a, 0x20, c5), p6), Add(Pick(b, 0x20, c5), q6);
    var p4, q4 := Add(Pick(a, 0x10, c4), p5), Add(Pick(b, 0x10, c4), q5);
    var p3, q3 := Add(Pick(a, 0x08, c3), p4), Add(Pick(b, 0x08, c3), q4);
    var p2, q2 := Add(Pick(a, 0x04, c2), p3), Add(Pick(b, 0x04, c2), q3);
    var p1, q1 := Add(Pick(a, 0x02, c1), p2), Add(Pick(b, 0x02, c1), q2);
    AddSwap(Pick(a, 0x40, c6), Pick(b, 0x40, c6), Pick(a, 0x80, c7), Pick(b, 0x80, c7));
    AddSwap(Pick(a, 0x20, c5), Pick(b, 0x20, c5), p6, q6);
    AddSwap(Pick(a, 0x10, c4), Pick(b, 0x10, c4), p5, q5);
    AddSwap(Pick(a, 0x08, c3), Pick(b, 0x08, c3), p4, q4);
    AddSwap(Pick(a, 0x04, c2), Pick(b, 0x04, c2), p3, q3);
    AddSwap(Pick(a, 0x02, c1), Pick(b, 0x02, c1), p2, q2);
    AddSwap(Pick(a, 0x01, c0), Pick(b, 0x01, c0), p1, q1);
  }

  lemma LinearZero(c0: bv8, c1: bv8, c2: bv8, c3: bv8, c4: bv8, c5: bv8, c6: bv8, c7: bv8)
    ensures Linear(0, c0, c1, c2, c3, c4, c5, c6, c7) == 0
  {
    hide Add;
    AddZero(0);
  }

  function SquaredTwo(a: bv8): bv8 { Squared(Squared(a)) }

  function FourthTwo(a: bv8): bv8 { Fourth(Fourth(a)) }

  function SixteenthTwo(a: bv8): bv8 { Sixteenth(Sixteenth(a)) }

  lemma SquaredTwoAdditive()
    ensures Additive(SquaredTwo)
  {
    hide Add, Linear;
    LinearZero(0x01, 0x04, 0x10, 0x40, 0x1d, 0x74, 0xcd, 0x13);
    forall a, b ensures SquaredTwo(Add(a, b)) == Add(SquaredTwo(a), SquaredTwo(b)) {
      LinearAdds(a, b, 0x01, 0x04, 0x10, 0x40, 0x1d, 0x74, 0xcd, 0x13);
      LinearAdds(Squared(a), Squared(b), 0x01, 0x04, 0x10, 0x40, 0x1d, 0x74, 0xcd, 0x13);
    }
  }

  lemma FourthTwoAdditive()
    ensures Additive(FourthTwo)
  {
    hide Add, Linear;
    LinearZero(0x01, 0x10, 0x1d, 0xcd, 0x4c, 0xb4, 0x8f, 0x18);
    forall a, b ensures FourthTwo(Add(a, b)) == Add(FourthTwo(a), FourthTwo(b)) {
      LinearAdds(a, b, 0x01, 0x10, 0x1d, 0xcd, 0x4c, 0xb4, 0x8f, 0x18);
      LinearAdds(Fourth(a), Fourth(b), 0x01, 0x10, 0x1d, 0xcd, 0x4c, 0xb4, 0x8f, 0x18);
    }
  }

  lemma SixteenthTwoAdditive()
    ensures Additive(SixteenthTwo)
  {
    hide Add, Linear;
    LinearZero(0x01, 0x4c, 0x9d, 0x46, 0x5f, 0xfd, 0xd9, 0x81);
    forall a, b ensures SixteenthTwo(Add(a, b)) == Add(SixteenthTwo(a), SixteenthTwo(b)) {
      LinearAdds(a, b, 0x01, 0x4c, 0x9d, 0x46, 0x5f, 0xfd, 0xd9, 0x81);
      LinearAdds(Sixteenth(a), Sixteenth(b), 0x01, 0x4c, 0x9d, 0x46, 0x5f, 0xfd, 0xd9, 0x81);
    }
  }

  lemma SquaredTable()
    ensures Squared(0x01) == 0x01 && Squared(0x02) == 0x04 && Squared(0x04) == 0x10 && Squared(0x08) == 0x40
    ensures Squared(0x10) == 0x1d && Squared(0x20) == 0x74 && Squared(0x40) == 0xcd && Squared(0x80) == 0x13
  {
    hide Square, Squared;
    SquareBits();
    SquareIsLinear(0x01);
    SquareIsLinear(0x02);
    SquareIsLinear(0x04);
    SquareIsLinear(0x08);
    SquareIsLinear(0x10);
    SquareIsLinear(0x20);
    SquareIsLinear(0x40);
    SquareIsLinear(0x80);
  }

  lemma SquaredAdds(a: bv8, b: bv8)
    ensures Squared(Add(a, b)) == Add(Squared(a), Squared(b))
  {
    hide Linear;
    LinearAdds(a, b, 0x01, 0x04, 0x10, 0x40, 0x1d, 0x74, 0xcd, 0x13);
  }

  lemma SquaredTableHigh()
    ensures Squared(0x1d) == 0x4c && Squared(0x74) == 0xb4 && Squared(0xcd) == 0x8f && Squared(0x13) == 0x18
  {
    hide Squared;
    SquaredTable();
    SquaredAdds(0x10, 0x08);
    SquaredAdds(0x18, 0x04);
    SquaredAdds(0x1c, 0x01);
    SquaredAdds(0x40, 0x20);
    SquaredAdds(0x60, 0x10);
    SquaredAdds(0x70, 0x04);
    SquaredAdds(0x80, 0x40);
    SquaredAdds(0xc0, 0x08);
    SquaredAdds(0xc8, 0x04);
    SquaredAdds(0xcc, 0x01);
    SquaredAdds(0x10, 0x02);
    SquaredAdds(0x12, 0x01);
  }

  lemma SquaredTwice(a: bv8)
    ensures Squared(Squared(a)) == Fourth(a)
  {
    hide Linear, Squared, Additive;
    SquaredTwoAdditive();
    AdditiveIsLinear(SquaredTwo, a);
    SquaredTable();
    SquaredTableHigh();
  }

  lemma FourthTable()
    ensures Fourth(Fourth(0x01)) == 0x01 && Fourth(Fourth(0x02)) == 0x4c && Fourth(Fourth(0x04)) == 0x9d
    ensures Fourth(Fourth(0x08)) == 0x46 && Fourth(Fourth(0x10)) == 0x5f && Fourth(Fourth(0x20)) == 0xfd
    ensures Fourth(Fourth(0x40)) == 0xd9 && Fourth(Fourth(0x80)) == 0x81
  {
  }

  lemma FourthTwice(a: bv8)
    ensures Fourth(Fourth(a)) == Sixteenth(a)
  {
    hide Linear, Fourth, Additive;
    FourthTwoAdditive();
    AdditiveIsLinear(FourthTwo, a);
    FourthTable();
  }

  lemma SixteenthTable()
    ensures Sixteenth(0x01) == 0x01 && Sixteenth(0x4c) == 0x02 && Sixteenth(0x9d) == 0x04 && Sixteenth(0x46) == 0x08
    ensures Sixteenth(0x5f) == 0x10 && Sixteenth(0xfd) == 0x20 && Sixteenth(0xd9) == 0x40 && Sixteenth(0x81) == 0x80
    ensures Sixteenth(0x02) == 0x4c && Sixteenth(0x04) == 0x9d && Sixteenth(0x08) == 0x46 && Sixteenth(0x10) == 0x5f
    ensures Sixteenth(0x20) == 0xfd && Sixteenth(0x40) == 0xd9 && Sixteenth(0x80) == 0x81
  {
  }

  lemma SixteenthTwice(a: bv8)
    ensures Sixteenth(Sixteenth(a)) == a
  {
    hide Linear, Sixteenth, Additive;
    SixteenthTwoAdditive();
    AdditiveIsLinear(SixteenthTwo, a);
    SixteenthTable();
    LinearIdentity(a);
  }

  lemma Idempotents(e: bv8)
    requires Squared(e) == e
    ensures e == 0 || e == 1
  {
  }

  // ---------------------------------------------------------------------
  // Inverses
  // ---------------------------------------------------------------------

  function Power(a: bv8, n: nat): bv8 { if n == 0 then 1 else Mul(a, Power(a, n - 1)) }

  lemma {:induction false} PowerDoubles(a: bv8, n: nat)
    ensures Power(a, 2 * n) == Square(Power(a, n))
  {
    hide Mul;
    if n == 0 {
      MulOne(1);
    } else {
      PowerDoubles(a, n - 1);
      var p := Power(a, n - 1);
      assert Power(a, 2 * n) == Mul(a, Power(a, 2 * n - 1)) && Power(a, 2 * n - 1) == Mul(a, Power(a, 2 * (n - 1)));
      Associates(a, a, Mul(p, p));
      Associates(a, p, Mul(a, p));
      Associates(p, a, p);
      Commutes(p, a);
      Associates(a, p, p);
    }
  }

  function Inverse(a: bv8): bv8 { Power(a, 254) }

  lemma Fermat(a: bv8)
    ensures Power(a, 256) == a
  {
    hide Mul, Square, Squared, Fourth, Sixteenth;
    assert Power(a, 1) == a by { MulOne(a); }
    PowerDoubles(a, 1);
    PowerDoubles(a, 2);
    PowerDoubles(a, 4);
    PowerDoubles(a, 8);
    PowerDoubles(a, 16);
    PowerDoubles(a, 32);
    PowerDoubles(a, 64);
    PowerDoubles(a, 128);
    SquareIsLinear(a);
    SquareIsLinear(Squared(a));
    SquaredTwice(a);
    var b := Fourth(a);
    SquareIsLinear(b);
    SquareIsLinear(Squared(b));
    SquaredTwice(b);
    FourthTwice(a);
    var c := Sixteenth(a);
    SquareIsLinear(c);
    SquareIsLinear(Squared(c));
    SquaredTwice(c);
    var d := Fourth(c);
    SquareIsLinear(d);
    SquareIsLinear(Squared(d));
    SquaredTwice(d);
    FourthTwice(c);
    SixteenthTwice(a);
  }

  /** Every byte but zero has an inverse. */
  lemma InverseWorks(a: bv8)
    requires a != 0
    ensures Mul(a, Inverse(a)) == 1
  {
    hide Mul, Squared;
    Fermat(a);
    var e := Power(a, 255);
    assert Mul(a, e) == a;
    assert e == Mul(a, Inverse(a));
    Commutes(e, a);
    Associates(e, a, Inverse(a));
    SquareIsLinear(e);
    Idempotents(e);
    MulZero(a);
  }
}
