/**
 A sharing scheme that meets the seal's contract: Shamir's, over any field with at
 least 255 elements besides zero, one for each share a vault may have. Each element
 of the secret is the constant term of its own polynomial of degree below the
 threshold; a share is one point of every polynomial.

 The field is a record of operations, so the same proof covers the reals below and
 the byte field of deployed schemes, which has exactly that many.
 */
module SecretSharing {
  import opened Wrappers
  import opened Envelope
  import opened Sealing

  datatype Field<!E> = Field(zero: E, one: E, add: (E, E) -> E, neg: E -> E, mul: (E, E) -> E, inv: E -> E)

  ghost predicate Commutative<E(!new)>(op: (E, E) -> E) { forall a, b :: op(a, b) == op(b, a) }

  ghost predicate Associative<E(!new)>(op: (E, E) -> E) { forall a, b, c :: op(op(a, b), c) == op(a, op(b, c)) }

  ghost predicate AddLaws<E(!new)>(f: Field<E>) {
    && Commutative(f.add) && Associative(f.add)
    && (forall a :: f.add(a, f.zero) == a)
    && (forall a :: f.add(a, f.neg(a)) == f.zero)
  }

  ghost predicate MulLaws<E(!new)>(f: Field<E>) {
    && Commutative(f.mul) && Associative(f.mul)
    && (forall a :: f.mul(a, f.one) == a)
    && (forall a | a != f.zero :: f.mul(a, f.inv(a)) == f.one)
  }

  ghost predicate DistributiveLaw<E(!new)>(f: Field<E>) {
    forall a, b, c :: f.mul(a, f.add(b, c)) == f.add(f.mul(a, b), f.mul(a, c))
  }

  ghost predicate Laws<E(!new)>(f: Field<E>) { AddLaws(f) && MulLaws(f) && DistributiveLaw(f) }

  function Sub<E>(f: Field<E>, a: E, b: E): E { f.add(a, f.neg(b)) }

  // ---------------------------------------------------------------------
  // Field arithmetic, one law at a time
  // ---------------------------------------------------------------------

  lemma AddComm<E(!new)>(f: Field<E>, a: E, b: E)
    requires Laws(f)
    ensures f.add(a, b) == f.add(b, a)
  {
  }

  lemma AddAssoc<E(!new)>(f: Field<E>, a: E, b: E, c: E)
    requires Laws(f)
    ensures f.add(f.add(a, b), c) == f.add(a, f.add(b, c))
  {
  }

  lemma AddZero<E(!new)>(f: Field<E>, a: E)
    requires Laws(f)
    ensures f.add(a, f.zero) == a && f.add(f.zero, a) == a && f.add(a, f.neg(a)) == f.zero
  {
    AddComm(f, a, f.zero);
  }

  lemma MulComm<E(!new)>(f: Field<E>, a: E, b: E)
    requires Laws(f)
    ensures f.mul(a, b) == f.mul(b, a)
  {
  }

  lemma MulAssoc<E(!new)>(f: Field<E>, a: E, b: E, c: E)
    requires Laws(f)
    ensures f.mul(f.mul(a, b), c) == f.mul(a, f.mul(b, c))
  {
  }

  lemma Distributes<E(!new)>(f: Field<E>, a: E, b: E, c: E)
    requires Laws(f)
    ensures f.mul(a, f.add(b, c)) == f.add(f.mul(a, b), f.mul(a, c))
    ensures f.mul(f.add(b, c), a) == f.add(f.mul(b, a), f.mul(c, a))
  {
    hide Laws;
    DistributesLeft(f, a, b, c);
    MulComm(f, a, f.add(b, c));
    MulComm(f, a, b);
    MulComm(f, a, c);
  }

  lemma DistributesLeft<E(!new)>(f: Field<E>, a: E, b: E, c: E)
    requires Laws(f)
    ensures f.mul(a, f.add(b, c)) == f.add(f.mul(a, b), f.mul(a, c))
  {
  }

  lemma InverseLaw<E(!new)>(f: Field<E>, a: E)
    requires Laws(f) && a != f.zero
    ensures f.mul(a, f.inv(a)) == f.one
    ensures forall x :: f.mul(x, f.one) == x
  {
  }

  /** a + (b - a) == b. */
  lemma AddSub<E(!new)>(f: Field<E>, a: E, b: E)
    requires Laws(f)
    ensures f.add(a, Sub(f, b, a)) == b
  {
    hide Laws;
    calc {
      f.add(a, f.add(b, f.neg(a)));
      { AddComm(f, b, f.neg(a)); }
      f.add(a, f.add(f.neg(a), b));
      { AddAssoc(f, a, f.neg(a), b); }
      f.add(f.add(a, f.neg(a)), b);
      { AddZero(f, a); AddZero(f, b); }
      b;
    }
  }

  /** (a + b) - a == b. */
  lemma SubAdd<E(!new)>(f: Field<E>, a: E, b: E)
    requires Laws(f)
    ensures Sub(f, f.add(a, b), a) == b
  {
    hide Laws;
    calc {
      f.add(f.add(a, b), f.neg(a));
      { AddComm(f, a, b); }
      f.add(f.add(b, a), f.neg(a));
      { AddAssoc(f, b, a, f.neg(a)); }
      f.add(b, f.add(a, f.neg(a)));
      { AddZero(f, a); AddZero(f, b); }
      b;
    }
  }

  lemma MulZero<E(!new)>(f: Field<E>, a: E)
    requires Laws(f)
    ensures f.mul(a, f.zero) == f.zero && f.mul(f.zero, a) == f.zero
  {
    hide Laws;
    var z := f.mul(a, f.zero);
    AddZero(f, f.zero);
    Distributes(f, a, f.zero, f.zero);
    SubAdd(f, z, z);
    AddZero(f, z);
    MulComm(f, a, f.zero);
  }

  /** Different elements differ by something invertible. */
  lemma SubNonzero<E(!new)>(f: Field<E>, a: E, b: E)
    requires Laws(f) && a != b
    ensures Sub(f, a, b) != f.zero
  {
    hide Laws;
    AddSub(f, b, a);
    AddZero(f, b);
  }

  /** (d * q) / d == q. */
  lemma DivMul<E(!new)>(f: Field<E>, d: E, q: E)
    requires Laws(f) && d != f.zero
    ensures f.mul(f.mul(d, q), f.inv(d)) == q
  {
    hide Laws;
    calc {
      f.mul(f.mul(d, q), f.inv(d));
      { MulComm(f, d, q); }
      f.mul(f.mul(q, d), f.inv(d));
      { MulAssoc(f, q, d, f.inv(d)); }
      f.mul(q, f.mul(d, f.inv(d)));
      { InverseLaw(f, d); }
      q;
    }
  }

  // ---------------------------------------------------------------------
  // Polynomials
  // ---------------------------------------------------------------------

  function Eval<E>(f: Field<E>, cs: seq<E>, x: E): E {
    if cs == [] then f.zero else f.add(cs[0], f.mul(x, Eval(f, cs[1..], x)))
  }

  /** The coefficients of (p(x) - p(a)) / (x - a). */
  function Quotient<E>(f: Field<E>, cs: seq<E>, a: E): (q: seq<E>)
    ensures |q| == if cs == [] then 0 else |cs| - 1
  {
    if |cs| <= 1 then [] else [Eval(f, cs[1..], a)] + Quotient(f, cs[1..], a)
  }

  /** x*(pa + (x-a)*q) == a*pa + (x-a)*(pa + x*q). */
  lemma Regroup<E(!new)>(f: Field<E>, x: E, a: E, pa: E, q: E)
    requires Laws(f)
    ensures var d := Sub(f, x, a);
            f.mul(x, f.add(pa, f.mul(d, q))) == f.add(f.mul(a, pa), f.mul(d, f.add(pa, f.mul(x, q))))
  {
    hide Laws, Sub;
    var d := Sub(f, x, a);
    calc {
      f.mul(x, f.add(pa, f.mul(d, q)));
      { Distributes(f, x, pa, f.mul(d, q)); }
      f.add(f.mul(x, pa), f.mul(x, f.mul(d, q)));
      { MulAssoc(f, x, d, q); MulComm(f, x, d); MulAssoc(f, d, x, q); }
      f.add(f.mul(x, pa), f.mul(d, f.mul(x, q)));
      { AddSub(f, a, x); Distributes(f, pa, a, d); }
      f.add(f.add(f.mul(a, pa), f.mul(d, pa)), f.mul(d, f.mul(x, q)));
      { AddAssoc(f, f.mul(a, pa), f.mul(d, pa), f.mul(d, f.mul(x, q))); }
      f.add(f.mul(a, pa), f.add(f.mul(d, pa), f.mul(d, f.mul(x, q))));
      { Distributes(f, d, pa, f.mul(x, q)); }
      f.add(f.mul(a, pa), f.mul(d, f.add(pa, f.mul(x, q))));
    }
  }

  /** p(x) == p(a) + (x - a) * q(x). */
  lemma {:induction false} QuotientLaw<E(!new)>(f: Field<E>, cs: seq<E>, a: E, x: E)
    requires Laws(f)
    ensures Eval(f, cs, x) == f.add(Eval(f, cs, a), f.mul(Sub(f, x, a), Eval(f, Quotient(f, cs, a), x)))
  {
    hide Laws, Sub;
    var d := Sub(f, x, a);
    if |cs| <= 1 {
      MulZero(f, d);
      MulZero(f, x);
      MulZero(f, a);
      AddZero(f, Eval(f, cs, a));
      assert |cs| == 1 ==> cs[1..] == [];
    } else {
      var rest := cs[1..];
      QuotientLaw(f, rest, a, x);
      var pa, q := Eval(f, rest, a), Eval(f, Quotient(f, rest, a), x);
      Regroup(f, x, a, pa, q);
      assert Quotient(f, cs, a)[1..] == Quotient(f, rest, a);
      AddAssoc(f, cs[0], f.mul(a, pa), f.mul(d, f.add(pa, f.mul(x, q))));
    }
  }

  /** The slopes from the first point to each of the others. */
  function Slopes<E>(f: Field<E>, xs: seq<E>, ys: seq<E>): (r: seq<E>)
    requires |xs| == |ys| > 0
    ensures |r| == |xs| - 1
  {
    seq(|xs| - 1, i requires 0 <= i < |xs| - 1 => f.mul(Sub(f, ys[i + 1], ys[0]), f.inv(Sub(f, xs[i + 1], xs[0]))))
  }

  /** The value at zero of the polynomial through the points, by divided differences. */
  function AtZero<E>(f: Field<E>, xs: seq<E>, ys: seq<E>): E
    requires |xs| == |ys|
  {
    if xs == [] then f.zero else f.add(ys[0], f.mul(f.neg(xs[0]), AtZero(f, xs[1..], Slopes(f, xs, ys))))
  }

  function Values<E>(f: Field<E>, cs: seq<E>, xs: seq<E>): (ys: seq<E>)
    ensures |ys| == |xs|
  {
    seq(|xs|, i requires 0 <= i < |xs| => Eval(f, cs, xs[i]))
  }

  lemma SlopesAreQuotients<E(!new)>(f: Field<E>, cs: seq<E>, xs: seq<E>)
    requires Laws(f) && xs != [] && Distinct(xs)
    ensures Slopes(f, xs, Values(f, cs, xs)) == Values(f, Quotient(f, cs, xs[0]), xs[1..])
  {
    hide Laws, Sub, Eval, Quotient;
    var q := Quotient(f, cs, xs[0]);
    var slopes := Slopes(f, xs, Values(f, cs, xs));
    forall i | 0 <= i < |xs| - 1 ensures slopes[i] == Eval(f, q, xs[i + 1]) {
      var d := Sub(f, xs[i + 1], xs[0]);
      QuotientLaw(f, cs, xs[0], xs[i + 1]);
      SubAdd(f, Eval(f, cs, xs[0]), f.mul(d, Eval(f, q, xs[i + 1])));
      SubNonzero(f, xs[i + 1], xs[0]);
      DivMul(f, d, Eval(f, q, xs[i + 1]));
    }
  }

  /** Any points, at least as many as the coefficients, give back the value at zero. */
  lemma {:induction false} Interpolates<E(!new)>(f: Field<E>, cs: seq<E>, xs: seq<E>)
    requires Laws(f) && Distinct(xs) && |cs| <= |xs|
    ensures AtZero(f, xs, Values(f, cs, xs)) == Eval(f, cs, f.zero)
    decreases |xs|
  {
    hide Laws, Distinct;
    if xs != [] {
      var q := Quotient(f, cs, xs[0]);
      TailDistinct(xs);
      SlopesAreQuotients(f, cs, xs);
      Interpolates(f, q, xs[1..]);
      QuotientLaw(f, cs, xs[0], f.zero);
      AddZero(f, f.neg(xs[0]));
    }
  }

  lemma TailDistinct<E>(xs: seq<E>)
    requires Distinct(xs) && xs != []
    ensures Distinct(xs[1..])
  {
  }

  lemma ConstantTerm<E(!new)>(f: Field<E>, cs: seq<E>)
    requires Laws(f) && cs != []
    ensures Eval(f, cs, f.zero) == cs[0]
  {
    hide Laws;
    MulZero(f, Eval(f, cs[1..], f.zero));
    AddZero(f, cs[0]);
  }

  // ---------------------------------------------------------------------
  // The scheme
  // ---------------------------------------------------------------------

  datatype Point<E> = Point(x: E, ys: seq<E>)

  /** How keys are spelled in field elements, where polynomials are sampled, and their random coefficients. */
  datatype Setup<!E> = Setup(
    f: Field<E>, encode: Key -> seq<E>, decode: seq<E> -> Plain, at: nat -> E, random: (nat, nat, nat) -> E)

  ghost predicate SetupOk<E(!new)>(s: Setup<E>) {
    && Laws(s.f)
    && (forall k :: s.decode(s.encode(k)) == RawKey(k))
    && (forall i: nat | i < 255 :: s.at(i) != s.f.zero)
    && (forall i: nat, j: nat | i < j < 255 :: s.at(i) != s.at(j))
  }

  function Coefficients<E>(s: Setup<E>, threshold: Byte, constant: E, seed: nat, column: nat): (cs: seq<E>)
    requires 1 <= threshold
    ensures |cs| == threshold && cs[0] == constant
  {
    [constant] + seq(threshold - 1, i requires 0 <= i < threshold - 1 => s.random(seed, column, i))
  }

  function ShareAt<E>(s: Setup<E>, threshold: Byte, secret: seq<E>, seed: nat, x: E): (p: Point<E>)
    requires 1 <= threshold
    ensures p.x == x && |p.ys| == |secret|
  {
    Point(x, seq(|secret|, j requires 0 <= j < |secret| => Eval(s.f, Coefficients(s, threshold, secret[j], seed, j), x)))
  }

  function Deal<E>(s: Setup<E>, shares: Byte, threshold: Byte, secret: Key, seed: nat): (dealt: seq<Point<E>>) {
    if threshold == 0 then []
    else seq(shares, i requires 0 <= i < shares => ShareAt(s, threshold, s.encode(secret), seed, s.at(i)))
  }

  function Xs<E>(points: seq<Point<E>>): (xs: seq<E>)
    ensures |xs| == |points|
  {
    seq(|points|, i requires 0 <= i < |points| => points[i].x)
  }

  function Column<E>(points: seq<Point<E>>, j: nat): (ys: seq<E>)
    requires forall i | 0 <= i < |points| :: j < |points[i].ys|
    ensures |ys| == |points|
  {
    seq(|points|, i requires 0 <= i < |points| => points[i].ys[j])
  }

  predicate Usable<E(==)>(threshold: Byte, points: seq<Point<E>>) {
    && 0 < |points| && threshold <= |points| && Distinct(Xs(points))
    && forall i | 0 <= i < |points| :: |points[i].ys| == |points[0].ys|
  }

  function ReadAtZero<E(==)>(f: Field<E>, points: seq<Point<E>>): (bytes: seq<E>)
    requires 0 < |points| && forall i | 0 <= i < |points| :: |points[i].ys| == |points[0].ys|
  {
    seq(|points[0].ys|, j requires 0 <= j < |points[0].ys| => AtZero(f, Xs(points), Column(points, j)))
  }

  function Recover<E(==)>(s: Setup<E>, threshold: Byte, points: seq<Point<E>>): (r: Option<Plain>) {
    if Usable(threshold, points) then Some(s.decode(ReadAtZero(s.f, points))) else None
  }

  function Shamir<E(==)>(s: Setup<E>): Scheme<Point<E>> {
    Scheme(
      (shares, threshold, secret, seed) => Deal(s, shares, threshold, secret, seed),
      (threshold, points) => Recover(s, threshold, points))
  }

  lemma SelectionDistinctXs<E(!new)>(s: Setup<E>, shares: Byte, threshold: Byte, secret: Key, seed: nat, picked: seq<Point<E>>)
    requires SetupOk(s) && 1 <= threshold
    requires Selection(picked, Deal(s, shares, threshold, secret, seed), threshold)
    ensures Distinct(Xs(picked))
    ensures forall p | p in picked :: p == ShareAt(s, threshold, s.encode(secret), seed, p.x)
  {
    hide Laws, Coefficients;
    var dealt := Deal(s, shares, threshold, secret, seed);
    forall p | p in picked ensures p == ShareAt(s, threshold, s.encode(secret), seed, p.x) {
      var i :| 0 <= i < |dealt| && dealt[i] == p;
    }
    forall i, j | 0 <= i < j < |picked| ensures Xs(picked)[i] != Xs(picked)[j] {
      assert picked[i] in picked && picked[j] in picked;
    }
  }

  lemma ColumnIsValues<E(!new)>(s: Setup<E>, threshold: Byte, secret: seq<E>, seed: nat, picked: seq<Point<E>>, j: nat)
    requires 1 <= threshold && j < |secret|
    requires forall p | p in picked :: p == ShareAt(s, threshold, secret, seed, p.x)
    ensures forall i | 0 <= i < |picked| :: j < |picked[i].ys|
    ensures Column(picked, j) == Values(s.f, Coefficients(s, threshold, secret[j], seed, j), Xs(picked))
  {
    hide Coefficients;
    forall i | 0 <= i < |picked|
      ensures j < |picked[i].ys| && picked[i].ys[j] == Eval(s.f, Coefficients(s, threshold, secret[j], seed, j), picked[i].x)
    {
      assert picked[i] in picked;
    }
  }

  lemma AnyThresholdRecovers<E(!new)>(s: Setup<E>, shares: Byte, threshold: Byte, secret: Key, seed: nat, picked: seq<Point<E>>)
    requires SetupOk(s) && 1 <= threshold
    requires Selection(picked, Deal(s, shares, threshold, secret, seed), threshold)
    ensures Recover(s, threshold, picked) == Some(RawKey(secret))
  {
    hide Laws, Coefficients, Deal;
    SelectionDistinctXs(s, shares, threshold, secret, seed, picked);
    var bytes := s.encode(secret);
    forall i | 0 <= i < |picked| ensures |picked[i].ys| == |bytes| { assert picked[i] in picked; }
    var xs := Xs(picked);
    var read := ReadAtZero(s.f, picked);
    forall j | 0 <= j < |bytes| ensures read[j] == bytes[j] {
      var cs := Coefficients(s, threshold, bytes[j], seed, j);
      ColumnIsValues(s, threshold, bytes, seed, picked, j);
      Interpolates(s.f, cs, xs);
      ConstantTerm(s.f, cs);
    }
    assert read == bytes;
  }

  /** Shamir's scheme over any field meets what the seal asks of its sharing library. */
  lemma ShamirMeetsContract<E(!new)>(s: Setup<E>)
    requires SetupOk(s)
    ensures Contract(Shamir(s))
  {
    hide Laws, Recover, Coefficients;
    var c := Shamir(s);
    forall shares: Byte, threshold: Byte, secret, seed | 1 <= threshold <= shares
      ensures GoodDeal(c, shares, threshold, secret, seed)
    {
      var dealt := c.deal(shares, threshold, secret, seed);
      forall picked | Selection(picked, dealt, threshold) ensures c.recover(threshold, picked) == Some(RawKey(secret)) {
        AnyThresholdRecovers(s, shares, threshold, secret, seed, picked);
      }
      assert forall i | 0 <= i < |dealt| :: dealt[i].x == s.at(i);
    }
  }

  // ---------------------------------------------------------------------
  // The contract can be met
  // ---------------------------------------------------------------------

  function Reals(): Field<real> {
    Field(0.0, 1.0, (a: real, b: real) => a + b, (a: real) => -a, (a: real, b: real) => a * b,
          (a: real) => if a == 0.0 then 0.0 else 1.0 / a)
  }

  function RealSetup(random: (nat, nat, nat) -> real): Setup<real> {
    Setup(
      Reals(), (k: Key) => [k.n as real],
      (bytes: seq<real>) => if |bytes| == 1 && 0.0 <= bytes[0] then RawKey(Key(bytes[0].Floor)) else Data(""),
      (i: nat) => i as real + 1.0, random)
  }

  lemma RealAddLaws()
    ensures AddLaws(Reals())
  {
  }

  lemma RealMulLaws()
    ensures MulLaws(Reals())
  {
    hide Commutative, Associative;
    RealAssociative();
    RealCommutative();
    var f := Reals();
    forall a | a != f.zero ensures f.mul(a, f.inv(a)) == f.one { RealInverse(a); }
  }

  lemma RealAssociative()
    ensures Associative(Reals().mul)
  {
    var f := Reals();
    forall a, b, c ensures f.mul(f.mul(a, b), c) == f.mul(a, f.mul(b, c)) { RealAssociates(a, b, c); }
  }

  lemma RealCommutative()
    ensures Commutative(Reals().mul)
  {
    var f := Reals();
    forall a, b ensures f.mul(a, b) == f.mul(b, a) { RealCommutes(a, b); }
  }

  lemma RealInverse(a: real)
    requires a != 0.0
    ensures a * (1.0 / a) == 1.0
  {
  }

  lemma RealAssociates(a: real, b: real, c: real)
    ensures a * b * c == a * (b * c)
  {
  }

  lemma RealCommutes(a: real, b: real)
    ensures a * b == b * a
  {
  }

  lemma RealDistributes(a: real, b: real, c: real)
    ensures a * (b + c) == a * b + a * c
  {
  }

  lemma RealLaws()
    ensures Laws(Reals())
  {
    hide AddLaws, MulLaws;
    RealAddLaws();
    RealMulLaws();
    forall a, b, c ensures Reals().mul(a, Reals().add(b, c)) == Reals().add(Reals().mul(a, b), Reals().mul(a, c)) {
      RealDistributes(a, b, c);
    }
  }

  lemma ContractCanBeMet(random: (nat, nat, nat) -> real)
    ensures Contract(Shamir(RealSetup(random)))
  {
    hide Laws, Contract, Shamir;
    RealLaws();
    ShamirMeetsContract(RealSetup(random));
  }
}
