/**
 What too few shares say about the secret: nothing. Whatever shares below the
 threshold were taken, every other secret of the same length could have dealt
 them, for a suitable choice of the random coefficients.
 */
module ShareSecrecy {
  import opened Wrappers
  import opened Envelope
  import opened Sealing
  import opened SecretSharing

  /** The coefficients of c + (x - a) * q(x). */
  function Lift<E>(f: Field<E>, q: seq<E>, a: E, c: E): (cs: seq<E>)
    ensures |cs| == |q| + 1
  {
    if q == [] then [c] else [Sub(f, c, f.mul(a, q[0]))] + Lift(f, q[1..], a, q[0])
  }

  lemma {:induction false} LiftLaw<E(!new)>(f: Field<E>, q: seq<E>, a: E, c: E, x: E)
    requires Laws(f)
    ensures Eval(f, Lift(f, q, a, c), x) == f.add(c, f.mul(Sub(f, x, a), Eval(f, q, x)))
  {
    hide Laws, Sub;
    var d := Sub(f, x, a);
    if q == [] {
      MulZero(f, x);
      MulZero(f, d);
      assert Lift(f, q, a, c)[1..] == [];
    } else {
      var rest := Eval(f, q[1..], x);
      LiftLaw(f, q[1..], a, q[0], x);
      assert Lift(f, q, a, c)[1..] == Lift(f, q[1..], a, q[0]);
      Regroup(f, x, a, q[0], rest);
      SubThenAdd(f, c, f.mul(a, q[0]), f.mul(d, Eval(f, q, x)));
    }
  }

  /** (c - m) + (m + t) == c + t. */
  lemma SubThenAdd<E(!new)>(f: Field<E>, c: E, m: E, t: E)
    requires Laws(f)
    ensures f.add(Sub(f, c, m), f.add(m, t)) == f.add(c, t)
  {
    hide Laws, Sub;
    AddAssoc(f, Sub(f, c, m), m, t);
    AddComm(f, Sub(f, c, m), m);
    AddSub(f, m, c);
  }

  /** The coefficients of the polynomial through the points, by divided differences. */
  function Fit<E>(f: Field<E>, xs: seq<E>, ys: seq<E>): (cs: seq<E>)
    requires |xs| == |ys|
    ensures |cs| == |xs|
  {
    if xs == [] then [] else Lift(f, Fit(f, xs[1..], Slopes(f, xs, ys)), xs[0], ys[0])
  }

  /** d * (y / d) == y. */
  lemma MulDiv<E(!new)>(f: Field<E>, d: E, y: E)
    requires Laws(f) && d != f.zero
    ensures f.mul(d, f.mul(y, f.inv(d))) == y
  {
    hide Laws;
    MulComm(f, d, f.mul(y, f.inv(d)));
    MulAssoc(f, y, f.inv(d), d);
    MulComm(f, f.inv(d), d);
    InverseLaw(f, d);
  }

  /** Any values at different points are those of a polynomial with as many coefficients. */
  lemma {:induction false} FitLaw<E(!new)>(f: Field<E>, xs: seq<E>, ys: seq<E>)
    requires Laws(f) && |xs| == |ys| && Distinct(xs)
    ensures Values(f, Fit(f, xs, ys), xs) == ys
  {
    hide Laws, Sub, Eval, Lift;
    if xs != [] {
      var slopes := Slopes(f, xs, ys);
      var q := Fit(f, xs[1..], slopes);
      FitLaw(f, xs[1..], slopes);
      forall i | 0 <= i < |xs| ensures Eval(f, Fit(f, xs, ys), xs[i]) == ys[i] {
        LiftLaw(f, q, xs[0], ys[0], xs[i]);
        if i == 0 {
          ZeroStep(f, xs[0], ys[0], Eval(f, q, xs[0]));
        } else {
          var d := Sub(f, xs[i], xs[0]);
          assert Eval(f, q, xs[1..][i - 1]) == slopes[i - 1];
          SubNonzero(f, xs[i], xs[0]);
          MulDiv(f, d, Sub(f, ys[i], ys[0]));
          AddSub(f, ys[0], ys[i]);
        }
      }
    }
  }

  /** y + (x - x) * q == y. */
  lemma ZeroStep<E(!new)>(f: Field<E>, x: E, y: E, q: E)
    requires Laws(f)
    ensures f.add(y, f.mul(Sub(f, x, x), q)) == y
  {
    hide Laws;
    AddZero(f, x);
    MulZero(f, q);
    AddZero(f, y);
  }

  function Padded<E>(f: Field<E>, cs: seq<E>, length: nat): (padded: seq<E>)
    requires |cs| <= length
    ensures |padded| == length && cs <= padded
  {
    cs + seq(length - |cs|, _ => f.zero)
  }

  lemma {:induction false} ZerosVanish<E(!new)>(f: Field<E>, zeros: seq<E>, x: E)
    requires Laws(f) && forall i | 0 <= i < |zeros| :: zeros[i] == f.zero
    ensures Eval(f, zeros, x) == f.zero
  {
    hide Laws;
    if zeros != [] {
      ZerosVanish(f, zeros[1..], x);
      MulZero(f, x);
      AddZero(f, f.zero);
    }
  }

  lemma {:induction false} PaddingVanishes<E(!new)>(f: Field<E>, cs: seq<E>, zeros: seq<E>, x: E)
    requires Laws(f) && forall i | 0 <= i < |zeros| :: zeros[i] == f.zero
    ensures Eval(f, cs + zeros, x) == Eval(f, cs, x)
  {
    hide Laws;
    if cs == [] {
      assert cs + zeros == zeros;
      ZerosVanish(f, zeros, x);
    } else {
      assert (cs + zeros)[1..] == cs[1..] + zeros;
      PaddingVanishes(f, cs[1..], zeros, x);
    }
  }

  // ---------------------------------------------------------------------
  // Other secrets deal the same shares
  // ---------------------------------------------------------------------

  /** Coefficients, as many as the threshold, of a polynomial with this constant term through these points. */
  function Alibi<E>(f: Field<E>, threshold: Byte, constant: E, xs: seq<E>, ys: seq<E>): (cs: seq<E>)
    requires |xs| == |ys| < threshold
    ensures |cs| == threshold
  {
    Padded(f, Fit(f, [f.zero] + xs, [constant] + ys), threshold)
  }

  lemma AlibiLaw<E(!new)>(f: Field<E>, threshold: Byte, constant: E, xs: seq<E>, ys: seq<E>)
    requires Laws(f) && |xs| == |ys| < threshold && Distinct(xs) && f.zero !in xs
    ensures var cs := Alibi(f, threshold, constant, xs, ys); cs[0] == constant && Values(f, cs, xs) == ys
  {
    hide Laws, Eval, Fit, Padded;
    var zs, vs := [f.zero] + xs, [constant] + ys;
    var cs := Alibi(f, threshold, constant, xs, ys);
    FitLaw(f, zs, vs);
    forall i | 0 <= i < |zs| ensures Eval(f, cs, zs[i]) == vs[i] {
      assert cs == Fit(f, zs, vs) + cs[|zs|..] by { PaddedIs(f, Fit(f, zs, vs), threshold); }
      PaddedIs(f, Fit(f, zs, vs), threshold);
      PaddingVanishes(f, Fit(f, zs, vs), cs[|zs|..], zs[i]);
      assert Values(f, Fit(f, zs, vs), zs)[i] == vs[i];
    }
    assert zs[0] == f.zero && vs[0] == constant;
    ConstantTerm(f, cs);
    forall i | 0 <= i < |xs| ensures Eval(f, cs, xs[i]) == ys[i] {
      assert zs[i + 1] == xs[i] && vs[i + 1] == ys[i];
    }
  }

  lemma PaddedIs<E(!new)>(f: Field<E>, cs: seq<E>, length: nat)
    requires |cs| <= length
    ensures var p := Padded(f, cs, length); p == cs + p[|cs|..] && forall i | |cs| <= i < length :: p[i] == f.zero
  {
  }

  predicate Wide<E(==)>(points: seq<Point<E>>, width: nat) { forall i | 0 <= i < |points| :: |points[i].ys| == width }

  /** Random coefficients under which `other` deals the given points. */
  function Masking<E(==)>(s: Setup<E>, threshold: Byte, other: seq<E>, points: seq<Point<E>>): (nat, nat, nat) -> E
    requires |points| < threshold && Wide(points, |other|)
  {
    (_: nat, column: nat, i: nat) =>
      if column < |other| && i + 1 < threshold
      then Alibi(s.f, threshold, other[column], Xs(points), Column(points, column))[i + 1]
      else s.f.zero
  }

  lemma MaskedCoefficients<E(!new)>(s: Setup<E>, threshold: Byte, other: seq<E>, points: seq<Point<E>>, seed: nat, j: nat)
    requires Laws(s.f) && |points| < threshold && Wide(points, |other|) && j < |other|
    requires Distinct(Xs(points)) && s.f.zero !in Xs(points)
    ensures var masked := s.(random := Masking(s, threshold, other, points));
            Values(s.f, Coefficients(masked, threshold, other[j], seed, j), Xs(points)) == Column(points, j)
  {
    hide Laws, Eval, Alibi;
    var masked := s.(random := Masking(s, threshold, other, points));
    var cs := Alibi(s.f, threshold, other[j], Xs(points), Column(points, j));
    AlibiLaw(s.f, threshold, other[j], Xs(points), Column(points, j));
    assert Coefficients(masked, threshold, other[j], seed, j) == cs;
  }

  lemma MaskedShare<E(!new)>(s: Setup<E>, threshold: Byte, other: seq<E>, points: seq<Point<E>>, seed: nat, k: nat)
    requires Laws(s.f) && |points| < threshold && Wide(points, |other|) && k < |points|
    requires Distinct(Xs(points)) && s.f.zero !in Xs(points)
    ensures var masked := s.(random := Masking(s, threshold, other, points));
            ShareAt(masked, threshold, other, seed, points[k].x) == points[k]
  {
    hide Laws, Eval, Coefficients, Masking;
    var masked := s.(random := Masking(s, threshold, other, points));
    var share := ShareAt(masked, threshold, other, seed, points[k].x);
    forall j | 0 <= j < |other| ensures share.ys[j] == points[k].ys[j] {
      MaskedCoefficients(s, threshold, other, points, seed, j);
      assert Column(points, j)[k] == points[k].ys[j];
      assert Xs(points)[k] == points[k].x;
    }
    assert share.ys == points[k].ys;
  }

  /** Shares of one secret, fewer than the threshold, are also shares of any other secret of its length. */
  lemma FewSharesRevealNothing<E(!new)>(
    s: Setup<E>, shares: Byte, threshold: Byte, secret: Key, other: Key, seed: nat, count: nat, picked: seq<Point<E>>)
    requires SetupOk(s) && count < threshold && |s.encode(secret)| == |s.encode(other)|
    requires Selection(picked, Deal(s, shares, threshold, secret, seed), count)
    ensures Wide(picked, |s.encode(other)|)
    ensures var masked := s.(random := Masking(s, threshold, s.encode(other), picked));
            SetupOk(masked) && Selection(picked, Deal(masked, shares, threshold, other, seed), count)
  {
    hide Laws, Coefficients, Masking;
    PickedXs(s, shares, threshold, secret, seed, count, picked);
    var masked := s.(random := Masking(s, threshold, s.encode(other), picked));
    var dealt := Deal(s, shares, threshold, secret, seed);
    forall p | p in picked ensures p in Deal(masked, shares, threshold, other, seed) {
      var k :| 0 <= k < |picked| && picked[k] == p;
      var i :| 0 <= i < |dealt| && dealt[i] == p;
      MaskedShare(s, threshold, s.encode(other), picked, seed, k);
      assert Deal(masked, shares, threshold, other, seed)[i] == p;
    }
  }

  lemma PickedXs<E(!new)>(
    s: Setup<E>, shares: Byte, threshold: Byte, secret: Key, seed: nat, count: nat, picked: seq<Point<E>>)
    requires SetupOk(s) && 1 <= threshold && Selection(picked, Deal(s, shares, threshold, secret, seed), count)
    ensures Distinct(Xs(picked)) && s.f.zero !in Xs(picked) && Wide(picked, |s.encode(secret)|)
  {
    hide Laws, Coefficients;
    var dealt := Deal(s, shares, threshold, secret, seed);
    forall k | 0 <= k < |picked|
      ensures |picked[k].ys| == |s.encode(secret)| && Xs(picked)[k] != s.f.zero
      ensures exists i | 0 <= i < |dealt| :: dealt[i] == picked[k]
    {
      assert picked[k] in picked;
      var i :| 0 <= i < |dealt| && dealt[i] == picked[k];
    }
    forall k, l | 0 <= k < l < |picked| ensures Xs(picked)[k] != Xs(picked)[l] {
      var i :| 0 <= i < |dealt| && dealt[i] == picked[k];
      var j :| 0 <= j < |dealt| && dealt[j] == picked[l];
      assert i != j;
    }
  }
}
