/**
 Shamir's scheme over the byte field: the arithmetic of the library the vault
 links, one polynomial for each byte of the key, sampled at 1, 2, 3 and on.
 */
module ByteSharing {
  import opened Wrappers
  import opened Envelope
  import opened Sealing
  import opened SecretSharing
  import opened ShareSecrecy
  import opened Bytes
  import B = ByteField

  function Gf256(): Field<bv8> { Field(0, 1, B.Add, (a: bv8) => a, B.Mul, B.Inverse) }

  lemma ByteAddLaws()
    ensures AddLaws(Gf256())
  {
    hide B.Add;
    forall a, b ensures B.Add(a, b) == B.Add(b, a) { B.AddCommutes(a, b); }
    forall a, b, c ensures B.Add(B.Add(a, b), c) == B.Add(a, B.Add(b, c)) { B.AddAssociates(a, b, c); }
    forall a ensures B.Add(a, 0) == a && B.Add(a, a) == 0 { B.AddZero(a); }
  }

  lemma ByteMulLaws()
    ensures MulLaws(Gf256())
  {
    hide B.Mul, B.Inverse, Commutative, Associative;
    MulCommutes();
    MulAssociates();
    forall a ensures B.Mul(a, 1) == a { B.MulOne(a); }
    forall a: bv8 | a != 0 ensures B.Mul(a, B.Inverse(a)) == 1 { B.InverseWorks(a); }
  }

  lemma MulCommutes()
    ensures Commutative(Gf256().mul)
  {
    hide B.Mul;
    forall a, b ensures B.Mul(a, b) == B.Mul(b, a) { B.Commutes(a, b); }
  }

  lemma MulAssociates()
    ensures Associative(Gf256().mul)
  {
    hide B.Mul;
    forall a, b, c ensures B.Mul(B.Mul(a, b), c) == B.Mul(a, B.Mul(b, c)) { B.Associates(a, b, c); }
  }

  lemma ByteDistributes()
    ensures DistributiveLaw(Gf256())
  {
    hide B.Mul, B.Add;
    forall a, b, c ensures B.Mul(a, B.Add(b, c)) == B.Add(B.Mul(a, b), B.Mul(a, c)) { B.MulAdds(a, b, c); }
  }

  /** Bytes under these operations are a field. */
  lemma ByteLaws()
    ensures Laws(Gf256())
  {
    hide AddLaws, MulLaws, DistributiveLaw;
    ByteAddLaws();
    ByteMulLaws();
    ByteDistributes();
  }

  const KEY_BYTES := 32

  function ByteSetup(random: (nat, nat, nat) -> bv8): Setup<bv8> {
    Setup(
      Gf256(), (k: Key) => FixedBytes(k.n, KEY_BYTES), (bytes: seq<bv8>) => RawKey(Key(FromBytes(bytes))), PointOf, random)
  }

  lemma ByteSetupOk(random: (nat, nat, nat) -> bv8)
    ensures SetupOk(ByteSetup(random))
  {
    hide Laws, Gf256, PointOf, FixedBytes, FromBytes;
    ByteLaws();
    forall i: nat | i < 255 ensures PointOf(i) != 0 { PointNonzero(i); }
    forall i: nat, j: nat | i < j < 255 ensures PointOf(i) != PointOf(j) { PointsDiffer(i, j); }
    forall k: Key ensures Key(FromBytes(FixedBytes(k.n, KEY_BYTES))) == k { FixedBytesRoundTrip(k.n, KEY_BYTES); }
    assert Gf256().zero == 0 by { ZeroIs(); }
  }

  lemma ZeroIs()
    ensures Gf256().zero == 0
  {
  }

  /** The byte scheme meets what the seal asks of its library, for every key and up to 255 shares. */
  lemma BytesMeetContract(random: (nat, nat, nat) -> bv8)
    ensures Contract(Shamir(ByteSetup(random)))
  {
    hide Laws, Contract, Shamir, ByteSetup, SetupOk;
    ByteSetupOk(random);
    ShamirMeetsContract(ByteSetup(random));
  }

  /** Fewer than `threshold` shares of one 32-byte key are also dealt for every other, for some random coefficients. */
  lemma FewBytesRevealNothing(
    random: (nat, nat, nat) -> bv8, shares: Byte, threshold: Byte, secret: Key, other: Key, seed: nat,
    count: nat, picked: seq<Point<bv8>>)
    requires secret.n < Pow256(KEY_BYTES) && other.n < Pow256(KEY_BYTES) && count < threshold
    requires Selection(picked, Deal(ByteSetup(random), shares, threshold, secret, seed), count)
    ensures exists masked :: Selection(picked, Deal(ByteSetup(masked), shares, threshold, other, seed), count)
  {
    hide Deal, Masking, SetupOk, FixedBytes;
    var s := ByteSetup(random);
    ByteSetupOk(random);
    FixedBytesWidth(secret.n, KEY_BYTES);
    FixedBytesWidth(other.n, KEY_BYTES);
    FewSharesRevealNothing(s, shares, threshold, secret, other, seed, count, picked);
    var masked := Masking(s, threshold, s.encode(other), picked);
    assert s.(random := masked) == ByteSetup(masked);
  }
}
