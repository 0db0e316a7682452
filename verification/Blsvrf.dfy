/**
 The signature scheme of node/internal/blsvrf/blsvrf.go as algebra.

 G1, G2 and the target group are cyclic of one prime order r, so a point is represented by its
 discrete logarithm to the group's generator, a number in [0, r), with 0 the point at infinity.
 Adding points is adding logarithms, multiplying by a scalar is multiplying them, and the pairing
 multiplies the two logarithms.  Hashing to the curve is an arbitrary function.
 */
module Blsvrf {
  import opened Common
  import opened ModArith
  import opened Polynomial

  type Seed = nat

  /** Generator of either group. */
  const BASE := 1

  datatype Suite = Suite(
    r: Prime,
    hash: Seed -> int,
    // affine coordinates of a point of G1, and the point at valid coordinates
    coords: int -> (nat, nat),
    curve: (nat, nat) -> Option<int>)
  {
    predicate IsPoint(p: int) { 0 <= p < r }

    /** The coordinates are canonical: one pair for each point, (0, 0) for infinity only. */
    ghost predicate Canonical() {
      && coords(0) == (0, 0) && curve(0, 0) == None
      && (forall p | 0 < p < r :: curve(coords(p).0, coords(p).1) == Some(p))
      && (forall x: nat, y: nat | curve(x, y).Some? ::
            0 < curve(x, y).value < r && coords(curve(x, y).value) == (x, y))
    }

    function HashSeedToPoint(seed: Seed): int { hash(seed) % r }

    function Sign(secret: int, seed: Seed): int {
      Mul(r, secret, HashSeedToPoint(seed))
    }

    function PublicKey(secret: int): int {
      Mul(r, secret, BASE)
    }

    /** The pairing of a point of G1 and a point of G2. */
    function Pair(p: int, q: int): int { Mul(r, p, q) }

    predicate Verify(pub: int, seed: Seed, sig: int) {
      Pair(sig, BASE) == Pair(HashSeedToPoint(seed), pub)
    }

    /** The public polynomial, evaluated where operator `index` holds its share. */
    function SharePublicKey(commits: seq<int>, index: nat): int {
      Eval(commits, index + 1) % r
    }

    predicate VerifyPartial(commits: seq<int>, index: nat, seed: Seed, sig: int) {
      Verify(SharePublicKey(commits, index), seed, sig)
    }

    /** One signature per key and seed: the check accepts exactly the signature the secret makes. */
    lemma VerifyIffSigned(secret: int, seed: Seed, sig: int)
      requires IsPoint(sig)
      ensures Verify(PublicKey(secret), seed, sig) <==> sig == Sign(secret, seed)
    {
      var h := HashSeedToPoint(seed);
      CongSelf(r, secret);
      CongSame(r, h);
      CongMul(r, secret % r, secret, h, h);
      DivModUnique(sig, r, 0, sig);
      assert h * (secret % r) == secret % r * h;
    }

    /** A partial signature passes exactly when it is the one made by that operator's share. */
    lemma PartialIffSigned(commits: seq<int>, index: nat, seed: Seed, sig: int)
      requires IsPoint(sig)
      ensures VerifyPartial(commits, index, seed, sig) <==> sig == Sign(Eval(commits, index + 1), seed)
    {
      VerifyIffSigned(Eval(commits, index + 1), seed, sig);
    }
  }
}
