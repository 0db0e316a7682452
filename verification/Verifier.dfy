/** The on-chain verifier, src/VRFVerifier.sol: one immutable group key, no state. */
module Verifier {
  import opened Common
  import opened ModArith
  import opened Blsvrf

  /** The bytes of a signature: how many there are, and the first two words. */
  datatype Signature = Signature(length: nat, x: nat, y: nat)

  const SIGNATURE_LENGTH := 64

  datatype VRFVerifier = VRFVerifier(suite: Suite, pk: int) {

    /** What the constructor accepts: a group key that is not the point at infinity. */
    predicate Valid() { suite.IsPoint(pk) && pk != 0 }

    function Encode(p: int): Signature {
      Signature(SIGNATURE_LENGTH, suite.coords(p).0, suite.coords(p).1)
    }

    /** The checks before the pairing: length, infinity, field range and curve membership. */
    function Decode(signature: Signature): Option<int> {
      if signature.length != SIGNATURE_LENGTH then None
      else if signature.x == 0 && signature.y == 0 then None
      else suite.curve(signature.x, signature.y)
    }

    /** e(sig, g2) == e(message, pk) */
    predicate VerifySingle(sig: int, message: int) {
      suite.Pair(sig, BASE) == suite.Pair(message, pk)
    }

    predicate Verify(seed: Seed, signature: Signature) {
      var p := Decode(signature);
      p.Some? && VerifySingle(p.value, suite.HashSeedToPoint(seed))
    }

    method VerifyBatch(seeds: seq<Seed>, signature: Signature) returns (accepted: bool)
      ensures accepted == AcceptsBatch(seeds, signature)
    {
      if |seeds| == 0 { return false; }
      var p := Decode(signature);
      if p.None? { return false; }
      var sum := suite.HashSeedToPoint(seeds[0]);
      Sum1(seeds);
      for i := 1 to |seeds|
        invariant sum == HashSum(seeds[..i])
      {
        assert seeds[..i + 1][..i] == seeds[..i];
        sum := Add(suite.r, sum, suite.HashSeedToPoint(seeds[i]));
      }
      assert seeds[..|seeds|] == seeds;
      return VerifySingle(p.value, sum);
    }

    /** The sum of the hashed seeds. */
    function HashSum(seeds: seq<Seed>): int {
      if seeds == [] then 0
      else Add(suite.r, HashSum(seeds[..|seeds| - 1]), suite.HashSeedToPoint(seeds[|seeds| - 1]))
    }

    predicate AcceptsBatch(seeds: seq<Seed>, signature: Signature) {
      var p := Decode(signature);
      seeds != [] && p.Some? && VerifySingle(p.value, HashSum(seeds))
    }

    lemma Sum1(seeds: seq<Seed>)
      requires seeds != []
      ensures HashSum(seeds[..1]) == suite.HashSeedToPoint(seeds[0])
    {
      CongSelf(suite.r, suite.hash(seeds[0]));
    }

    // ----- what is accepted

    lemma DecodeIffEncoded(signature: Signature, p: int)
      requires suite.Canonical() && suite.IsPoint(p)
      ensures Decode(signature) == Some(p) <==> p != 0 && signature == Encode(p)
    {
      if Decode(signature) == Some(p) {
        var x, y := signature.x, signature.y;
        assert suite.curve(x, y).Some? && suite.curve(x, y).value == p;
        assert suite.coords(p) == (x, y);
      }
      if p != 0 && signature == Encode(p) {
        assert suite.curve(suite.coords(p).0, suite.coords(p).1) == Some(p);
      }
    }

    /** The pairing equation holds of one point only. */
    lemma SingleIff(sig: int, message: int)
      requires suite.IsPoint(sig)
      ensures VerifySingle(sig, message) <==> sig == Mul(suite.r, pk, message)
    {
      DivModUnique(sig, suite.r, 0, sig);
      assert pk * message == message * pk;
    }

    /** A message point that hashes or sums to `message` has one accepted signature, sk times it. */
    lemma AcceptedPoint(message: int, signature: Signature)
      requires suite.Canonical()
      ensures var s := Mul(suite.r, pk, message);
        (Decode(signature).Some? && VerifySingle(Decode(signature).value, message))
          <==> (s != 0 && signature == Encode(s))
    {
      var s := Mul(suite.r, pk, message);
      CongSelf(suite.r, pk * message);
      DecodeIffEncoded(signature, s);
      if Decode(signature).Some? {
        SingleIff(Decode(signature).value, message);
      }
      SingleIff(s, message);
    }

    /** verify accepts exactly the non-infinite sk * H(seed), in its one encoding. */
    lemma VerifyAccepts(seed: Seed, signature: Signature)
      requires suite.Canonical()
      ensures var s := suite.Sign(pk, seed);
        Verify(seed, signature) <==> (s != 0 && signature == Encode(s))
    {
      AcceptedPoint(suite.HashSeedToPoint(seed), signature);
    }

    /** verifyBatch accepts exactly the non-infinite sk * (sum of H(seed)), in its one encoding. */
    lemma BatchAccepts(seeds: seq<Seed>, signature: Signature)
      requires suite.Canonical()
      ensures var s := Mul(suite.r, pk, HashSum(seeds));
        AcceptsBatch(seeds, signature) <==> (seeds != [] && s != 0 && signature == Encode(s))
    {
      AcceptedPoint(HashSum(seeds), signature);
    }

    lemma BatchOfOne(seed: Seed, signature: Signature)
      ensures AcceptsBatch([seed], signature) <==> Verify(seed, signature)
    {
      Sum1([seed]);
      assert [seed][..1] == [seed];
    }

    lemma PointsDiffer(p: int, q: int)
      requires suite.Canonical() && suite.IsPoint(p) && suite.IsPoint(q)
      ensures Encode(p) == Encode(q) <==> p == q
    {
      assert p != 0 ==> suite.curve(suite.coords(p).0, suite.coords(p).1) == Some(p);
      assert q != 0 ==> suite.curve(suite.coords(q).0, suite.coords(q).1) == Some(q);
    }

    /** Unless the seed hashes to infinity its signature is not infinity either. */
    lemma SignedNonzero(seed: Seed)
      requires Valid()
      ensures suite.Sign(pk, seed) == 0 <==> suite.HashSeedToPoint(seed) == 0
    {
      var r, h := suite.r, suite.HashSeedToPoint(seed);
      DivModUnique(pk, r, 0, pk);
      DivModUnique(h, r, 0, h);
      DivModUnique(0, r, 0, 0);
      if suite.Sign(pk, seed) == 0 { ZeroProduct(r, pk, h); }
    }

    /** A batch's signature is a member's own exactly when the hashed seeds of the others sum to zero. */
    lemma SameSignatureIff(seeds: seq<Seed>, seed: Seed, signature: Signature)
      requires suite.Canonical() && Valid() && AcceptsBatch(seeds, signature)
      ensures signature == Encode(suite.Sign(pk, seed)) <==> Cong(suite.r, HashSum(seeds), suite.HashSeedToPoint(seed))
    {
      var r, sum, h := suite.r, HashSum(seeds), suite.HashSeedToPoint(seed);
      BatchAccepts(seeds, signature);
      PointsDiffer(Mul(r, pk, sum), suite.Sign(pk, seed));
      DivModUnique(pk, r, 0, pk);
      if Mul(r, pk, sum) == Mul(r, pk, h) { Cancel(r, pk, sum, h); }
      if Cong(r, sum, h) {
        CongSame(r, pk);
        CongMul(r, pk, pk, sum, h);
      }
    }

    lemma TwoSum(s: Seed, t: Seed)
      ensures Cong(suite.r, HashSum([s, t]), suite.HashSeedToPoint(t)) <==> suite.HashSeedToPoint(s) == 0
    {
      var r, x, y := suite.r, suite.HashSeedToPoint(s), suite.HashSeedToPoint(t);
      Sum1([s, t]);
      assert [s, t][..1] == [s] && [s, t][..|[s, t]| - 1] == [s];
      assert HashSum([s, t]) == (x + y) % r;
      DivModUnique(y, r, 0, y);
      var carry := if x + y < r then 0 else 1;
      DivModUnique(x + y, r, carry, x + y - carry * r);
      CongSelf(r, x + y);
    }

    // ----- order does not matter

    lemma {:induction false} SumRemove(seeds: seq<Seed>, i: nat)
      requires i < |seeds|
      ensures Cong(suite.r, HashSum(seeds),
                HashSum(seeds[..i] + seeds[i + 1..]) + suite.HashSeedToPoint(seeds[i]))
    {
      var n := |seeds| - 1;
      var h := suite.HashSeedToPoint;
      var init := seeds[..n];
      var without := seeds[..i] + seeds[i + 1..];
      if i == n {
        assert without == init;
        CongSelf(suite.r, HashSum(init) + h(seeds[n]));
      } else {
        SumRemove(init, i);
        assert without[..n - 1] == init[..i] + init[i + 1..];
        assert without[n - 1] == seeds[n];
        var rest := HashSum(without[..n - 1]);
        SumSwap(suite.r, HashSum(init), rest, h(seeds[i]), h(seeds[n]));
      }
    }

    static lemma SumSwap(r: Prime, total: int, rest: int, a: int, b: int)
      requires Cong(r, total, rest + a)
      ensures Cong(r, Add(r, total, b), Add(r, rest, b) + a)
    {
      CongSelf(r, total + b);
      CongSelf(r, rest + b);
      CongSame(r, a);
      CongSame(r, b);
      CongAdd(r, total, rest + a, b, b);
      CongAdd(r, Add(r, rest, b), rest + b, a, a);
      CongTrans(r, Add(r, total, b), rest + a + b, Add(r, rest, b) + a);
    }

    static lemma RemoveOne(a: seq<Seed>, n: nat, b: seq<Seed>, i: nat)
      requires n < |a| && i < |b| && a[n] == b[i] && multiset(a) == multiset(b)
      ensures multiset(a[..n] + a[n + 1..]) == multiset(b[..i] + b[i + 1..])
    {
      assert a == a[..n] + [a[n]] + a[n + 1..];
      assert b == b[..i] + [b[i]] + b[i + 1..];
      assert multiset(a) == multiset(a[..n] + a[n + 1..]) + multiset{a[n]};
      assert multiset(b) == multiset(b[..i] + b[i + 1..]) + multiset{b[i]};
      assert multiset(a[..n] + a[n + 1..]) == multiset(a) - multiset{a[n]};
      assert multiset(b[..i] + b[i + 1..]) == multiset(b) - multiset{b[i]};
    }

    /** The sum of a list of seeds depends only on which seeds it holds, and how often. */
    lemma {:induction false} SumOfPermutation(a: seq<Seed>, b: seq<Seed>)
      requires multiset(a) == multiset(b)
      ensures HashSum(a) == HashSum(b)
      decreases |a|
    {
      assert |a| == |multiset(a)| == |multiset(b)| == |b|;
      if a != [] {
        var n := |a| - 1;
        assert a[n] in multiset(b);
        var i :| 0 <= i < |b| && b[i] == a[n];
        var a', b' := a[..n], b[..i] + b[i + 1..];
        RemoveOne(a, n, b, i);
        assert a[n + 1..] == [] && a' + [] == a';
        SumOfPermutation(a', b');
        SumRemove(b, i);
        assert HashSum(a) == Add(suite.r, HashSum(a'), suite.HashSeedToPoint(a[n]));
        SameRemainder(HashSum(a), HashSum(b), HashSum(a') + suite.HashSeedToPoint(a[n]));
      }
    }

    lemma SameRemainder(x: int, y: int, total: int)
      requires x == Add(suite.r, total, 0) && Cong(suite.r, y, total) && 0 <= y < suite.r
      ensures x == y
    {
      DivModUnique(y, suite.r, 0, y);
    }

    /** Permuting the batch changes nothing, and one multiset of seeds has at most one signature. */
    lemma BatchUnique(a: seq<Seed>, b: seq<Seed>, s: Signature, t: Signature)
      requires suite.Canonical() && multiset(a) == multiset(b)
      ensures AcceptsBatch(a, s) <==> AcceptsBatch(b, s)
      ensures AcceptsBatch(a, s) && AcceptsBatch(b, t) ==> s == t
    {
      SumOfPermutation(a, b);
      BatchAccepts(a, s);
      BatchAccepts(b, s);
      BatchAccepts(b, t);
      assert |a| == |multiset(a)| == |multiset(b)| == |b|;
    }

    // ----- signatures add

    function PointSum(points: seq<int>): int {
      if points == [] then 0
      else Add(suite.r, PointSum(points[..|points| - 1]), points[|points| - 1])
    }

    lemma {:induction false} SumOfSignatures(seeds: seq<Seed>, points: seq<int>)
      requires |seeds| == |points|
      requires forall i | 0 <= i < |seeds| :: points[i] == suite.Sign(pk, seeds[i])
      ensures PointSum(points) == Mul(suite.r, pk, HashSum(seeds))
    {
      if seeds == [] {
        DivModUnique(0, suite.r, 0, 0);
      } else {
        var n := |seeds| - 1;
        SumOfSignatures(seeds[..n], points[..n]);
        SignedSum(suite.r, pk, HashSum(seeds[..n]), suite.HashSeedToPoint(seeds[n]));
      }
    }

    static lemma SignedSum(r: Prime, k: int, a: int, b: int)
      ensures Add(r, Mul(r, k, a), Mul(r, k, b)) == Mul(r, k, Add(r, a, b))
    {
      CongSelf(r, k * a);
      CongSelf(r, k * b);
      CongAdd(r, Mul(r, k, a), k * a, Mul(r, k, b), k * b);
      CongSelf(r, a + b);
      CongSame(r, k);
      CongMul(r, k, k, Add(r, a, b), a + b);
      assert k * (a + b) == k * a + k * b;
    }

    /** Individually valid signatures add up to a valid batch signature, unless the sum is infinity. */
    lemma BatchOfValid(seeds: seq<Seed>, points: seq<int>)
      requires suite.Canonical() && seeds != [] && |seeds| == |points|
      requires forall i | 0 <= i < |seeds| :: suite.IsPoint(points[i]) && Verify(seeds[i], Encode(points[i]))
      ensures AcceptsBatch(seeds, Encode(PointSum(points))) <==> PointSum(points) != 0
    {
      forall i | 0 <= i < |seeds| ensures points[i] == suite.Sign(pk, seeds[i]) {
        EncodedOnce(seeds[i], points[i]);
      }
      SumOfSignatures(seeds, points);
      BatchAccepts(seeds, Encode(PointSum(points)));
    }

    lemma EncodedOnce(seed: Seed, p: int)
      requires suite.Canonical() && suite.IsPoint(p)
      requires Verify(seed, Encode(p))
      ensures p == suite.Sign(pk, seed) && p != 0
    {
      assert suite.coords(0) == (0, 0);
      DecodeIffEncoded(Encode(p), p);
      SingleIff(p, suite.HashSeedToPoint(seed));
    }
  }
}
