/**
 Splitting a secret and recombining signatures: offchain/src/threshold.ts and
 node/internal/threshold/threshold.go.
 */
module Threshold {
  import opened Common
  import opened ModArith
  import opened Polynomial
  import opened Blsvrf

  datatype Share = Share(index: nat, secret: int)

  datatype Partial = Partial(index: nat, sig: int)

  datatype Error = BadThreshold | DuplicateIndex | NoPartials | NoShares | NotEnough

  // ----- recombination, as a fact about polynomials

  /** Weighted sum at zero of the values `ys` held at the points `xs`. */
  function Recombine(r: Prime, xs: seq<int>, ys: seq<int>): int
    requires |xs| == |ys|
  {
    Dot(Weights(r, xs), ys) % r
  }

  /** Values h * f(x) at enough distinct points recombine to h * f(0). */
  lemma RecombineScaled(r: Prime, f: seq<int>, h: int, xs: seq<int>, ys: seq<int>)
    requires DistinctMod(r, xs) && |f| <= |xs| == |ys|
    requires forall i | 0 <= i < |xs| :: Cong(r, ys[i], h * Eval(f, xs[i]))
    ensures Recombine(r, xs, ys) == Mul(r, h, AtZero(f))
  {
    var ws, vs := Weights(r, xs), Values(f, xs);
    forall i | 0 <= i < |xs| ensures Cong(r, ws[i] * ys[i], h * (ws[i] * vs[i])) {
      CongSame(r, ws[i]);
      CongMul(r, ws[i], ws[i], ys[i], h * vs[i]);
      Exchange(h, ws[i], vs[i]);
      Exchange(ws[i], h, vs[i]);
    }
    DotScaled(r, h, ws, ys, ws, vs);
    LagrangeAtZero(r, f, xs);
    CongSame(r, h);
    CongMul(r, h, h, Dot(ws, vs), AtZero(f));
  }

  /** The points 1 .. r - 1 are pairwise different field elements. */
  lemma SmallPointsDistinct(r: Prime, xs: seq<int>)
    requires forall i | 0 <= i < |xs| :: 0 <= xs[i] < r
    requires forall i, j | 0 <= i < j < |xs| :: xs[i] != xs[j]
    ensures DistinctMod(r, xs)
  {
    forall i, j | 0 <= i < j < |xs| ensures !Cong(r, xs[i], xs[j]) {
      DivModUnique(xs[i], r, 0, xs[i]);
      DivModUnique(xs[j], r, 0, xs[j]);
    }
  }

  // ----- threshold.ts

  /** Shares of a split secret: indices in 1..n, each once, in any order, and the values dealt there. */
  ghost predicate Dealt(r: Prime, secret: int, randoms: seq<int>, n: nat, shares: seq<Share>) {
    && (forall k | 0 <= k < |shares| :: 1 <= shares[k].index <= n)
    && (forall k | 0 <= k < |shares| :: shares[k].secret == Eval([secret] + randoms, shares[k].index) % r)
    && (forall i, j | 0 <= i < j < |shares| :: shares[i].index != shares[j].index)
  }

  /** Split `secret` into n shares; `randoms` are the coefficients drawn for the polynomial. */
  method SplitSecret(r: Prime, secret: int, t: int, n: int, randoms: seq<int>)
      returns (res: Result<seq<Share>, Error>)
    requires |randoms| == (if t < 1 then 0 else t - 1)
    ensures res.Err? <==> t < 1 || t > n
    ensures res.Ok? ==> |res.value| == n
    ensures res.Ok? ==> Dealt(r, secret, randoms, n, res.value)
    ensures res.Ok? ==> forall k | 0 <= k < n :: res.value[k].index == k + 1
  {
    if t < 1 || t > n { return Err(BadThreshold); }
    var coefficients := [secret] + randoms;
    var shares: seq<Share> := [];
    for index := 1 to n + 1
      invariant |shares| == index - 1
      invariant forall k | 0 <= k < index - 1 :: shares[k] == Share(k + 1, Eval(coefficients, k + 1) % r)
    {
      var acc := HornerAt(r, coefficients, index);
      shares := shares + [Share(index, acc)];
    }
    return Ok(shares);
  }

  /** Horner evaluation, highest coefficient first. */
  method HornerAt(r: Prime, f: seq<int>, x: int) returns (acc: int)
    requires f != []
    ensures acc == Eval(f, x) % r
  {
    acc := f[|f| - 1] % r;
    assert f[|f| - 1..] == [f[|f| - 1]];
    assert Eval(f[|f| - 1..], x) == f[|f| - 1];
    for k := |f| - 1 downto 0
      invariant acc == Eval(f[k..], x) % r
    {
      HornerStep(r, acc, Eval(f[k + 1..], x), x, f[k]);
      assert f[k..][1..] == f[k + 1..];
      acc := Add(r, Mul(r, acc, x), f[k]);
    }
    assert f[0..] == f;
  }

  lemma HornerStep(r: Prime, acc: int, e: int, x: int, c: int)
    requires acc == e % r
    ensures Add(r, Mul(r, acc, x), c) == (c + x * e) % r
  {
    CongSelf(r, e);
    CongSame(r, x);
    CongMul(r, acc, e, x, x);
    CongSelf(r, acc * x);
    CongSame(r, c);
    CongAdd(r, Mul(r, acc, x), e * x, c, c);
  }

  function PartialSign(r: Prime, share: Share, message: int): Partial {
    Partial(share.index, Mul(r, message, share.secret))
  }

  method HasDuplicates(indices: seq<int>) returns (dup: bool)
    ensures dup <==> !Distinct(indices)
  {
    var seen: set<int> := {};
    for i := 0 to |indices|
      invariant forall k | 0 <= k < i :: indices[k] in seen
      invariant forall v | v in seen :: v in indices[..i]
      invariant Distinct(indices[..i])
    {
      if indices[i] in seen {
        var k :| 0 <= k < i && indices[..i][k] == indices[i];
        assert indices[k] == indices[i];
        return true;
      }
      seen := seen + {indices[i]};
      assert indices[..i + 1] == indices[..i] + [indices[i]];
    }
    assert indices[..|indices|] == indices;
    return false;
  }

  method LagrangeCoefficients(r: Prime, indices: seq<int>) returns (res: Result<seq<int>, Error>)
    ensures res == if Distinct(indices) then Ok(Weights(r, indices)) else Err(DuplicateIndex)
  {
    var dup := HasDuplicates(indices);
    if dup { return Err(DuplicateIndex); }
    var lambdas: seq<int> := [];
    for i := 0 to |indices|
      invariant |lambdas| == i
      invariant forall k | 0 <= k < i :: lambdas[k] == Weight(r, indices, indices[k])
    {
      var xi := indices[i];
      var acc := 1 % r;
      for j := 0 to |indices|
        invariant acc == Weight(r, indices[..j], xi)
      {
        assert indices[..j + 1][..j] == indices[..j];
        var xj := indices[j];
        if xj != xi {
          acc := Mul(r, acc, Div(r, xj, Sub(r, xj, xi)));
        }
      }
      assert indices[..|indices|] == indices;
      lambdas := lambdas + [acc];
    }
    assert lambdas == Weights(r, indices);
    return Ok(lambdas);
  }

  function Indices(partials: seq<Partial>): (xs: seq<int>)
    ensures |xs| == |partials|
    ensures forall i | 0 <= i < |xs| :: xs[i] == partials[i].index
  {
    seq(|partials|, i requires 0 <= i < |partials| => partials[i].index)
  }

  function Sigs(partials: seq<Partial>): (ys: seq<int>)
    ensures |ys| == |partials|
    ensures forall i | 0 <= i < |ys| :: ys[i] == partials[i].sig
  {
    seq(|partials|, i requires 0 <= i < |partials| => partials[i].sig)
  }

  /** The sum both recombination loops build up, term by term. */
  method WeightedSum(r: Prime, lambdas: seq<int>, ys: seq<int>) returns (acc: int)
    requires |lambdas| == |ys| > 0
    ensures acc == Dot(lambdas, ys) % r
  {
    acc := Mul(r, ys[0], lambdas[0]);
    assert Dot(lambdas[..1], ys[..1]) == ys[0] * lambdas[0];
    for i := 1 to |ys|
      invariant acc == Dot(lambdas[..i], ys[..i]) % r
    {
      assert lambdas[..i + 1][..i] == lambdas[..i] && ys[..i + 1][..i] == ys[..i];
      SumStep(r, acc, Dot(lambdas[..i], ys[..i]), ys[i], lambdas[i]);
      acc := Add(r, acc, Mul(r, ys[i], lambdas[i]));
    }
    assert lambdas[..|ys|] == lambdas && ys[..|ys|] == ys;
  }

  lemma SumStep(r: Prime, acc: int, d: int, y: int, w: int)
    requires acc == d % r
    ensures Add(r, acc, Mul(r, y, w)) == (d + w * y) % r
  {
    CongSelf(r, d);
    CongSelf(r, y * w);
    CongAdd(r, acc, d, Mul(r, y, w), w * y);
  }

  method Aggregate(r: Prime, partials: seq<Partial>) returns (res: Result<int, Error>)
    ensures res ==
      if partials == [] then Err(NoPartials)
      else if !Distinct(Indices(partials)) then Err(DuplicateIndex)
      else Ok(Recombine(r, Indices(partials), Sigs(partials)))
  {
    if |partials| == 0 { return Err(NoPartials); }
    var lambdas := LagrangeCoefficients(r, Indices(partials));
    if lambdas.Err? { return Err(DuplicateIndex); }
    var acc := WeightedSum(r, lambdas.value, Sigs(partials));
    return Ok(acc);
  }

  function KeyPoints(r: Prime, shares: seq<Share>): (ps: seq<Partial>)
    ensures |ps| == |shares|
    ensures forall i | 0 <= i < |ps| :: ps[i] == Partial(shares[i].index, Mul(r, BASE, shares[i].secret))
  {
    seq(|shares|, i requires 0 <= i < |shares| => Partial(shares[i].index, Mul(r, BASE, shares[i].secret)))
  }

  /** The group key from shares: the same sum, over share public keys.  No shares is a type error there. */
  method GroupPublicKey(r: Prime, shares: seq<Share>) returns (res: Result<int, Error>)
    ensures res ==
      if !Distinct(Indices(KeyPoints(r, shares))) then Err(DuplicateIndex)
      else if shares == [] then Err(NoShares)
      else Ok(Recombine(r, Indices(KeyPoints(r, shares)), Sigs(KeyPoints(r, shares))))
  {
    var points := KeyPoints(r, shares);
    var lambdas := LagrangeCoefficients(r, Indices(points));
    if lambdas.Err? { return Err(DuplicateIndex); }
    if |shares| == 0 { return Err(NoShares); }
    var acc := WeightedSum(r, lambdas.value, Sigs(points));
    return Ok(acc);
  }

  /**
   Any quorum of at least t shares, in any order: aggregating their partial signatures gives the
   signature of the secret itself.
   */
  lemma QuorumSigns(r: Prime, secret: int, randoms: seq<int>, n: nat, shares: seq<Share>, message: int,
      partials: seq<Partial>)
    requires n < r && |randoms| < |shares| == |partials| && Dealt(r, secret, randoms, n, shares)
    requires forall k | 0 <= k < |shares| :: partials[k] == PartialSign(r, shares[k], message)
    ensures Distinct(Indices(partials))
    ensures Recombine(r, Indices(partials), Sigs(partials)) == Mul(r, message, secret)
  {
    var f := [secret] + randoms;
    var xs, ys := Indices(partials), Sigs(partials);
    SmallPointsDistinct(r, xs);
    forall i | 0 <= i < |xs| ensures Cong(r, ys[i], message * Eval(f, xs[i])) {
      ShareTimes(r, message, Eval(f, xs[i]));
    }
    RecombineScaled(r, f, message, xs, ys);
  }

  /** ... and recombining the public keys of any quorum gives the public key of the secret. */
  lemma QuorumKey(r: Prime, secret: int, randoms: seq<int>, n: nat, shares: seq<Share>)
    requires n < r && |randoms| < |shares| && Dealt(r, secret, randoms, n, shares)
    ensures var points := KeyPoints(r, shares);
      Distinct(Indices(points)) && Recombine(r, Indices(points), Sigs(points)) == Mul(r, BASE, secret)
  {
    QuorumSigns(r, secret, randoms, n, shares, BASE, KeyPoints(r, shares));
  }

  lemma ShareTimes(r: Prime, h: int, e: int)
    ensures Cong(r, Mul(r, h, e % r), h * e)
  {
    CongSelf(r, e);
    CongSame(r, h);
    CongMul(r, h, h, e % r, e);
    CongSelf(r, h * (e % r));
  }

  // ----- below the threshold

  /** The shares at the points `xs` of the polynomial with this secret and these coefficients. */
  function SharesAt(r: Prime, secret: int, randoms: seq<int>, xs: seq<int>): (ys: seq<int>)
    ensures |ys| == |xs|
    ensures forall i | 0 <= i < |xs| :: ys[i] == Eval([secret] + randoms, xs[i]) % r
  {
    seq(|xs|, i requires 0 <= i < |xs| => Eval([secret] + randoms, xs[i]) % r)
  }

  ghost predicate InField(r: Prime, ys: seq<int>) {
    forall i | 0 <= i < |ys| :: 0 <= ys[i] < r
  }

  lemma {:induction false} EvalReduced(r: Prime, f: seq<int>, g: seq<int>, x: int)
    requires |f| == |g| && forall k | 0 <= k < |f| :: Cong(r, f[k], g[k])
    ensures Cong(r, Eval(f, x), Eval(g, x))
  {
    if f != [] {
      EvalReduced(r, f[1..], g[1..], x);
      CongSame(r, x);
      CongMul(r, x, x, Eval(f[1..], x), Eval(g[1..], x));
      CongAdd(r, f[0], g[0], x * Eval(f[1..], x), x * Eval(g[1..], x));
    }
  }

  /** Points 0 and xs, all different. */
  lemma WithZeroDistinct(r: Prime, xs: seq<int>)
    requires DistinctMod(r, xs) && forall i | 0 <= i < |xs| :: !Cong(r, xs[i], 0)
    ensures DistinctMod(r, [0] + xs)
  {
    var zs := [0] + xs;
    forall i, j | 0 <= i < j < |zs| ensures !Cong(r, zs[i], zs[j]) {
      assert zs[j] == xs[j - 1];
      if i > 0 { assert zs[i] == xs[i - 1]; }
    }
  }

  /**
   t - 1 shares say nothing about the secret: whatever the secret and whatever the t - 1 values,
   some choice of the t - 1 coefficients produces them.
   */
  lemma EverySecretFits(r: Prime, secret: int, xs: seq<int>, ys: seq<int>) returns (randoms: seq<int>)
    requires |xs| == |ys| && InField(r, ys)
    requires DistinctMod(r, xs) && forall i | 0 <= i < |xs| :: !Cong(r, xs[i], 0)
    ensures |randoms| == |xs| && InField(r, randoms)
    ensures SharesAt(r, secret, randoms, xs) == ys
  {
    WithZeroDistinct(r, xs);
    var f := Interpolate(r, [0] + xs, [secret] + ys);
    randoms := seq(|xs|, i requires 0 <= i < |xs| => f[i + 1] % r);
    var g := [secret] + randoms;
    forall k | 0 <= k < |f| ensures Cong(r, f[k], g[k]) {
      if k == 0 {
        assert ([0] + xs)[0] == 0 && ([secret] + ys)[0] == secret;
        assert Eval(f, 0) == f[0];
      } else {
        CongSelf(r, f[k]);
      }
    }
    forall i | 0 <= i < |randoms| ensures 0 <= randoms[i] < r {
      CongSelf(r, f[i + 1]);
    }
    forall i | 0 <= i < |xs| ensures SharesAt(r, secret, randoms, xs)[i] == ys[i] {
      assert ([0] + xs)[i + 1] == xs[i] && ([secret] + ys)[i + 1] == ys[i];
      EvalReduced(r, f, g, xs[i]);
      DivModUnique(ys[i], r, 0, ys[i]);
    }
  }

  /** ... and only one choice does: coefficients and shares correspond one to one. */
  lemma OneFitOnly(r: Prime, secret: int, xs: seq<int>, a: seq<int>, b: seq<int>)
    requires |a| == |b| == |xs| && InField(r, a) && InField(r, b)
    requires DistinctMod(r, xs) && forall i | 0 <= i < |xs| :: !Cong(r, xs[i], 0)
    requires SharesAt(r, secret, a, xs) == SharesAt(r, secret, b, xs)
    ensures a == b
  {
    var f, g := [secret] + a, [secret] + b;
    var d, zs := AddScaled(f, -1, g), [0] + xs;
    WithZeroDistinct(r, xs);
    forall i | 0 <= i < |zs| ensures Cong(r, Eval(d, zs[i]), 0) {
      AddScaledEval(f, -1, g, zs[i]);
      if i > 0 {
        assert zs[i] == xs[i - 1];
        assert Eval(f, zs[i]) % r == SharesAt(r, secret, a, xs)[i - 1];
        assert Eval(g, zs[i]) % r == SharesAt(r, secret, b, xs)[i - 1];
        CongAdd(r, Eval(f, zs[i]), Eval(g, zs[i]), Eval(g, zs[i]), Eval(g, zs[i]));
      }
    }
    TooManyRoots(r, d, zs);
    forall i | 0 <= i < |a| ensures a[i] == b[i] {
      assert d[i + 1] == a[i] - b[i];
      CongAdd(r, d[i + 1], 0, b[i], b[i]);
      DivModUnique(a[i], r, 0, a[i]);
      DivModUnique(b[i], r, 0, b[i]);
    }
  }

  // ----- threshold.go

  /** Which of the given shares the library uses, and in what order, is left to it: at least t of them. */
  ghost predicate ValidPick(pick: seq<nat>, count: nat, t: int) {
    && t <= |pick|
    && Distinct(pick)
    && forall k | 0 <= k < |pick| :: pick[k] < count
  }

  function Picked(shares: seq<Partial>, pick: seq<nat>): (ps: seq<Partial>)
    requires forall k | 0 <= k < |pick| :: pick[k] < |shares|
    ensures |ps| == |pick| && forall k | 0 <= k < |pick| :: ps[k] == shares[pick[k]]
  {
    seq(|pick|, k requires 0 <= k < |pick| => shares[pick[k]])
  }

  /** Operator `index` holds the value of the polynomial at index + 1. */
  function Points(shares: seq<Partial>): (xs: seq<int>)
    ensures |xs| == |shares| && forall i | 0 <= i < |xs| :: xs[i] == shares[i].index + 1
  {
    seq(|shares|, i requires 0 <= i < |shares| => shares[i].index + 1)
  }

  /** Lagrange interpolation at zero over the shares the library picks. */
  function RecoverCommit(r: Prime, shares: seq<Partial>, pick: seq<nat>): int
    requires forall k | 0 <= k < |pick| :: pick[k] < |shares|
  {
    var ps := Picked(shares, pick);
    Recombine(r, Points(ps), Sigs(ps))
  }

  method AggregateShares(r: Prime, partials: seq<Partial>, t: int, pick: seq<nat>)
      returns (res: Result<int, Error>)
    requires t <= |partials| ==> ValidPick(pick, |partials|, t)
    ensures res == AggregateOutcome(r, partials, t, pick)
  {
    if |partials| < t { return Err(NotEnough); }
    var pubShares: seq<Partial> := [];
    var seen: set<nat> := {};
    for i := 0 to |partials|
      invariant pubShares == partials[..i]
      invariant forall k | 0 <= k < i :: partials[k].index in seen
      invariant forall v | v in seen :: v in Indices(partials[..i])
      invariant Distinct(Indices(partials[..i]))
    {
      var p := partials[i];
      if p.index in seen {
        var k :| 0 <= k < i && Indices(partials[..i])[k] == p.index;
        assert Indices(partials)[k] == Indices(partials)[i];
        return Err(DuplicateIndex);
      }
      seen := seen + {p.index};
      pubShares := pubShares + [p];
      assert Indices(partials[..i + 1]) == Indices(partials[..i]) + [p.index];
    }
    assert partials[..|partials|] == partials;
    return Ok(RecoverCommit(r, pubShares, pick));
  }

  ghost function AggregateOutcome(r: Prime, partials: seq<Partial>, t: int, pick: seq<nat>): Result<int, Error>
    requires t <= |partials| ==> ValidPick(pick, |partials|, t)
  {
    if |partials| < t then Err(NotEnough)
    else if !Distinct(Indices(partials)) then Err(DuplicateIndex)
    else Ok(RecoverCommit(r, partials, pick))
  }

  ghost predicate ValidPartial(suite: Suite, commits: seq<int>, seed: Seed, operators: int, p: Partial) {
    && p.index < operators
    && suite.IsPoint(p.sig)
    && suite.VerifyPartial(commits, p.index, seed, p.sig)
  }

  /**
   The group signature is the same whichever partial signatures are in hand, in whatever order, and
   whichever of them the library uses: the one signature of the constant term of the commitments.
   */
  lemma AnyPartialsSign(suite: Suite, commits: seq<int>, seed: Seed, partials: seq<Partial>, operators: nat,
      pick: seq<nat>)
    requires operators < suite.r && |commits| <= |partials|
    requires ValidPick(pick, |partials|, |commits|)
    requires Distinct(Indices(partials))
    requires forall k | 0 <= k < |partials| :: ValidPartial(suite, commits, seed, operators, partials[k])
    ensures AggregateOutcome(suite.r, partials, |commits|, pick) == Ok(suite.Sign(AtZero(commits), seed))
  {
    var ps := Picked(partials, pick);
    var xs, ys := Points(ps), Sigs(ps);
    var h := suite.HashSeedToPoint(seed);
    forall i, j | 0 <= i < j < |xs| ensures xs[i] != xs[j] {
      var a, b := pick[i], pick[j];
      assert Indices(partials)[a] != Indices(partials)[b] by {
        if a < b { assert Indices(partials)[a] != Indices(partials)[b]; }
        else { assert Indices(partials)[b] != Indices(partials)[a]; }
      }
    }
    SmallPointsDistinct(suite.r, xs);
    forall i | 0 <= i < |xs| ensures Cong(suite.r, ys[i], h * Eval(commits, xs[i])) {
      suite.PartialIffSigned(commits, ps[i].index, seed, ps[i].sig);
      CongSelf(suite.r, Eval(commits, xs[i]) * h);
      assert Eval(commits, xs[i]) * h == h * Eval(commits, xs[i]);
    }
    RecombineScaled(suite.r, commits, h, xs, ys);
    assert h * AtZero(commits) == AtZero(commits) * h;
  }
}
