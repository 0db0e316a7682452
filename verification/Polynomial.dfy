/**
 Polynomials over the field of integers modulo a prime, as lists of coefficients, lowest first.

 Evaluation and division by a linear factor are exact over the integers; only statements that
 need inverses are congruences.  The three results used elsewhere: a polynomial with as many
 roots as coefficients is zero, interpolation exists, and the Lagrange weights at zero recover
 the constant term.
 */
module Polynomial {
  import opened ModArith

  function Eval(f: seq<int>, x: int): int {
    if f == [] then 0 else f[0] + x * Eval(f[1..], x)
  }

  /** The constant term. */
  function AtZero(f: seq<int>): (c: int)
    ensures c == Eval(f, 0)
  {
    if f == [] then 0 else f[0]
  }

  ghost predicate DistinctMod(r: Prime, xs: seq<int>) {
    forall i, j | 0 <= i < j < |xs| :: !Cong(r, xs[i], xs[j])
  }

  ghost predicate ZeroPoly(r: Prime, f: seq<int>) {
    forall k | 0 <= k < |f| :: Cong(r, f[k], 0)
  }

  // ----- exact integer algebra, one step at a time

  lemma Distribute(a: int, b: int, c: int)
    ensures a * (b + c) == a * b + a * c && (b + c) * a == a * b + a * c
  {}

  lemma Exchange(a: int, b: int, c: int)
    ensures a * (b * c) == b * (a * c) == a * b * c
  {}

  // ----- division by a linear factor

  function Quotient(f: seq<int>, a: int): (q: seq<int>)
    ensures |q| == if f == [] then 0 else |f| - 1
  {
    if |f| <= 1 then [] else [Eval(f[1..], a)] + Quotient(f[1..], a)
  }

  lemma {:induction false} Factor(f: seq<int>, x: int, a: int)
    ensures Eval(f, x) - Eval(f, a) == (x - a) * Eval(Quotient(f, a), x)
  {
    if |f| > 1 {
      var g, q := f[1..], Quotient(f[1..], a);
      Factor(g, x, a);
      assert Quotient(f, a)[1..] == q;
      FactorAlgebra(x, a, Eval(g, x), Eval(g, a), Eval(q, x));
    }
  }

  lemma FactorAlgebra(x: int, a: int, ex: int, ea: int, q: int)
    requires ex - ea == (x - a) * q
    ensures x * ex - a * ea == (x - a) * (ea + x * q)
  {
    Distribute(x - a, ea, x * q);
    Exchange(x, x - a, q);
    Distribute(x, ex, -ea);
    Distribute(ea, x, -a);
  }

  lemma {:induction false} QuotientAt(f: seq<int>, a: int, k: nat)
    requires k + 1 < |f|
    ensures Quotient(f, a)[k] == Eval(f[k + 1..], a)
  {
    if k > 0 {
      QuotientAt(f[1..], a, k - 1);
      assert f[1..][k..] == f[k + 1..];
    }
  }

  lemma QuotientRoots(r: Prime, f: seq<int>, xs: seq<int>)
    requires |xs| > 0 && DistinctMod(r, xs)
    requires forall i | 0 <= i < |xs| :: Cong(r, Eval(f, xs[i]), 0)
    ensures forall i | 0 <= i < |xs| - 1 :: Cong(r, Eval(Quotient(f, xs[|xs| - 1]), xs[i]), 0)
  {
    var z := xs[|xs| - 1];
    forall i | 0 <= i < |xs| - 1 ensures Cong(r, Eval(Quotient(f, z), xs[i]), 0) {
      Factor(f, xs[i], z);
      CongAdd(r, Eval(f, xs[i]), 0, Eval(f, z), 0);
      if Cong(r, xs[i] - z, 0) {
        CongAdd(r, xs[i] - z, 0, z, z);
      }
      ZeroProduct(r, xs[i] - z, Eval(Quotient(f, z), xs[i]));
    }
  }

  /** A polynomial with as many distinct roots as coefficients is the zero polynomial. */
  lemma {:induction false} TooManyRoots(r: Prime, f: seq<int>, xs: seq<int>)
    requires |f| <= |xs| && DistinctMod(r, xs)
    requires forall i | 0 <= i < |xs| :: Cong(r, Eval(f, xs[i]), 0)
    ensures ZeroPoly(r, f)
    decreases |f|
  {
    if |f| > 0 {
      var z := xs[|xs| - 1];
      var q := Quotient(f, z);
      QuotientRoots(r, f, xs);
      TooManyRoots(r, q, xs[..|xs| - 1]);
      forall k | 0 <= k < |f| ensures Cong(r, f[k], 0) {
        assert Cong(r, Eval(f[k..], z), 0) by {
          if k > 0 { QuotientAt(f, z, k - 1); } else { assert f[0..] == f; }
        }
        assert Cong(r, Eval(f[k + 1..], z), 0) by {
          if k + 1 < |f| { QuotientAt(f, z, k); }
        }
        assert f[k..][1..] == f[k + 1..];
        CongMul(r, z, z, Eval(f[k + 1..], z), 0);
        CongAdd(r, Eval(f[k..], z), 0, z * Eval(f[k + 1..], z), 0);
      }
    }
  }

  // ----- the polynomial that vanishes on a list of points

  /** carry + (c - x) * f */
  function TimesLinear(f: seq<int>, c: int, carry: int): (g: seq<int>)
    ensures |g| == |f| + 1
  {
    if f == [] then [carry] else [carry + c * f[0]] + TimesLinear(f[1..], c, -f[0])
  }

  lemma {:induction false} TimesLinearEval(f: seq<int>, c: int, carry: int, x: int)
    ensures Eval(TimesLinear(f, c, carry), x) == carry + (c - x) * Eval(f, x)
  {
    if f != [] {
      TimesLinearEval(f[1..], c, -f[0], x);
      assert TimesLinear(f, c, carry)[1..] == TimesLinear(f[1..], c, -f[0]);
      LinearAlgebra(c, x, f[0], Eval(f[1..], x));
    }
  }

  lemma LinearAlgebra(c: int, x: int, f: int, e: int)
    ensures c * f + x * (-f + (c - x) * e) == (c - x) * (f + x * e)
  {
    Distribute(c - x, f, x * e);
    Exchange(x, c - x, e);
    Distribute(x, -f, (c - x) * e);
    Distribute(f, c, -x);
  }

  /** The product of (c - x) over the points c. */
  function Vanishing(xs: seq<int>): (v: seq<int>)
    ensures |v| == |xs| + 1
  {
    if xs == [] then [1] else TimesLinear(Vanishing(xs[..|xs| - 1]), xs[|xs| - 1], 0)
  }

  lemma VanishingStep(xs: seq<int>, x: int)
    requires xs != []
    ensures Eval(Vanishing(xs), x) == (xs[|xs| - 1] - x) * Eval(Vanishing(xs[..|xs| - 1]), x)
  {
    TimesLinearEval(Vanishing(xs[..|xs| - 1]), xs[|xs| - 1], 0, x);
  }

  lemma {:induction false} VanishingRoot(xs: seq<int>, i: nat)
    requires i < |xs|
    ensures Eval(Vanishing(xs), xs[i]) == 0
  {
    VanishingStep(xs, xs[i]);
    if i < |xs| - 1 {
      VanishingRoot(xs[..|xs| - 1], i);
    }
  }

  lemma {:induction false} VanishingNonzero(r: Prime, xs: seq<int>, x: int)
    requires forall i | 0 <= i < |xs| :: !Cong(r, xs[i], x)
    ensures !Cong(r, Eval(Vanishing(xs), x), 0)
  {
    if xs == [] {
      DivModUnique(1, r, 0, 1);
      DivModUnique(0, r, 0, 0);
    } else {
      var z, xs' := xs[|xs| - 1], xs[..|xs| - 1];
      VanishingNonzero(r, xs', x);
      VanishingStep(xs, x);
      if Cong(r, Eval(Vanishing(xs), x), 0) {
        if Cong(r, z - x, 0) { CongAdd(r, z - x, 0, x, x); }
        ZeroProduct(r, z - x, Eval(Vanishing(xs'), x));
      }
    }
  }

  // ----- interpolation

  /** f + c * g */
  function AddScaled(f: seq<int>, c: int, g: seq<int>): (h: seq<int>)
    requires |f| <= |g|
    ensures |h| == |g|
  {
    seq(|g|, k requires 0 <= k < |g| => (if k < |f| then f[k] else 0) + c * g[k])
  }

  lemma {:induction false} AddScaledEval(f: seq<int>, c: int, g: seq<int>, x: int)
    requires |f| <= |g|
    ensures Eval(AddScaled(f, c, g), x) == Eval(f, x) + c * Eval(g, x)
  {
    if g != [] {
      var f' := if f == [] then [] else f[1..];
      AddScaledEval(f', c, g[1..], x);
      assert AddScaled(f, c, g)[1..] == AddScaled(f', c, g[1..]);
      var e, e' := Eval(f', x), Eval(g[1..], x);
      Distribute(x, e, c * e');
      Exchange(x, c, e');
      Distribute(c, g[0], x * e');
    }
  }

  /** Adding a multiple of the vanishing polynomial: old points keep their values, z gets y. */
  lemma NewtonStep(r: Prime, xs: seq<int>, g: seq<int>, z: int, y: int) returns (f: seq<int>)
    requires |g| == |xs| && forall i | 0 <= i < |xs| :: !Cong(r, xs[i], z)
    ensures |f| == |xs| + 1 && Cong(r, Eval(f, z), y)
    ensures forall i | 0 <= i < |xs| :: Eval(f, xs[i]) == Eval(g, xs[i])
  {
    var v := Vanishing(xs);
    var e, d := Eval(v, z), y - Eval(g, z);
    VanishingNonzero(r, xs, z);
    f := AddScaled(g, d * Inv(r, e), v);
    forall i | 0 <= i < |xs| ensures Eval(f, xs[i]) == Eval(g, xs[i]) {
      AddScaledEval(g, d * Inv(r, e), v, xs[i]);
      VanishingRoot(xs, i);
    }
    AddScaledEval(g, d * Inv(r, e), v, z);
    InverseTimes(r, e, d);
    Exchange(e, d, Inv(r, e));
    Exchange(d, e, Inv(r, e));
    CongAdd(r, Eval(g, z), Eval(g, z), e * Inv(r, e) * d, d);
  }

  /** One coefficient per point is enough to pass through every point (Newton's form). */
  lemma {:induction false} Interpolate(r: Prime, xs: seq<int>, ys: seq<int>) returns (f: seq<int>)
    requires |xs| == |ys| && DistinctMod(r, xs)
    ensures |f| == |xs|
    ensures forall i | 0 <= i < |xs| :: Cong(r, Eval(f, xs[i]), ys[i])
  {
    if xs == [] {
      f := [];
    } else {
      var n := |xs| - 1;
      var g := Interpolate(r, xs[..n], ys[..n]);
      f := NewtonStep(r, xs[..n], g, xs[n], ys[n]);
      forall i | 0 <= i < n ensures Cong(r, Eval(f, xs[i]), ys[i]) {
        assert xs[..n][i] == xs[i];
      }
    }
  }

  lemma InverseTimes(r: Prime, a: int, d: int)
    requires !Cong(r, a, 0)
    ensures Cong(r, a * Inv(r, a) * d, d)
  {
    DivModUnique(1, r, 0, 1);
    CongMul(r, a * Inv(r, a), 1, d, d);
  }

  // ----- Lagrange weights at zero

  /** Weight of the point xi: the product of xj / (xj - xi) over the other points. */
  function Weight(r: Prime, xs: seq<int>, xi: int): int {
    if xs == [] then 1 % r
    else
      var w, xj := Weight(r, xs[..|xs| - 1], xi), xs[|xs| - 1];
      if xj == xi then w else Mul(r, w, Div(r, xj, Sub(r, xj, xi)))
  }

  function Weights(r: Prime, xs: seq<int>): (ws: seq<int>)
    ensures |ws| == |xs| && forall i | 0 <= i < |xs| :: ws[i] == Weight(r, xs, xs[i])
  {
    seq(|xs|, i requires 0 <= i < |xs| => Weight(r, xs, xs[i]))
  }

  /** Sum of ws[i] * ys[i]. */
  function Dot(ws: seq<int>, ys: seq<int>): int
    requires |ws| == |ys|
  {
    if ws == [] then 0
    else Dot(ws[..|ws| - 1], ys[..|ys| - 1]) + ws[|ws| - 1] * ys[|ys| - 1]
  }

  function Values(f: seq<int>, xs: seq<int>): (ys: seq<int>)
    ensures |ys| == |xs| && forall i | 0 <= i < |xs| :: ys[i] == Eval(f, xs[i])
  {
    seq(|xs|, i requires 0 <= i < |xs| => Eval(f, xs[i]))
  }

  /** A factor common to every term, up to congruence, comes out of the sum. */
  lemma {:induction false} DotScaled(r: Prime, c: int, ws: seq<int>, ys: seq<int>, vs: seq<int>, zs: seq<int>)
    requires |ws| == |ys| == |vs| == |zs|
    requires forall i | 0 <= i < |ws| :: Cong(r, ws[i] * ys[i], c * (vs[i] * zs[i]))
    ensures Cong(r, Dot(ws, ys), c * Dot(vs, zs))
  {
    if ws != [] {
      var n := |ws| - 1;
      DotScaled(r, c, ws[..n], ys[..n], vs[..n], zs[..n]);
      CongAdd(r, Dot(ws[..n], ys[..n]), c * Dot(vs[..n], zs[..n]), ws[n] * ys[n], c * (vs[n] * zs[n]));
      Distribute(c, Dot(vs[..n], zs[..n]), vs[n] * zs[n]);
    }
  }

  lemma {:induction false} DotMinus(ws: seq<int>, ys: seq<int>, c: int, ds: seq<int>, ones: seq<int>)
    requires |ws| == |ys| == |ds| == |ones|
    requires forall i | 0 <= i < |ws| :: ds[i] == ys[i] - c && ones[i] == 1
    ensures Dot(ws, ds) == Dot(ws, ys) - c * Dot(ws, ones)
  {
    if ws != [] {
      var n := |ws| - 1;
      var w, y, d1 := ws[n], ys[n], Dot(ws[..n], ones[..n]);
      DotMinus(ws[..n], ys[..n], c, ds[..n], ones[..n]);
      Distribute(w, y, -c);
      Distribute(c, d1, w);
    }
  }

  /** Adding a point z multiplies the weight of every other point by z / (z - x). */
  lemma WeightStep(r: Prime, xs: seq<int>, x: int)
    requires xs != [] && xs[|xs| - 1] != x
    ensures var z := xs[|xs| - 1];
            Cong(r, Weight(r, xs, x), Weight(r, xs[..|xs| - 1], x) * (z * Inv(r, Sub(r, z, x))))
  {
    var z := xs[|xs| - 1];
    var w := Weight(r, xs[..|xs| - 1], x);
    var d := z * Inv(r, Sub(r, z, x));
    CongSelf(r, d);
    CongMul(r, w, w, d % r, d);
    CongSelf(r, w * (d % r));
  }

  /** One term of the induction step: weight times (x - z), with the inverse cancelled. */
  lemma TermStep(r: Prime, xs: seq<int>, x: int, q: int)
    requires xs != [] && !Cong(r, x, xs[|xs| - 1])
    ensures var z := xs[|xs| - 1];
            Cong(r, Weight(r, xs, x) * ((x - z) * q), -z * (Weight(r, xs[..|xs| - 1], x) * q))
  {
    var z := xs[|xs| - 1];
    var w := Weight(r, xs[..|xs| - 1], x);
    var i := Inv(r, Sub(r, z, x));
    WeightStep(r, xs, x);
    CongMul(r, Weight(r, xs, x), w * (z * i), (x - z) * q, (x - z) * q);
    TermAlgebra(w, z, i, x, q);
    DifferenceCancels(r, z, x, -z * (w * q));
  }

  lemma DifferenceCancels(r: Prime, z: int, x: int, rest: int)
    requires !Cong(r, x, z)
    ensures Cong(r, (z - x) * (Inv(r, Sub(r, z, x)) * rest), rest)
  {
    var s := Sub(r, z, x);
    var i := Inv(r, s);
    CongSelf(r, z - x);
    if Cong(r, s, 0) { CongAdd(r, z - x, 0, x, x); }
    InverseTimes(r, s, rest);
    CongMul(r, s, z - x, i * rest, i * rest);
    assert s * i * rest == s * (i * rest);
  }

  lemma TermAlgebra(w: int, z: int, i: int, x: int, q: int)
    ensures w * (z * i) * ((x - z) * q) == (z - x) * (i * (-z * (w * q)))
  {
    var a, b, d := w * q, z * i, x - z;
    calc {
      w * b * (d * q);
      { Exchange(w * b, d, q); Exchange(w, b, q); Exchange(b, w, q); }
      d * (b * a);
      { NegateBoth(d, b * a); Exchange(i, -z, a); }
      (z - x) * (i * (-z * a));
    }
  }

  /** The weighted differences to the last point: f(0) = f(z) + sum of w_i (f(x_i) - f(z)). */
  lemma Differences(r: Prime, f: seq<int>, xs: seq<int>, ws: seq<int>, ds: seq<int>)
    requires xs != [] && DistinctMod(r, xs) && |f| <= |xs|
    requires |ws| == |ds| == |xs| - 1
    requires forall i | 0 <= i < |ws| ::
      ws[i] == Weight(r, xs, xs[i]) && ds[i] == Eval(f, xs[i]) - Eval(f, xs[|xs| - 1])
    requires var q := Quotient(f, xs[|xs| - 1]); var xs' := xs[..|xs| - 1];
      Cong(r, Dot(Weights(r, xs'), Values(q, xs')), Eval(q, 0))
    ensures Cong(r, Eval(f, xs[|xs| - 1]) + Dot(ws, ds), Eval(f, 0))
  {
    var n := |xs| - 1;
    var z, xs' := xs[n], xs[..n];
    var q := Quotient(f, z);
    var vs, zs := Weights(r, xs'), Values(q, xs');
    forall i | 0 <= i < n ensures Cong(r, ws[i] * ds[i], -z * (vs[i] * zs[i])) {
      Factor(f, xs[i], z);
      TermStep(r, xs, xs[i], zs[i]);
    }
    DotScaled(r, -z, ws, ds, vs, zs);
    CongMul(r, -z, -z, Dot(vs, zs), Eval(q, 0));
    Factor(f, 0, z);
    CongAdd(r, Eval(f, z), Eval(f, z), Dot(ws, ds), -z * Eval(q, 0));
    assert (0 - z) * Eval(q, 0) == -z * Eval(q, 0);
  }

  /** The weight of a point, times the vanishing polynomial of the others there, is its value at 0. */
  lemma {:induction false} WeightTimesVanishing(r: Prime, xs: seq<int>, x: int)
    requires forall i | 0 <= i < |xs| :: !Cong(r, xs[i], x)
    ensures Cong(r, Weight(r, xs, x) * Eval(Vanishing(xs), x), Eval(Vanishing(xs), 0))
  {
    if xs == [] {
      CongSelf(r, 1);
    } else {
      var n := |xs| - 1;
      var z, xs' := xs[n], xs[..n];
      WeightTimesVanishing(r, xs', x);
      VanishingStep(xs, x);
      VanishingStep(xs, 0);
      var v, v0 := Eval(Vanishing(xs'), x), Eval(Vanishing(xs'), 0);
      TermStep(r, xs, x, -v);
      VanishingTerm(r, Weight(r, xs, x), x, z, Weight(r, xs', x), v, v0);
    }
  }

  lemma VanishingTerm(r: Prime, w: int, x: int, z: int, w': int, v: int, v0: int)
    requires Cong(r, w * ((x - z) * -v), -z * (w' * -v)) && Cong(r, w' * v, v0)
    ensures Cong(r, w * ((z - x) * v), (z - 0) * v0)
  {
    hide *;
    NegateBoth(x - z, v);
    NegateBoth(w', v);
    NegateBoth(-z, w' * v);
    CongSame(r, z);
    CongMul(r, z, z, w' * v, v0);
    CongTrans(r, w * ((z - x) * v), z * (w' * v), z * v0);
  }

  lemma NegateBoth(a: int, b: int)
    ensures a * -b == -a * b
  {}

  /** The weights sum to one, seen from the last point. */
  lemma LastWeight(r: Prime, xs: seq<int>, ws: seq<int>, ones: seq<int>)
    requires xs != [] && DistinctMod(r, xs)
    requires |ws| == |ones| == |xs| - 1
    requires forall i | 0 <= i < |ws| :: ws[i] == Weight(r, xs, xs[i]) && ones[i] == 1
    requires var q := Quotient(Vanishing(xs[..|xs| - 1]), xs[|xs| - 1]); var xs' := xs[..|xs| - 1];
      Cong(r, Dot(Weights(r, xs'), Values(q, xs')), Eval(q, 0))
    ensures Cong(r, Weight(r, xs, xs[|xs| - 1]), 1 - Dot(ws, ones))
  {
    var n := |xs| - 1;
    var z, xs' := xs[n], xs[..n];
    var f := Vanishing(xs');
    var v := Eval(f, z);
    var ds := seq(n, i requires 0 <= i < n => 0 - v);
    forall i | 0 <= i < n ensures Eval(f, xs[i]) == 0 {
      VanishingRoot(xs', i);
      assert xs[i] == xs'[i];
    }
    Differences(r, f, xs, ws, ds);
    DotConstant(ws, ds, -v, ones);
    WeightTimesVanishing(r, xs', z);
    VanishingNonzero(r, xs', z);
    CancelWeight(r, v, Dot(ws, ones), Weight(r, xs', z), Eval(f, 0));
  }

  lemma CancelWeight(r: Prime, v: int, s: int, w: int, e: int)
    requires Cong(r, v + -v * s, e) && Cong(r, w * v, e) && !Cong(r, v, 0)
    ensures Cong(r, w, 1 - s)
  {
    hide *;
    Distribute(v, 1, -s);
    NegateBoth(v, s);
    CongSym(r, v + -v * s, e);
    CongTrans(r, v * w, e, v * (1 - s));
    Cancel(r, v, w, 1 - s);
  }

  lemma {:induction false} DotConstant(ws: seq<int>, ds: seq<int>, c: int, ones: seq<int>)
    requires |ws| == |ds| == |ones|
    requires forall i | 0 <= i < |ws| :: ds[i] == c && ones[i] == 1
    ensures Dot(ws, ds) == c * Dot(ws, ones)
  {
    if ws != [] {
      var n := |ws| - 1;
      DotConstant(ws[..n], ds[..n], c, ones[..n]);
      Distribute(c, Dot(ws[..n], ones[..n]), ws[n]);
    }
  }

  /** Lagrange at zero: any list of distinct points, at least as long as f, recovers f(0). */
  lemma {:induction false} LagrangeAtZero(r: Prime, f: seq<int>, xs: seq<int>)
    requires DistinctMod(r, xs) && |f| <= |xs|
    ensures Cong(r, Dot(Weights(r, xs), Values(f, xs)), Eval(f, 0))
    decreases |xs|
  {
    if xs != [] {
      var n := |xs| - 1;
      LagrangeAtZero(r, Quotient(f, xs[n]), xs[..n]);
      LagrangeAtZero(r, Quotient(Vanishing(xs[..n]), xs[n]), xs[..n]);
      hide *;
      LagrangeStep(r, f, xs);
    }
  }

  /** From all points but the last, for two quotients by it, to all points. */
  lemma LagrangeStep(r: Prime, f: seq<int>, xs: seq<int>)
    requires DistinctMod(r, xs) && 0 < |xs| && |f| <= |xs|
    requires var n := |xs| - 1; var q := Quotient(f, xs[n]);
      Cong(r, Dot(Weights(r, xs[..n]), Values(q, xs[..n])), Eval(q, 0))
    requires var n := |xs| - 1; var q := Quotient(Vanishing(xs[..n]), xs[n]);
      Cong(r, Dot(Weights(r, xs[..n]), Values(q, xs[..n])), Eval(q, 0))
    ensures Cong(r, Dot(Weights(r, xs), Values(f, xs)), Eval(f, 0))
  {
    hide *;
    var n := |xs| - 1;
    var z := xs[n];
    var all, ys := Weights(r, xs), Values(f, xs);
    var ws, w := all[..n], all[n];
    var ds := seq(n, i requires 0 <= i < n => Eval(f, xs[i]) - Eval(f, z));
    var ones := seq(n, i requires 0 <= i < n => 1);
    Differences(r, f, xs, ws, ds);
    LastWeight(r, xs, ws, ones);
    DotMinus(ws, ys[..n], Eval(f, z), ds, ones);
    DotLast(all, ys);
    LastStep(r, Eval(f, z), Dot(ws, ones), w, Dot(ws, ys[..n]), Eval(f, 0));
  }

  lemma DotLast(ws: seq<int>, ys: seq<int>)
    requires |ws| == |ys| > 0
    ensures Dot(ws, ys) == Dot(ws[..|ws| - 1], ys[..|ys| - 1]) + ws[|ws| - 1] * ys[|ys| - 1]
  {}

  lemma LastStep(r: Prime, c: int, s: int, w: int, d: int, e: int)
    requires Cong(r, c + (d - c * s), e) && Cong(r, w, 1 - s)
    ensures Cong(r, d + w * c, e)
  {
    hide *;
    assert Cong(r, c, c) by { CongSame(r, c); }
    assert Cong(r, d, d) by { CongSame(r, d); }
    CongMul(r, w, 1 - s, c, c);
    CongAdd(r, d, d, w * c, (1 - s) * c);
    Distribute(c, 1, -s);
    NegateBoth(c, s);
    CongTrans(r, d + w * c, c + (d - c * s), e);
  }
}
