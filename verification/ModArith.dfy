/**
 Integers modulo a prime r, the scalar field of the signature scheme.

 Elements are integers; two of them stand for one field element when they are congruent.
 The operations return the representative in [0, r).  Inverses are not assumed: they are
 computed by the extended Euclidean algorithm.
 */
module ModArith {

  predicate NoDivisor(p: nat) {
    forall d | 1 < d < p :: p % d != 0
  }

  type Prime = p: nat | p > 1 && NoDivisor(p) witness 2

  predicate Cong(r: Prime, a: int, b: int) {
    a % r == b % r
  }

  function Add(r: Prime, a: int, b: int): int { (a + b) % r }

  function Sub(r: Prime, a: int, b: int): int { (a - b) % r }

  function Mul(r: Prime, a: int, b: int): int { (a * b) % r }

  /** Quotient in the field.  Dividing by zero is never reached by a result of this project. */
  function Div(r: Prime, a: int, b: int): int { (a * Inv(r, b)) % r }

  // ----- division with remainder

  lemma DivModUnique(x: int, n: int, q: int, m: int)
    requires n > 0 && x == n * q + m && 0 <= m < n
    ensures x / n == q && x % n == m
  {
    var d, m' := q - x / n, x % n;
    assert d > 0 ==> n * d >= n;
    assert d < 0 ==> n * d <= -n;
    assert n * d == m' - m by {
      assert x == n * (x / n) + m';
    }
  }

  /** Congruence from a witness: a and b differ by a multiple of r. */
  lemma CongByMultiple(r: Prime, a: int, b: int, k: int)
    requires a == b + k * r
    ensures Cong(r, a, b)
  {
    assert a == r * (b / r + k) + b % r by {
      assert b == r * (b / r) + b % r;
    }
    DivModUnique(a, r, b / r + k, b % r);
  }

  lemma CongWitness(r: Prime, a: int, b: int) returns (k: int)
    requires Cong(r, a, b)
    ensures a == b + k * r
  {
    k := a / r - b / r;
  }

  lemma CongSelf(r: Prime, a: int)
    ensures Cong(r, a % r, a) && 0 <= a % r < r
  {
    DivModUnique(a % r, r, 0, a % r);
  }

  lemma CongSame(r: Prime, a: int)
    ensures Cong(r, a, a)
  {}

  lemma CongTrans(r: Prime, a: int, b: int, c: int)
    requires Cong(r, a, b) && Cong(r, b, c)
    ensures Cong(r, a, c)
  {}

  lemma CongSym(r: Prime, a: int, b: int)
    requires Cong(r, a, b)
    ensures Cong(r, b, a)
  {}

  lemma CongAdd(r: Prime, a: int, a': int, b: int, b': int)
    requires Cong(r, a, a') && Cong(r, b, b')
    ensures Cong(r, a + b, a' + b') && Cong(r, a - b, a' - b')
  {
    var k := CongWitness(r, a, a');
    var m := CongWitness(r, b, b');
    CongByMultiple(r, a + b, a' + b', k + m);
    CongByMultiple(r, a - b, a' - b', k - m);
  }

  lemma CongMul(r: Prime, a: int, a': int, b: int, b': int)
    requires Cong(r, a, a') && Cong(r, b, b')
    ensures Cong(r, a * b, a' * b')
  {
    var k := CongWitness(r, a, a');
    var m := CongWitness(r, b, b');
    var n := a' * m + k * b;
    assert a * b == a' * b + k * r * b;
    assert a' * b == a' * b' + a' * m * r;
    assert n * r == a' * m * r + k * b * r;
    CongByMultiple(r, a * b, a' * b', n);
  }

  // ----- inverses

  /** g = a*x + b*y is positive and divides both arguments, with cofactors p and q. */
  datatype Bezout = Bezout(g: nat, x: int, y: int, p: int, q: int)

  ghost predicate IsBezout(a: nat, b: nat, t: Bezout) {
    t.g > 0 && t.g == a * t.x + b * t.y && a == t.p * t.g && b == t.q * t.g
  }

  lemma BezoutStep(a: nat, b: nat, t: Bezout)
    requires b > 0 && IsBezout(b, a % b, t)
    ensures IsBezout(a, b, Bezout(t.g, t.y, t.x - a / b * t.y, a / b * t.p + t.q, t.p))
  {
    var d, m := a / b, a % b;
    assert a == b * d + m;
    calc {
      a * t.y + b * (t.x - d * t.y);
      b * d * t.y + m * t.y + b * t.x - b * d * t.y;
      t.g;
    }
    calc {
      (d * t.p + t.q) * t.g;
      d * (t.p * t.g) + t.q * t.g;
      a;
    }
  }

  /** The extended Euclidean algorithm. */
  function Euclid(a: nat, b: nat): (t: Bezout)
    requires a > 0 || b > 0
    ensures IsBezout(a, b, t)
    decreases b
  {
    if b == 0 then Bezout(a, 1, 0, 1, 0)
    else
      var t := Euclid(b, a % b);
      BezoutStep(a, b, t);
      Bezout(t.g, t.y, t.x - a / b * t.y, a / b * t.p + t.q, t.p)
  }

  lemma CoprimeToPrime(r: Prime, m: nat, t: Bezout)
    requires 0 < m < r && IsBezout(m, r, t)
    ensures t.g == 1
  {
    assert t.p >= 1 by { assert t.p <= 0 ==> t.p * t.g <= 0; }
    assert t.g <= m by { assert (t.p - 1) * t.g >= 0; }
    DivModUnique(r, t.g, t.q, 0);
    assert NoDivisor(r);
  }

  lemma BezoutInverts(r: Prime, a: int, t: Bezout)
    requires !Cong(r, a, 0) && IsBezout(a % r, r, t) && t.g == 1
    ensures Mul(r, a, t.x % r) == 1
  {
    CongSelf(r, a);
    CongSelf(r, t.x);
    CongMul(r, a % r, a, t.x, t.x % r);
    CongByMultiple(r, (a % r) * t.x, 1, -t.y);
    DivModUnique(1, r, 0, 1);
  }

  /** Every element that is not zero has an inverse. */
  function Inv(r: Prime, a: int): (b: int)
    ensures 0 <= b < r
    ensures !Cong(r, a, 0) ==> Mul(r, a, b) == 1
  {
    DivModUnique(0, r, 0, 0);
    if a % r == 0 then 0
    else
      var t := Euclid(a % r, r);
      CoprimeToPrime(r, a % r, t);
      BezoutInverts(r, a, t);
      t.x % r
  }

  /** A prime field has no zero divisors. */
  lemma ZeroProduct(r: Prime, a: int, b: int)
    requires Cong(r, a * b, 0) && !Cong(r, a, 0)
    ensures Cong(r, b, 0)
  {
    var c := Inv(r, a);
    DivModUnique(1, r, 0, 1);
    CongMul(r, a * c, 1, b, b);
    CongMul(r, a * b, 0, c, c);
    assert a * c * b == a * b * c;
  }

  lemma TimesDifference(c: int, a: int, b: int)
    ensures c * a - c * b == c * (a - b)
  {}

  /** Cancelling a factor that is not zero. */
  lemma Cancel(r: Prime, c: int, a: int, b: int)
    requires Cong(r, c * a, c * b) && !Cong(r, c, 0)
    ensures Cong(r, a, b)
  {
    hide *;
    assert Cong(r, c * b, c * b) by { CongSame(r, c * b); }
    assert Cong(r, b, b) by { CongSame(r, b); }
    CongAdd(r, c * a, c * b, c * b, c * b);
    TimesDifference(c, a, b);
    ZeroProduct(r, c, a - b);
    CongAdd(r, a - b, 0, b, b);
  }
}
