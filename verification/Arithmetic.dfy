/** Products, remainders and powers of two, for the models that compute addresses. */
module Arithmetic {

  /** Natural powers of two, for alignment arithmetic. */
  function Pow2(n: nat): (p: nat)
    ensures p > 0
  {
    if n == 0 then 1 else 2 * Pow2(n - 1)
  }

  lemma {:induction false} Pow2Adds(a: nat, b: nat)
    ensures Pow2(a + b) == Pow2(a) * Pow2(b)
  {
    if a != 0 {
      Pow2Adds(a - 1, b);
    }
  }

  lemma Monotone(a: nat, b: nat, c: nat)
    requires a <= b
    ensures a * c <= b * c
  {
  }

  lemma AtLeastOnce(a: int, d: int)
    requires a > 0 && d >= 1
    ensures a * d >= a
  {
  }

  /** A multiple of a that is smaller than a in size is zero. */
  lemma NoMultiple(a: int, d: int)
    requires a > 0 && -a < a * d < a
    ensures d == 0
  {
    if d >= 1 { AtLeastOnce(a, d); }
    if d <= -1 { AtLeastOnce(a, -d); }
  }

  lemma ModUnique(q: int, r: nat, a: nat)
    requires 0 <= r < a
    ensures (q * a + r) % a == r && (q * a + r) / a == q
  {
    var x: int := q * a + r;
    var d: int := x / a - q;
    assert a * d == a * (x / a) - a * q == r - x % a;
    NoMultiple(a, d);
  }

  lemma MultipleMod(q: int, a: nat)
    requires a > 0
    ensures (a * q) % a == 0 && (q * a) % a == 0
  {
    ModUnique(q, 0, a);
    assert q * a + 0 == a * q;
  }

  lemma SumDivides(x: int, y: int, a: nat)
    requires a > 0 && x % a == 0 && y % a == 0
    ensures (x + y) % a == 0
  {
    assert x == a * (x / a) && y == a * (y / a);
    assert x + y == a * (x / a + y / a);
    MultipleMod(x / a + y / a, a);
  }

  lemma ProductDivides(q: int, x: int, a: nat)
    requires a > 0 && x % a == 0
    ensures (q * x) % a == 0
  {
    assert x == a * (x / a);
    assert q * x == a * (q * (x / a));
    MultipleMod(q * (x / a), a);
  }

  lemma Transitive(x: int, b: nat, a: nat)
    requires a > 0 && b > 0 && x % b == 0 && b % a == 0
    ensures x % a == 0
  {
    assert x == (x / b) * b;
    ProductDivides(x / b, b, a);
  }

  lemma PositiveFactor(a: nat, b: nat)
    requires a * b > 0
    ensures b > 0
  {
  }
}
