/** Facts of integer multiplication and division that the solver does not
    find on its own. */
module Arith {

  /** Multiplying by a non-negative factor keeps the order. */
  lemma MulMonotone(x: int, y: int, b: int)
    requires x <= y && b >= 0
    ensures x * b <= y * b
  {
    var d := y - x;
    assert y * b == x * b + d * b;
  }

  /** Doubling either factor doubles the product. */
  lemma MulDouble(x: int, y: int)
    ensures (2 * x) * y == 2 * (x * y)
    ensures x * (2 * y) == 2 * (x * y)
  {
  }

  lemma MulSub(a: int, b: int, n: int)
    ensures (a - b) * n == a * n - b * n
  {
  }

  /** A multiple of n leaves no remainder and divides back exactly. */
  lemma MultipleMod(q: int, n: int)
    requires n > 0
    ensures (q * n) % n == 0 && (q * n) / n == q
  {
    var m := q * n;
    var r := m % n;
    var d := m / n;
    assert m == d * n + r;
    MulSub(q, d, n);
    var k := q - d;
    assert k * n == r;
    if k >= 1 { MulMonotone(1, k, n); assert false; }
    if k <= -1 { MulMonotone(k, -1, n); assert false; }
  }
}
