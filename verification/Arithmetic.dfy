/** Division with remainder, for any divisor. */
module Arithmetic {

  lemma Product(a: nat, n: nat)
    requires a >= 1
    ensures a * n >= n
  {
    assert a * n == (a - 1) * n + n;
  }

  /** Quotient and remainder are unique. */
  lemma DivMod(t: nat, n: nat, q: int, r: int)
    requires n > 0 && t == q * n + r && 0 <= r < n
    ensures t / n == q && t % n == r
  {
    var q', r' := t / n, t % n;
    assert t == q' * n + r';
    assert (q - q') * n == r' - r && (q' - q) * n == r - r';
    if q > q' {
      Product(q - q', n);
    } else if q < q' {
      Product(q' - q, n);
    }
  }

  lemma Nested(a: nat, b: nat, q: nat, r: nat, r': nat)
    requires r < a && r' < b
    ensures (q * b + r') * a + r == q * (a * b) + (r' * a + r)
    ensures 0 <= r' * a + r < a * b
  {
    assert (q * b + r') * a == q * b * a + r' * a;
    assert q * b * a == q * (a * b);
    assert r' * a >= 0;
    var d := b - 1 - r';
    assert d * a >= 0;
    assert a * b == (d + 1 + r') * a == d * a + a + r' * a;
  }

  lemma DivideNested(x: nat, a: nat, b: nat, ab: nat, q: nat, r: nat, r': nat)
    requires r < a && r' < b && ab == a * b && x == (q * b + r') * a + r
    ensures ab > 0 && x / ab == q
  {
    Nested(a, b, q, r, r');
    var rest := r' * a + r;
    assert x == q * ab + rest && 0 <= rest < ab;
    DivMod(x, ab, q, rest);
  }

  lemma Division(x: nat, n: nat)
    requires n > 0
    ensures x == x / n * n + x % n && 0 <= x % n < n && x / n >= 0
  {
  }

  /** Dividing twice is dividing by the product. */
  lemma DivDiv(x: nat, a: nat, b: nat, ab: nat)
    requires a > 0 && b > 0 && ab == a * b
    ensures ab > 0 && x / ab == x / a / b
  {
    Division(x, a);
    Division(x / a, b);
    DivideNested(x, a, b, ab, x / a / b, x % a, x / a % b);
  }
}
