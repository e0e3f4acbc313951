/** The few facts about products and quotients that the other modules share. */
module Arithmetic {

  function Min(a: nat, b: nat): nat { if b < a then b else a }
  function Max(a: nat, b: nat): nat { if a < b then b else a }

  lemma MulMono(a: int, b: int, k: nat)
    requires a <= b
    ensures a * k <= b * k
  {
  }

  lemma MulMono2(a: nat, b: nat, c: nat, d: nat)
    requires a <= b && c <= d
    ensures a * c <= b * d
  {
    assert a * c <= b * c <= b * d;
  }

  lemma Distribute(a: int, b: int, k: int)
    ensures (a + b) * k == a * k + b * k
  {
  }

  lemma Rotate(a: int, b: int, c: int)
    ensures a * (b * c) == (a * c) * b
  {
  }

  lemma Associate(a: int, b: int, c: int)
    ensures (a * b) * c == (b * c) * a
    ensures (a * b) * c == (a * c) * b
  {
  }

  lemma CancelFactor(x: int, y: int, k: nat)
    requires k > 0 && x * k <= y * k
    ensures x <= y
  {
    Distribute(y, 1, k);
    if x > y { MulMono(y + 1, x, k); }
  }

  lemma DivUnique(x: int, k: nat, q: int, r: nat)
    requires k > 0 && x == q * k + r && r < k
    ensures x / k == q && x % k == r
  {
    var d := x / k;
    assert x == d * k + x % k;
    Distribute(q, 1, k);
    Distribute(d, 1, k);
    if d > q { MulMono(q + 1, d, k); }
    if d < q { MulMono(d + 1, q, k); }
  }

  /** Adding or taking `a` whole units of `k` moves the quotient by exactly `a`. */
  lemma DivPlus(x: int, a: int, k: nat)
    requires k > 0
    ensures (x + a * k) / k == x / k + a
  {
    assert x == (x / k) * k + x % k;
    Distribute(x / k, a, k);
    DivUnique(x + a * k, k, x / k + a, x % k);
  }

  lemma DivMono(a: int, b: int, k: nat)
    requires a <= b && k > 0
    ensures a / k <= b / k
  {
    assert a == (a / k) * k + a % k && b == (b / k) * k + b % k;
    Distribute(b / k, 1, k);
    if a / k > b / k { MulMono(b / k + 1, a / k, k); }
  }

  /** The quotient is the largest number whose product with the divisor does not exceed the dividend. */
  lemma DivIsLargest(x: nat, k: nat, q: nat)
    requires k > 0
    ensures (x / k) * k <= x < (x / k + 1) * k
    ensures q * k <= x <==> q <= x / k
  {
    assert x == (x / k) * k + x % k;
    Distribute(x / k, 1, k);
    if q <= x / k { MulMono(q, x / k, k); }
    if q > x / k { MulMono(x / k + 1, q, k); }
  }

  lemma QuotientIsNat(a: nat, b: nat, k: nat)
    requires k > 0
    ensures a * b >= 0 && a * b / k >= 0
  {
    MulMono(0, a, b);
    DivMono(0, a * b, k);
  }

  lemma ModStep(a: nat, k: nat, n: nat)
    requires k < n
    ensures (a + k) % n == if a % n + k < n then a % n + k else a % n + k - n
  {
    var q := a / n;
    assert a == q * n + a % n;
    Distribute(q, 1, n);
    if a % n + k < n { DivUnique(a + k, n, q, a % n + k); } else { DivUnique(a + k, n, q + 1, a % n + k - n); }
  }
}
