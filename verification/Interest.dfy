/**
 * Compound interest by square-and-multiply with truncating divisions (libraries/chain/asset_object.cpp).
 * An interest is a rational quote/base; numbers are unbounded here, so nothing overflows.
 */
module InterestPower {
  import opened Arithmetic

  const BASE_SUPPLY: nat := 1000000000000
  const BLOCKCHAIN_PRECISION: nat := 100000000

  datatype Interest = Interest(base: nat, quote: nat)

  function Scale(precision: nat): nat {
    BASE_SUPPLY / BLOCKCHAIN_PRECISION * precision
  }

  /** Multiplies two interests; each division truncates. */
  function Times(a: Interest, b: Interest, precision: nat): Interest
    requires a.base > 0 && b.base > 0
  {
    QuotientIsNat(Scale(precision), a.quote, a.base);
    QuotientIsNat(Scale(precision) * a.quote / a.base, b.quote, b.base);
    Interest(Scale(precision), Scale(precision) * a.quote / a.base * b.quote / b.base)
  }

  /** The loop: `pow` still to do, starting from `result` with `cur` for the lowest bit. */
  function PowFrom(result: Interest, cur: Interest, pow: nat, precision: nat): Interest
    requires result.base > 0 && cur.base > 0 && precision > 0
    decreases pow
  {
    if pow == 0 then result
    else
      var next := if pow % 2 == 1 then Times(result, cur, precision) else result;
      PowFrom(next, Times(cur, cur, precision), pow / 2, precision)
  }

  function FastPow(rate: Interest, pow: nat, precision: nat): Interest
    requires rate.base > 0 && precision > 0
  {
    PowFrom(Interest(1, 1), rate, pow, precision)
  }

  method FastPowOfInterest(rate: Interest, pow: nat, precision: nat) returns (result: Interest)
    requires rate.base > 0 && precision > 0
    ensures result == FastPow(rate, pow, precision)
  {
    var cur, left := rate, pow;
    result := Interest(1, 1);
    while left > 0
      invariant result.base > 0 && cur.base > 0
      invariant PowFrom(result, cur, left, precision) == FastPow(rate, pow, precision)
    {
      if left % 2 == 1 {
        result := Times(result, cur, precision);
      }
      cur := Times(cur, cur, precision);
      left := left / 2;
    }
  }

  // ---------- the result is a safe lower bound ----------

  function Power(b: nat, e: nat): nat {
    if e == 0 then 1 else b * Power(b, e - 1)
  }

  lemma {:induction false} PowerAdds(b: nat, e: nat, f: nat)
    ensures Power(b, e + f) == Power(b, e) * Power(b, f)
    decreases e
  {
    if e > 0 {
      PowerAdds(b, e - 1, f);
      assert Power(b, e + f) == b * Power(b, e - 1 + f);
      Associate(b, Power(b, e - 1), Power(b, f));
    }
  }

  /** `i` is at most `rate` to the power `e`, as exact rationals. */
  ghost predicate AtMostPower(i: Interest, rate: Interest, e: nat) {
    i.base > 0 && i.quote * Power(rate.base, e) <= Power(rate.quote, e) * i.base
  }

  ghost predicate AtLeastOne(i: Interest) {
    i.quote >= i.base
  }

  lemma Exchange(a: nat, b: nat, c: nat, d: nat)
    ensures (a * b) * (c * d) == (a * c) * (b * d)
  {
    Rotate(a * b, c, d);
    Rotate(a, c, b);
    Rotate(a * c, d, b);
    assert (a * b) * d == a * (b * d);
    assert ((a * b) * d) * c == (a * c) * (b * d) by { Rotate(b * d, a, c); }
  }

  /** Two truncated steps never exceed the exact product. */
  lemma TwoSteps(s: nat, aq: nat, ab: nat, bq: nat, bb: nat, x: nat, m: nat)
    requires x * ab <= s * aq && m * bb <= x * bq
    ensures m * (ab * bb) <= s * (aq * bq)
  {
    Rotate(m, ab, bb);
    MulMono2(m * bb, x * bq, ab, ab);
    Rotate(x, ab, bq);
    Rotate(x, bq, ab);
    MulMono2(x * ab, s * aq, bq, bq);
    Rotate(s, bq, aq);
  }

  /** Combining m/s <= aq bq / (ab bb), aq/ab <= p/x and bq/bb <= q/y. */
  lemma CombineBounds(m: nat, s: nat, aq: nat, ab: nat, bq: nat, bb: nat, x: nat, y: nat, p: nat, q: nat)
    requires ab > 0 && bb > 0 && m * (ab * bb) <= s * (aq * bq)
    requires aq * x <= p * ab && bq * y <= q * bb
    ensures m * (x * y) <= (p * q) * s
  {
    Rotate(m, x * y, ab * bb);
    MulMono2(m * (ab * bb), s * (aq * bq), x * y, x * y);
    Rotate(s, x * y, aq * bq);
    Exchange(aq, bq, x, y);
    MulMono2(aq * x, p * ab, bq * y, q * bb);
    MulMono2(s, s, (aq * x) * (bq * y), (p * ab) * (q * bb));
    Exchange(p, ab, q, bb);
    assert (m * (x * y)) * (ab * bb) <= s * ((p * q) * (ab * bb)) by {
      assert (m * (x * y)) * (ab * bb) == (m * (ab * bb)) * (x * y) by { Rotate(m, ab * bb, x * y); }
      assert (s * (aq * bq)) * (x * y) == s * ((aq * bq) * (x * y)) by {
        Rotate(s, aq * bq, x * y);
        Rotate(s, x * y, aq * bq);
      }
    }
    assert s * ((p * q) * (ab * bb)) == ((p * q) * s) * (ab * bb) by { Rotate(s, ab * bb, p * q); }
    assert ab * bb > 0;
    CancelFactor(m * (x * y), (p * q) * s, ab * bb);
  }

  lemma TimesIsAtMost(a: Interest, e: nat, b: Interest, f: nat, rate: Interest, precision: nat)
    requires AtMostPower(a, rate, e) && AtMostPower(b, rate, f) && precision > 0
    ensures AtMostPower(Times(a, b, precision), rate, e + f)
  {
    var s, m := Scale(precision), Times(a, b, precision).quote;
    var x := s * a.quote / a.base;
    DivIsLargest(s * a.quote, a.base, 0);
    DivIsLargest(x * b.quote, b.base, 0);
    TwoSteps(s, a.quote, a.base, b.quote, b.base, x, m);
    PowerAdds(rate.base, e, f);
    PowerAdds(rate.quote, e, f);
    CombineBounds(m, s, a.quote, a.base, b.quote, b.base,
                  Power(rate.base, e), Power(rate.base, f), Power(rate.quote, e), Power(rate.quote, f));
  }

  lemma DivAtLeast(s: nat, q: nat, b: nat)
    requires b > 0 && q >= b
    ensures s * q / b >= s
  {
    MulMono2(s, s, b, q);
    DivIsLargest(s * q, b, s);
  }

  lemma TimesIsAtLeastOne(a: Interest, b: Interest, precision: nat)
    requires a.base > 0 && b.base > 0 && AtLeastOne(a) && AtLeastOne(b)
    ensures AtLeastOne(Times(a, b, precision))
  {
    DivAtLeast(Scale(precision), a.quote, a.base);
    DivAtLeast(Scale(precision) * a.quote / a.base, b.quote, b.base);
  }

  lemma {:induction false} PowFromIsAtMost(result: Interest, done: nat, cur: Interest, step: nat, rate: Interest,
      pow: nat, precision: nat)
    requires AtMostPower(result, rate, done) && AtMostPower(cur, rate, step) && precision > 0
    ensures AtMostPower(PowFrom(result, cur, pow, precision), rate, done + pow * step)
    decreases pow
  {
    if pow > 0 {
      TimesIsAtMost(result, done, cur, step, rate, precision);
      TimesIsAtMost(cur, step, cur, step, rate, precision);
      var next := if pow % 2 == 1 then Times(result, cur, precision) else result;
      Halved(done, pow, step);
      PowFromIsAtMost(next, done + (pow % 2) * step, Times(cur, cur, precision), step + step, rate, pow / 2, precision);
    }
  }

  /** What is left of the exponent after one step, in twice the steps. */
  lemma Halved(done: nat, pow: nat, step: nat)
    ensures done + (pow % 2) * step + (pow / 2) * (step + step) == done + pow * step
    ensures (pow % 2) * step == if pow % 2 == 1 then step else 0
  {
    Distribute(2 * (pow / 2), pow % 2, step);
    Rotate(pow / 2, 2, step);
  }

  lemma {:induction false} PowFromIsAtLeastOne(result: Interest, cur: Interest, pow: nat, precision: nat)
    requires result.base > 0 && cur.base > 0 && precision > 0 && AtLeastOne(result) && AtLeastOne(cur)
    ensures AtLeastOne(PowFrom(result, cur, pow, precision))
    decreases pow
  {
    if pow > 0 {
      TimesIsAtLeastOne(result, cur, precision);
      TimesIsAtLeastOne(cur, cur, precision);
      var next := if pow % 2 == 1 then Times(result, cur, precision) else result;
      PowFromIsAtLeastOne(next, Times(cur, cur, precision), pow / 2, precision);
    }
  }

  /** Compounding never promises more than the exact power of the daily rate, and never less than the
      principal when the rate does not. */
  lemma FastPowIsSafe(rate: Interest, pow: nat, precision: nat)
    requires rate.base > 0 && precision > 0
    ensures AtMostPower(FastPow(rate, pow, precision), rate, pow)
    ensures AtLeastOne(rate) ==> AtLeastOne(FastPow(rate, pow, precision))
  {
    assert Power(rate.base, 1) == rate.base * Power(rate.base, 0) == rate.base;
    assert Power(rate.quote, 1) == rate.quote * Power(rate.quote, 0) == rate.quote;
    assert rate.quote * rate.base == rate.quote * rate.base;
    PowFromIsAtMost(Interest(1, 1), 0, rate, 1, rate, pow, precision);
    if AtLeastOne(rate) { PowFromIsAtLeastOne(Interest(1, 1), rate, pow, precision); }
  }

  // ---------- how close the result is ----------

  /** `i` is at least `rate` to the power `e`, less two parts in `s` for each of `losses` multiplications. */
  ghost predicate AtLeastPower(i: Interest, rate: Interest, e: nat, losses: nat, s: nat)
    requires s >= 2
  {
    i.base > 0 &&
      (Power(rate.quote, e) * Power(s - 2, losses)) * i.base <= i.quote * (Power(rate.base, e) * Power(s, losses))
  }

  /** Two truncations lose at most two parts in `s` of a product of factors that are at least one. */
  lemma TwoStepsLose(s: nat, aq: nat, ab: nat, bq: nat, bb: nat, x: nat, m: nat)
    requires s >= 2 && 0 < ab <= aq && 0 < bb <= bq
    requires s * aq < (x + 1) * ab && x * bq < (m + 1) * bb
    ensures (aq * bq) * (s - 2) <= m * (ab * bb)
  {
    StepLoses(s * aq, x, ab, bq);
    StepLoses(x * bq, m, bb, ab);
    assert (x * ab) * bq == (x * bq) * ab by { Associate(x, ab, bq); }
    assert (m * bb) * ab == m * (ab * bb) by { Rotate(m, ab, bb); }
    assert (s * aq) * bq == (aq * bq) * s by { Associate(s, aq, bq); }
    MulMono2(ab, aq, bq, bq);
    MulMono2(ab, aq, bb, bq);
    assert (aq * bq) * (s - 2) == (aq * bq) * s - 2 * (aq * bq) by { Distribute(s, -2, aq * bq); }
    assert bb * ab == ab * bb;
  }

  lemma StepLoses(n: nat, x: nat, b: nat, k: nat)
    requires n < (x + 1) * b
    ensures n * k <= (x * b) * k + b * k
  {
    Distribute(x, 1, b);
    MulMono(n, x * b + b, k);
    Distribute(x * b, b, k);
  }

  /** Combining aq/ab >= p1/q1, bq/bb >= p2/q2 and m >= aq bq d / (ab bb). */
  lemma CombineLower(m: nat, d: nat, aq: nat, ab: nat, bq: nat, bb: nat, p1: nat, q1: nat, p2: nat, q2: nat)
    requires ab > 0 && bb > 0 && (aq * bq) * d <= m * (ab * bb)
    requires p1 * ab <= aq * q1 && p2 * bb <= bq * q2
    ensures (p1 * p2) * d <= m * (q1 * q2)
  {
    MulMono2(p1 * ab, aq * q1, p2 * bb, bq * q2);
    Exchange(p1, ab, p2, bb);
    Exchange(aq, q1, bq, q2);
    MulMono((p1 * p2) * (ab * bb), (aq * bq) * (q1 * q2), d);
    MulMono((aq * bq) * d, m * (ab * bb), q1 * q2);
    assert ((p1 * p2) * (ab * bb)) * d == ((p1 * p2) * d) * (ab * bb) by { Associate(p1 * p2, ab * bb, d); }
    assert ((aq * bq) * (q1 * q2)) * d == ((aq * bq) * d) * (q1 * q2) by { Associate(aq * bq, q1 * q2, d); }
    assert (m * (ab * bb)) * (q1 * q2) == (m * (q1 * q2)) * (ab * bb) by { Associate(m, ab * bb, q1 * q2); }
    assert ab * bb > 0;
    CancelFactor((p1 * p2) * d, m * (q1 * q2), ab * bb);
  }

  lemma ScaleIsLarge(precision: nat)
    requires precision > 0
    ensures Scale(precision) >= 2
  {
  }

  lemma TimesIsAtLeast(a: Interest, e: nat, la: nat, b: Interest, f: nat, lb: nat, rate: Interest, precision: nat)
    requires precision > 0 && Scale(precision) >= 2 && AtLeastOne(a) && AtLeastOne(b)
    requires AtLeastPower(a, rate, e, la, Scale(precision)) && AtLeastPower(b, rate, f, lb, Scale(precision))
    ensures AtLeastPower(Times(a, b, precision), rate, e + f, la + lb + 1, Scale(precision))
  {
    var s, m := Scale(precision), Times(a, b, precision).quote;
    QuotientIsNat(s, a.quote, a.base);
    var x: nat := s * a.quote / a.base;
    DivIsLargest(s * a.quote, a.base, 0);
    DivIsLargest(x * b.quote, b.base, 0);
    TwoStepsLose(s, a.quote, a.base, b.quote, b.base, x, m);
    var p1, q1 := Power(rate.quote, e) * Power(s - 2, la), Power(rate.base, e) * Power(s, la);
    var p2, q2 := Power(rate.quote, f) * Power(s - 2, lb), Power(rate.base, f) * Power(s, lb);
    CombineLower(m, s - 2, a.quote, a.base, b.quote, b.base, p1, q1, p2, q2);
    LossesAdd(rate.quote, e, f, s - 2, la, lb);
    LossesAdd(rate.base, e, f, s, la, lb);
    MulMono((p1 * p2) * (s - 2), m * (q1 * q2), s);
    assert (m * (q1 * q2)) * s == m * ((q1 * q2) * s) by { Rotate(m, q1 * q2, s); Rotate(m, s, q1 * q2); }
  }

  lemma LossesAdd(r: nat, e: nat, f: nat, s: nat, la: nat, lb: nat)
    ensures Power(r, e + f) * Power(s, la + lb + 1)
      == ((Power(r, e) * Power(s, la)) * (Power(r, f) * Power(s, lb))) * s
  {
    PowerAdds(r, e, f);
    PowerAdds(s, la, lb);
    PowerAdds(s, la + lb, 1);
    assert Power(s, 1) == s * Power(s, 0) == s;
    Exchange(Power(r, e), Power(s, la), Power(r, f), Power(s, lb));
    Rotate(Power(r, e) * Power(r, f), Power(s, la) * Power(s, lb), s);
    Rotate(Power(r, e) * Power(r, f), s, Power(s, la) * Power(s, lb));
    assert Power(r, e + f) * (Power(s, la + lb) * s) == (Power(r, e + f) * Power(s, la + lb)) * s;
  }

  lemma {:induction false} PowFromIsAtLeast(result: Interest, done: nat, cur: Interest, step: nat, rate: Interest,
      pow: nat, precision: nat)
    requires precision > 0 && Scale(precision) >= 2 && step > 0 && AtLeastOne(result) && AtLeastOne(cur)
    requires AtLeastPower(result, rate, done, done, Scale(precision))
    requires AtLeastPower(cur, rate, step, step - 1, Scale(precision))
    ensures AtLeastPower(PowFrom(result, cur, pow, precision), rate, done + pow * step, done + pow * step,
      Scale(precision))
    decreases pow
  {
    if pow > 0 {
      TimesIsAtLeast(result, done, done, cur, step, step - 1, rate, precision);
      TimesIsAtLeast(cur, step, step - 1, cur, step, step - 1, rate, precision);
      TimesIsAtLeastOne(result, cur, precision);
      TimesIsAtLeastOne(cur, cur, precision);
      var next := if pow % 2 == 1 then Times(result, cur, precision) else result;
      Halved(done, pow, step);
      PowFromIsAtLeast(next, done + (pow % 2) * step, Times(cur, cur, precision), step + step, rate, pow / 2,
        precision);
    }
  }

  /** Nor does it promise much less: for a rate of at least one, each day loses at most two parts in the scale. */
  lemma FastPowIsClose(rate: Interest, pow: nat, precision: nat)
    requires rate.base > 0 && precision > 0 && AtLeastOne(rate)
    ensures Scale(precision) == 10000 * precision
    ensures AtLeastPower(FastPow(rate, pow, precision), rate, pow, pow, Scale(precision))
  {
    ScaleIsLarge(precision);
    var s := Scale(precision);
    assert Power(s, 0) == 1 && Power(s - 2, 0) == 1 && Power(rate.base, 0) == 1 && Power(rate.quote, 0) == 1;
    assert Power(rate.base, 1) == rate.base * Power(rate.base, 0) == rate.base;
    assert Power(rate.quote, 1) == rate.quote * Power(rate.quote, 0) == rate.quote;
    assert rate.quote * rate.base == rate.quote * rate.base;
    PowFromIsAtLeast(Interest(1, 1), 0, rate, 1, rate, pow, precision);
  }
}
