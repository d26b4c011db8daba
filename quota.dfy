/**
 * Category quotas. Every proportion in the generators is a decimal literal
 * (0.36, 0.3 * 0.6, ...); here it is the exact fraction num / den.
 */
module Quota {

  /** JavaScript's Math.ceil applied to the exact quotient a / b. */
  function CeilDiv(a: int, b: int): (q: int)
    requires b > 0
    ensures (q - 1) * b < a <= q * b
  {
    var q := (a + b - 1) / b;
    assert q * b <= a + b - 1 < q * b + b;
    q
  }

  /** Ruby's Float#to_i applied to the exact quotient a / b: truncation toward zero. */
  function TruncDiv(a: int, b: int): (q: int)
    requires b > 0
    ensures a >= 0 ==> 0 <= q * b <= a < (q + 1) * b
    ensures a < 0 ==> (q - 1) * b < a <= q * b <= 0
  {
    if a >= 0 then
      DivBounds(a, b);
      a / b
    else
      DivBounds(-a, b);
      NegateProduct((-a) / b, b);
      -((-a) / b)
  }

  lemma DivBounds(x: nat, b: int)
    requires b > 0
    ensures 0 <= x / b && 0 <= x / b * b <= x < (x / b + 1) * b
  {
  }

  lemma NegateProduct(m: int, b: int)
    ensures (-m) * b == -(m * b) && (-m - 1) * b == -((m + 1) * b)
  {
  }

  /**
   * The number of iterations of the Ruby loop
   * `while count < n * p; ...; count += 1; end` with count starting at 0
   * and p == num / den: the least q >= 0 with q * den >= n * num.
   */
  function LoopQuota(n: int, num: nat, den: nat): (q: nat)
    requires den > 0
    ensures q * den >= n * num
    ensures q > 0 ==> (q - 1) * den < n * num
  {
    if n * num <= 0 then 0 else CeilDiv(n * num, den)
  }

  /** The counter of such a loop stops exactly at LoopQuota: it runs while c < LoopQuota. */
  lemma {:induction false} LoopQuotaIsExit(n: int, num: nat, den: nat, c: nat)
    requires den > 0
    ensures c * den < n * num <==> c < LoopQuota(n, num, den)
  {
    var q := LoopQuota(n, num, den);
    if c < q {
      MulMonotone(c, q - 1, den);
    } else {
      MulMonotone(q, c, den);
    }
  }

  lemma MulMonotone(a: int, b: int, k: nat)
    requires a <= b
    ensures a * k <= b * k
  {
  }
}
