/** Integer models of the two JavaScript number operations the source relies
    on: `Math.round` on a non-negative quotient and `Math.ceil` on a quotient. */
module JsMath {

  /** `Math.round(n / d)` for `n >= 0` and `d > 0`, computed exactly: the
      integer nearest to `n / d`, halves rounded up. */
  function RoundDiv(n: nat, d: nat): (r: nat)
    requires d > 0
    ensures 2 * d * r <= 2 * n + d < 2 * d * r + 2 * d
  {
    (2 * n + d) / (2 * d)
  }

  /** `Math.ceil(n / d)` for `n >= 0` and `d > 0`: the least `t` with `t * d >= n`. */
  function CeilDiv(n: nat, d: nat): (t: nat)
    requires d > 0
    ensures t * d >= n
    ensures t == 0 || (t - 1) * d < n
  {
    (n + d - 1) / d
  }

  /** Rounding never turns a smaller quotient into a larger result. */
  lemma RoundDivMonotone(n1: nat, n2: nat, d: nat)
    requires d > 0 && n1 <= n2
    ensures RoundDiv(n1, d) <= RoundDiv(n2, d)
  {
    var r1, r2 := RoundDiv(n1, d), RoundDiv(n2, d);
    assert 2 * d * (r2 + 1) == 2 * d * r2 + 2 * d;
    CancelLess(2 * d, r1, r2 + 1);
  }

  /** A quotient of at most `k` rounds to at most `k`. */
  lemma RoundDivAtMost(n: nat, d: nat, k: nat)
    requires d > 0 && n <= k * d
    ensures RoundDiv(n, d) <= k
  {
    var r := RoundDiv(n, d);
    assert 2 * d * (k + 1) == 2 * (k * d) + 2 * d;
    CancelLess(2 * d, r, k + 1);
  }

  /** An exact quotient rounds to itself. */
  lemma RoundDivExact(k: nat, d: nat)
    requires d > 0
    ensures RoundDiv(k * d, d) == k
  {
    var r := RoundDiv(k * d, d);
    assert 2 * d * (k + 1) == 2 * (k * d) + 2 * d;
    assert 2 * d * (r + 1) == 2 * d * r + 2 * d;
    CancelLess(2 * d, r, k + 1);
    CancelLess(2 * d, k, r + 1);
  }

  lemma CancelLess(c: nat, a: nat, b: nat)
    ensures c * a < c * b ==> a < b
  {
    if a >= b {
      assert c * a == c * b + c * (a - b);
    }
  }
}
