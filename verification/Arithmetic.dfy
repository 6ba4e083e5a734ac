/** Division with remainder, as the id arithmetic and the byte layouts use it. */
module Arithmetic {

  lemma DivMod(k: nat, b: nat, m: nat)
    requires m < k
    ensures (b * k + m) / k == b && (b * k + m) % k == m
  {
    var q, r := (b * k + m) / k, (b * k + m) % k;
    assert b * k + m == q * k + r;
    NextMultiple(b, q, k);
    NextMultiple(q, b, k);
  }

  lemma {:induction false} NextMultiple(a: nat, c: nat, k: nat)
    ensures a < c ==> a * k + k <= c * k
  {
    if a < c {
      assert c * k == (c - 1) * k + k;
      NextMultiple(a, c - 1, k);
    }
  }

  /** `n` rounded up to a multiple of `a`. */
  function RoundUp(n: nat, a: nat): (r: nat)
    requires a > 0
  {
    (n + a - 1) / a * a
  }

  /** `n` rounded down to a multiple of `a`. */
  function RoundDown(n: nat, a: nat): (r: nat)
    requires a > 0
  {
    n / a * a
  }

  lemma RoundsUp(n: nat, a: nat)
    requires a > 0
    ensures n <= RoundUp(n, a) < n + a && RoundUp(n, a) % a == 0
  {
    var q, r := (n + a - 1) / a, (n + a - 1) % a;
    assert n + a - 1 == q * a + r;
    DivMod(a, q, 0);
  }

  lemma RoundsDown(n: nat, a: nat)
    requires a > 0
    ensures RoundDown(n, a) <= n < RoundDown(n, a) + a && RoundDown(n, a) % a == 0
  {
    var q, r := n / a, n % a;
    assert n == q * a + r;
    DivMod(a, q, 0);
  }
}
