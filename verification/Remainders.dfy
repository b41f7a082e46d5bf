/** Remainders of sums of a multiple and a rest. */
module Remainders {
  lemma ModUnique(x: int, m: int, k: int, r: int)
    requires 0 < m && x == m * k + r && 0 <= r < m
    ensures x % m == r
  {
    var d := k - x / m;
    assert m * d == x % m - r;
    assert d >= 1 ==> m * d >= m;
    assert d <= -1 ==> m * d <= -m;
  }

  lemma ModOf(q: nat, r: nat, period: int)
    requires 0 <= r < period
    ensures (q * period + r) % period == r
  {
    ModUnique(q * period + r, period, q, r);
  }

  lemma NextPhase(n: nat, period: int)
    requires 0 < period
    ensures (n + 1) % period == if n % period + 1 == period then 0 else n % period + 1
  {
    var q, p := n / period, n % period;
    assert n == q * period + p;
    if p + 1 == period {
      assert n + 1 == (q + 1) * period;
      ModOf(q + 1, 0, period);
    } else {
      ModOf(q, p + 1, period);
    }
  }
}
