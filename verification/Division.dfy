/** Division with remainder by a positive number. */
module Division {
  lemma {:induction false} Gap(k: nat, a: int, b: int)
    requires a > b
    ensures k * a >= k * b + k
    decreases a - b
  {
    if a > b + 1 {
      Gap(k, a - 1, b);
      assert k * a == k * (a - 1) + k;
    }
  }

  lemma Multiple(k: int, d: int)
    requires k > 0 && -k < k * d < k
    ensures d == 0
  {
    if d > 0 { Gap(k, d, 0); }
    if d < 0 { Gap(k, 0, d); }
  }

  lemma Split(x: int, k: nat)
    requires k > 0
    ensures x == k * (x / k) + x % k && 0 <= x % k < k
  {
  }

  /** Quotient and remainder are unique. */
  lemma Quotient(x: int, q: int, r: nat, k: nat)
    requires r < k && x == k * q + r
    ensures x / k == q && x % k == r
  {
    Split(x, k);
    assert k * (x / k - q) == k * (x / k) - k * q;
    Multiple(k, x / k - q);
  }

  lemma Shift(x: int, q: int, k: nat)
    requires k > 0
    ensures (x + k * q) % k == x % k
  {
    Split(x, k);
    assert k * (x / k + q) == k * (x / k) + k * q;
    Quotient(x + k * q, x / k + q, x % k, k);
  }
}
