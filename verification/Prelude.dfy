/** Small shared vocabulary: optional values and powers of two. */
module Prelude {

  datatype Option<T> = None | Some(value: T)

  function Pow2(n: nat): (p: nat)
    ensures p > n
  {
    if n == 0 then 1 else 2 * Pow2(n - 1)
  }

  /** A positive factor times a non-zero integer is at least the factor in size. */
  lemma MulAtLeastFactor(k: nat, d: int)
    requires k > 0
    ensures d >= 1 ==> k * d >= k
    ensures d <= -1 ==> k * d + k <= 0
  {
    if d >= 1 {
      assert k * d == k * (d - 1) + k;
    } else if d <= -1 {
      assert k * d + k == -(k * (-d - 1));
    }
  }

  lemma MulMonotone(k: nat, a: nat, b: nat)
    requires a <= b
    ensures k * a <= k * b
  {
    assert k * b == k * a + k * (b - a);
  }

  lemma ModPlusDivisor(t: nat, k: nat)
    requires k > 0
    ensures (t + k) % k == t % k
  {
    var d := (t + k) / k - (t / k + 1);
    assert t % k - (t + k) % k == k * d;
    MulAtLeastFactor(k, d);
  }

  lemma MulPlusOne(k: nat, a: nat)
    ensures k * (a + 1) == k * a + k
  {
  }
}
