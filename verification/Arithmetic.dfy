/** Division with remainder. */
module Arithmetic {
  lemma AtLeast(k: nat, d: nat)
    requires k >= 1
    ensures k * d >= d
  {
    if k > 1 {
      AtLeast(k - 1, d);
      assert k * d == (k - 1) * d + d;
    }
  }

  lemma NoMultipleBetween(k: int, d: nat)
    requires 0 - d < k * d < d
    ensures k == 0
  {
    assert (-k) * d == 0 - k * d;
    if k >= 1 { AtLeast(k, d); }
    if k <= -1 { AtLeast(-k, d); }
  }

  lemma DivIs(a: nat, d: nat, q: nat, r: nat)
    requires d > 0 && a == q * d + r && r < d
    ensures a / d == q && a % d == r
  {
    var k := q - a / d;
    assert k * d == a % d - r by { assert a == (a / d) * d + a % d; }
    NoMultipleBetween(k, d);
  }
}
