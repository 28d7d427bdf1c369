/** Small definitions shared by the game modules. */
module Common {

  datatype Option<T> = None | Some(value: T)

  /** The decimal that JavaScript prints for Math.PI. */
  const PI: real := 3.141592653589793

  /** Math.min and Math.max on numbers. */
  function MinR(a: real, b: real): real { if a <= b then a else b }
  function MaxR(a: real, b: real): real { if a >= b then a else b }
  function MaxI(a: int, b: int): int { if a >= b then a else b }

  function Pow(b: nat, k: nat): (r: nat)
    ensures b > 0 ==> r > 0
  {
    if k == 0 then 1 else b * Pow(b, k - 1)
  }

  /** 2^k <= 3^k, so 1.5^k >= 1 for k >= 0. */
  lemma {:induction false} PowTwoBelowThree(k: nat)
    ensures 0 < Pow(2, k) <= Pow(3, k)
  {
    if k > 0 {
      PowTwoBelowThree(k - 1);
    }
  }

  lemma PowStep(b: nat, k: nat)
    ensures Pow(b, k + 1) == b * Pow(b, k)
  {
  }

  /** Integer division rounds down: n / d is the floor of n over d. */
  lemma DivFloor(n: int, d: int)
    requires d > 0
    ensures (n / d) * d <= n < (n / d + 1) * d
  {
    var q, r := n / d, n % d;
    assert n == q * d + r && 0 <= r < d;
    assert (q + 1) * d == q * d + d;
  }

  lemma PositiveFactor(x: int, d: int)
    requires d > 0 && x * d > 0
    ensures x > 0
  {
  }

  /** n / d is the largest q with q * d <= n. */
  lemma DivLowerBound(n: int, d: int, q: int)
    requires d > 0 && q * d <= n
    ensures q <= n / d
  {
    var r := n / d;
    assert n == r * d + n % d && n % d < d;
    assert (r + 1 - q) * d == r * d + d - q * d;
    PositiveFactor(r + 1 - q, d);
  }
}
