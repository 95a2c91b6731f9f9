/** Rounding to six decimal places, half away from zero, as the reported losses and metrics are. */
module Rounding {

  function Nearest(x: real): int {
    if x >= 0.0 then (x + 0.5).Floor else -((0.5 - x).Floor)
  }

  function Round6(x: real): real { Nearest(x * 1000000.0) as real / 1000000.0 }

  lemma NearestGrows(x: real, y: real)
    requires x <= y
    ensures Nearest(x) <= Nearest(y)
  {
  }

  /** Nearest picks the whole number less than half away; exactly half way it moves away from zero. */
  lemma NearestIff(x: real, n: int)
    ensures Nearest(x) == n <==>
            if n > 0 then n as real - 0.5 <= x < n as real + 0.5
            else if n < 0 then n as real - 0.5 < x <= n as real + 0.5
            else -0.5 < x < 0.5
  {
  }

  /** The rounded number has six decimals, and is off by at most half of the last one. */
  lemma Round6Close(x: real)
    ensures Round6(x) * 1000000.0 == Nearest(x * 1000000.0) as real
    ensures -0.0000005 <= Round6(x) - x <= 0.0000005
  {
    NearestIff(x * 1000000.0, Nearest(x * 1000000.0));
  }

  /** Rounding keeps the order, and leaves whole numbers as they are. */
  lemma Round6Grows(x: real, y: real)
    requires x <= y
    ensures Round6(x) <= Round6(y)
  {
    NearestGrows(x * 1000000.0, y * 1000000.0);
  }

  lemma Round6Whole(n: int)
    ensures Round6(n as real) == n as real
  {
    assert Nearest((1000000 * n) as real) == 1000000 * n;
  }
}
