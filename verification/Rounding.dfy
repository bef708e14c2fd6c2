/** Rounding as the C library and libavutil do it, on exact numbers. */
module Rounding {

  /** llrint under the default rounding mode: to the nearest integer, halves to the even one. */
  function Llrint(x: real): (n: int)
    ensures x - 0.5 <= n as real <= x + 0.5
  {
    var f := x.Floor;
    var d := x - f as real;
    if d < 0.5 || (d == 0.5 && f % 2 == 0) then f else f + 1
  }

  lemma LlrintMonotone(x: real, y: real)
    requires x <= y
    ensures Llrint(x) <= Llrint(y)
  {
    // when the floors agree only the two halves matter, and a half rounds down only to an even number
    assert x.Floor <= y.Floor;
  }

  lemma LlrintOfInt(n: int)
    ensures Llrint(n as real) == n
  {
    assert (n as real).Floor == n;
  }

  lemma LlrintAtLeast(x: real, n: int)
    requires x >= n as real
    ensures Llrint(x) >= n
  {
    LlrintOfInt(n);
    LlrintMonotone(n as real, x);
  }
}
