/** Reals: the larger and the smaller of two, and the sign of a product. */
module Reals {
  function Max(a: real, b: real): real {
    if a >= b then a else b
  }

  function Min(a: real, b: real): real {
    if a <= b then a else b
  }

  lemma Signs(a: real, b: real)
    ensures a > 0.0 && b > 0.0 ==> a * b > 0.0
    ensures a < 0.0 && b < 0.0 ==> a * b > 0.0
    ensures a < 0.0 && b > 0.0 ==> a * b < 0.0
    ensures a > 0.0 && b < 0.0 ==> a * b < 0.0
    ensures a == 0.0 || b == 0.0 ==> a * b == 0.0
  {}
}
