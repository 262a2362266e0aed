/** Sums and products of reals, each law on its own so that no larger proof multiplies variables. */
module Reals {

  function Sum(xs: seq<real>): real {
    if xs == [] then 0.0 else Sum(xs[..|xs| - 1]) + xs[|xs| - 1]
  }

  lemma Distribute(a: real, b: real, k: real)
    ensures (a + b) * k == a * k + b * k
  {
  }

  lemma Scale(a: real, b: real, k: real)
    requires a <= b && 0.0 <= k
    ensures a * k <= b * k
  {
  }

  lemma Around(x: real, j: real)
    ensures x * (1.0 - j) == x - x * j && x * (1.0 + j) == x + x * j && x * (j - 1.0) == j * x - x
  {
  }

  lemma Regroup(x: real, y: real, z: real)
    ensures (x * y) * z == y * (x * z)
  {
  }

  lemma PositiveProduct(x: real, y: real)
    requires 0.0 < x && 0.0 < y
    ensures 0.0 < x * y
  {
  }

  lemma CompareScaled(x: real, y: real, k: real)
    requires 0.0 < k
    ensures k * x <= k * y <==> x <= y
  {
    if y < x {
      PositiveProduct(k, x - y);
    }
  }

  lemma QuotientTimes(a: real, n: real)
    requires n != 0.0
    ensures a / n * n == a
  {
  }

  lemma Cancel(a: real, b: real, n: real)
    requires 0.0 < n
    ensures a * n == b * n ==> a == b
    ensures a * n <= b * n ==> a <= b
  {
    CompareScaled(a, b, n);
    CompareScaled(b, a, n);
  }
}
