/** Small facts about products and quotients of reals. */
module Reals {

  function Larger(x: real, y: real): real { if x >= y then x else y }

  function Smaller(x: real, y: real): real { if x <= y then x else y }

  lemma Scale(a: real, b: real, c: real)
    requires a <= b && 0.0 <= c
    ensures a * c <= b * c
  {
  }

  lemma ScaleStrictly(a: real, b: real, c: real)
    requires a < b && 0.0 < c
    ensures a * c < b * c
  {
  }

  lemma Divide(a: real, b: real, c: real)
    requires a <= b && 0.0 < c
    ensures a / c <= b / c
  {
  }

  lemma Undo(v: real, d: real)
    requires d != 0.0
    ensures v / d * d == v
  {
  }

  lemma Cancel(k: real, c: real)
    requires c != 0.0
    ensures (k * c) / c == k
  {
  }

  lemma Distribute(a: real, b: real, c: real)
    ensures (a + b) * c == a * c + b * c
  {
  }
}
