/** Small helpers shared by the gesture modules: an optional value (the source's
    `null`) and the minimum and maximum of two reals (`Math.min`, `Math.max`). */
module Basics {

  datatype Option<+T> = None | Some(value: T)

  function Min(a: real, b: real): (r: real)
    ensures r <= a && r <= b
    ensures r == a || r == b
  {
    if a <= b then a else b
  }

  function Max(a: real, b: real): (r: real)
    ensures r >= a && r >= b
    ensures r == a || r == b
  {
    if a >= b then a else b
  }
}
