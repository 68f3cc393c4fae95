/** Value types shared by the model. */
module Common {

  datatype Option<+T> = None | Some(value: T)

  function Max(a: real, b: real): (m: real)
    ensures m >= a && m >= b && (m == a || m == b)
  {
    if a >= b then a else b
  }

  /** Conversion to an integer drops the fraction, towards zero. */
  function Truncate(r: real): (n: int)
    ensures -1.0 < n as real - r < 1.0
    ensures r >= 0.0 ==> n == r.Floor
  {
    if r >= 0.0 then r.Floor else -((-r).Floor)
  }

  type NonNegative = r: real | r >= 0.0

  /** `hypot(x - ax, y - ay) <= radius`, stated on squares. */
  predicate Within(x: real, y: real, ax: real, ay: real, radius: real)
  {
    (x - ax) * (x - ax) + (y - ay) * (y - ay) <= radius * radius
  }
}
