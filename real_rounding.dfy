/** Rounding of reals to integers, shared by the heading classifier and the slider. */
module RealRounding {

  /** The least integer not below x. */
  function Ceiling(x: real): (n: int)
    ensures x <= n as real < x + 1.0
  {
    -((-x).Floor)
  }
}
