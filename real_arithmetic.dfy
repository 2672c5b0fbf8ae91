/** Facts about exact real arithmetic shared by the shaper and the peak tracker. */
module RealArithmetic {

  /** The product of two non-negative reals is non-negative. */
  lemma NonNegativeProduct(u: real, v: real)
    requires 0.0 <= u && 0.0 <= v
    ensures 0.0 <= u * v
  {
  }
}
