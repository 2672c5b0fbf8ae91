/**
 * The finite range of an IEEE-754 single-precision float, as exact reals.
 * Rounding is not modelled; every f32 value the model handles lies in
 * [MIN, MAX].
 */
module Float32 {

  /** f32::MAX = (2 - 2^-23) * 2^127. */
  const MAX: real := 340282346638528859811704183484516925440.0

  /** f32::MIN is the negation of f32::MAX. */
  const MIN: real := -MAX
}
