/**
 * A step of real arithmetic shared by the rate limiter and the quest
 * progress proofs.
 */
module RealArith {
  /** Multiplying by a positive factor keeps a non-strict order. */
  lemma MulWeak(a: real, b: real, k: real)
    requires k > 0.0 && a <= b
    ensures a * k <= b * k
  {
  }
}
