/** Facts about real arithmetic shared by the profit formulas of the engine and of the terminal. */
module Reals {

  /** Scaling by a positive factor keeps the sign. */
  lemma SignOfProduct(x: real, y: real)
    requires y > 0.0
    ensures x * y > 0.0 <==> x > 0.0
  {
    if x > 0.0 {
      assert x * y > 0.0;
    } else {
      assert x * y <= 0.0;
    }
  }
}
