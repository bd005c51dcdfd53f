/** Bin values as IEEE doubles are seen by this core: a finite number or NaN. */
module Floats {

  datatype Float = Finite(val: real) | NaN

  /** `x == 0` in numpy: false for NaN. */
  predicate IsZero(x: Float) { x == Finite(0.0) }

  /** `x > 0` in numpy: false for NaN. */
  predicate IsPositive(x: Float) { x.Finite? && x.val > 0.0 }

  /** `np.clip(x, 0)` with no upper bound: negatives become 0, NaN stays NaN. */
  function Clip(x: Float): (r: Float)
    ensures r.NaN? <==> x.NaN?
    ensures r.Finite? ==> r.val >= 0.0 && r.val <= (if x.val < 0.0 then 0.0 else x.val)
    ensures x.Finite? && x.val >= 0.0 ==> r == x
  {
    match x
    case NaN => NaN
    case Finite(v) => if v < 0.0 then Finite(0.0) else x
  }

  /** Multiplication by a finite scalar: NaN propagates. */
  function Scale(x: Float, c: real): Float
  {
    match x
    case NaN => NaN
    case Finite(v) => Finite(v * c)
  }

  lemma ScaleScale(x: Float, a: real, b: real)
    ensures Scale(Scale(x, a), b) == Scale(x, a * b)
  {
    if x.Finite? {
      var v := x.val;
      assert Scale(Scale(x, a), b) == Finite((v * a) * b);
      assert (v * a) * b == v * (a * b);
    }
  }
}
