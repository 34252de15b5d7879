/** The transcendental functions the layer relies on. The exponential and the
    hyperbolic tangent come from the math library and are not modelled
    numerically: they are values passed in, constrained only where a property
    needs it. The sigmoid is defined from the exponential exactly as the static
    layer's `sigmoid` helper defines it. */
module Activations {

  datatype Transcendentals = Transcendentals(exp: real -> real, tanh: real -> real)
  {
    /** The exponential is positive everywhere, so `1 + exp(-x)` is never zero. */
    ghost predicate Valid()
    {
      forall y :: exp(y) > 0.0
    }

    /** The hyperbolic tangent stays within [-1, 1]. */
    ghost predicate TanhBounded()
    {
      forall y :: -1.0 <= tanh(y) <= 1.0
    }
  }

  /** Logistic sigmoid, 1 / (1 + e^-x): strictly between 0 and 1, and one half at 0. */
  function Sigmoid(tr: Transcendentals, x: real): (r: real)
    requires tr.Valid()
    ensures 0.0 < r < 1.0
    ensures x == 0.0 && tr.exp(0.0) == 1.0 ==> r == 0.5
  {
    var e := tr.exp(-x);
    assert e > 0.0;
    1.0 / (1.0 + e)
  }

  /** Sigmoid applied to every element (the vector and lane-wise forms). */
  function Sigmoids(tr: Transcendentals, a: seq<real>): seq<real>
    requires tr.Valid()
  {
    seq(|a|, i requires 0 <= i < |a| => Sigmoid(tr, a[i]))
  }

  /** The hyperbolic tangent of the math library. */
  function Tanh(tr: Transcendentals, x: real): real
  {
    tr.tanh(x)
  }

  /** Hyperbolic tangent applied to every element. */
  function Tanhs(tr: Transcendentals, a: seq<real>): seq<real>
  {
    seq(|a|, i requires 0 <= i < |a| => Tanh(tr, a[i]))
  }
}
