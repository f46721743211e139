/** Dense real vectors and matrices, as numpy arrays appear to the solver. */
module Vectors {

  type Vector = seq<real>
  type Matrix = seq<seq<real>>

  /** Elementwise sum, numpy's `a + b` on arrays of equal shape. */
  function Add(a: Vector, b: Vector): Vector
    requires |a| == |b|
  {
    seq(|a|, i requires 0 <= i < |a| => a[i] + b[i])
  }

  /** Elementwise difference, numpy's `a - b`. */
  function Sub(a: Vector, b: Vector): Vector
    requires |a| == |b|
  {
    seq(|a|, i requires 0 <= i < |a| => a[i] - b[i])
  }

  /** Elementwise negation, numpy's unary `-a`. */
  function Neg(a: Vector): Vector
  {
    seq(|a|, i requires 0 <= i < |a| => -a[i])
  }

  /** Subtracting the starting point from `a + b` gives back the increment `b`. */
  lemma SubUndoesAdd(a: Vector, b: Vector)
    requires |a| == |b|
    ensures Sub(Add(a, b), a) == b
  {
    assert forall i :: 0 <= i < |b| ==> Sub(Add(a, b), a)[i] == b[i];
  }
}
