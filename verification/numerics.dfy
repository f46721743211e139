/**
 * The floating-point kernel of one Newton-Raphson step, kept abstract.
 *
 * The residual F, the Jacobian J, numpy's exact square solve, the
 * pseudo-inverse product and the Euclidean norm are library-bound
 * floating-point computations; the model receives them as functions and
 * states only what the controller does with their results.
 */
module Numerics {
  import opened Wrappers
  import opened Vectors

  /**
   * The numeric capabilities one solve relies on.
   * - `residual`: the system F (a hand-written function or a lambdified expression list)
   * - `jacobian`: the matrix J(x)
   * - `linSolve(J, b)`: `np.linalg.solve(J, b)`; `None` when it raises `LinAlgError`
   *   (a singular or non-square J)
   * - `pinvApply(J, v)`: `np.linalg.pinv(J) @ v`, treated as total
   * - `norm`: `np.linalg.norm`, the Euclidean length
   * - `matVec(J, v)`: the product `J @ v`, which says what solving `J · d = b` means
   */
  datatype Kernel = Kernel(
    residual: Vector -> Vector,
    jacobian: Vector -> Matrix,
    linSolve: (Matrix, Vector) -> Option<Vector>,
    pinvApply: (Matrix, Vector) -> Vector,
    norm: Vector -> real,
    matVec: (Matrix, Vector) -> Vector)

  /** Every answer the exact solve gives is a solution: `linSolve(J, b) = d` means `J · d = b`. */
  ghost predicate SolvesExactly(k: Kernel)
  {
    forall J: Matrix, b: Vector :: k.linSolve(J, b).Some? ==> k.matVec(J, k.linSolve(J, b).value) == b
  }

  /**
   * The Newton step at `x`: the solution of J(x)·Δ = −F(x), or, when the
   * exact solve raises, −pinv(J(x))·F(x). Either way a step is produced.
   */
  function Delta(k: Kernel, x: Vector): (d: Vector)
    ensures var J, f := k.jacobian(x), k.residual(x);
            && (SolvesExactly(k) && k.linSolve(J, Neg(f)).Some? ==> k.matVec(J, d) == Neg(f))
            && (k.linSolve(J, Neg(f)).None? ==> d == Neg(k.pinvApply(J, f)))
  {
    var f := k.residual(x);
    var J := k.jacobian(x);
    match k.linSolve(J, Neg(f))
    case Some(solution) => solution
    case None => Neg(k.pinvApply(J, f))
  }

  /**
   * The kernel produces steps of the iterate's own length n, so that
   * `x + delta_x` is an elementwise sum (numpy raises on mismatched shapes).
   */
  ghost predicate Conformable(k: Kernel, n: nat)
  {
    forall x: Vector :: |x| == n ==> |Delta(k, x)| == n
  }

  /** What one pass of the loop body computes: the step, the new iterate and its distance. */
  datatype StepResult = StepResult(delta: Vector, next: Vector, distance: real)

  /** One update `x ← x + delta_x` with `distance = norm(delta_x)`. */
  function Step(k: Kernel, x: Vector): (r: StepResult)
    requires |Delta(k, x)| == |x|
    ensures |r.next| == |x|
  {
    var delta := Delta(k, x);
    StepResult(delta, Add(x, delta), k.norm(delta))
  }

  /**
   * The increment from `x` to the new iterate is exactly the Newton step,
   * and the distance a step reports is the norm of that same increment.
   */
  lemma StepIsIncrement(k: Kernel, x: Vector)
    requires |Delta(k, x)| == |x|
    ensures Step(k, x).delta == Delta(k, x)
    ensures Sub(Step(k, x).next, x) == Step(k, x).delta
    ensures Step(k, x).distance == k.norm(Sub(Step(k, x).next, x))
  {
    SubUndoesAdd(x, Delta(k, x));
  }
}
