/**
 * The `NewtonRaphson` class: its state and the iteration controller `solve`.
 *
 * The controller runs at most `max_iterations` Newton steps, stops at the
 * first step whose distance is below the tolerance, and counts a step only
 * after that check — so a converged run reports one iteration fewer than
 * the steps it took, while an exhausted run reports exactly the budget.
 */
module Solver {
  import opened Wrappers
  import opened Vectors
  import opened Numerics

  /** A float as stored in the history: a finite value or `float('inf')`. */
  datatype Float = Finite(value: real) | Infinity

  /**
   * One history dictionary: `'iteration'`, `'x'`, `'f'`, `'distance'` and,
   * for entries written by a step, `'delta_x'`.
   */
  datatype HistoryEntry = HistoryEntry(
    iteration: int,
    x: Vector,
    f: Vector,
    distance: Float,
    deltaX: Option<Vector>)

  /**
   * A solver object's settings and the state left by its last solve. The
   * object's `system` and `jacobian` callables travel beside it, as the
   * `Kernel` argument of `Solve`.
   */
  datatype NewtonRaphson = NewtonRaphson(
    tolerance: real,
    maxIterations: int,
    iterations: int,
    converged: bool,
    history: seq<HistoryEntry>)

  /** A freshly constructed solver has counted nothing, not converged and recorded nothing. */
  function Create(tolerance: real := 0.000001, maxIterations: int := 100): (s: NewtonRaphson)
    ensures s.tolerance == tolerance && s.maxIterations == maxIterations
    ensures s.iterations == 0 && !s.converged && s.history == []
  {
    NewtonRaphson(tolerance, maxIterations, 0, false, [])
  }

  /** Python's `range(stop)`: the integers `0, 1, …, stop - 1` in order, none when `stop <= 0`. */
  function Range(stop: int): (r: seq<int>)
    ensures forall j :: 0 <= j < |r| ==> r[j] == j
    ensures forall i :: i in r <==> 0 <= i < stop
    decreases if stop < 0 then 0 else stop, 0
  {
    if stop <= 0 then []
    else
      RangeLength(stop - 1);
      Range(stop - 1) + [stop - 1]
  }

  /** `range(stop)` has `max(0, stop)` elements. */
  lemma {:induction false} RangeLength(stop: int)
    ensures |Range(stop)| == if stop < 0 then 0 else stop
    decreases if stop < 0 then 0 else stop, 1
  {
    if stop > 0 {
      RangeLength(stop - 1);
    }
  }

  /** How many times `for i in range(maxIterations)` runs its body at most. */
  function Budget(maxIterations: int): (n: nat)
    ensures n == |Range(maxIterations)|
  {
    RangeLength(maxIterations);
    if maxIterations < 0 then 0 else maxIterations
  }

  /** The iterate after `i` update steps from `x0`. */
  function Iterate(k: Kernel, x0: Vector, i: nat): (x: Vector)
    requires Conformable(k, |x0|)
    ensures |x| == |x0|
    decreases i
  {
    if i == 0 then x0 else Step(k, Iterate(k, x0, i - 1)).next
  }

  /** The distance measured by step number `i` (counting from 0), the one that starts at `Iterate(k, x0, i)`. */
  function StepDistance(k: Kernel, x0: Vector, i: nat): (distance: real)
    requires Conformable(k, |x0|)
  {
    Step(k, Iterate(k, x0, i)).distance
  }

  /**
   * Searches steps `from`, `from + 1`, … below `budget` for the first whose
   * distance is below `tolerance`; returns `budget` when there is none.
   */
  function FirstConverging(k: Kernel, x0: Vector, tolerance: real, budget: nat, from: nat): (t: nat)
    requires Conformable(k, |x0|)
    requires from <= budget
    ensures from <= t <= budget
    ensures forall j :: from <= j < t ==> StepDistance(k, x0, j) >= tolerance
    ensures t < budget ==> StepDistance(k, x0, t) < tolerance
    decreases budget - from
  {
    if from == budget then budget
    else if StepDistance(k, x0, from) < tolerance then from
    else FirstConverging(k, x0, tolerance, budget, from + 1)
  }

  /** The entry `solve` records before the loop: the initial guess at distance infinity, with no step. */
  function InitialEntry(k: Kernel, x0: Vector): (e: HistoryEntry)
  {
    HistoryEntry(0, x0, k.residual(x0), Infinity, None)
  }

  /** The entry step number `j - 1` records after moving away from `before`. */
  function StepEntry(k: Kernel, j: nat, before: Vector): (e: HistoryEntry)
    requires |Delta(k, before)| == |before|
  {
    var s := Step(k, before);
    HistoryEntry(j, s.next, k.residual(s.next), Finite(s.distance), Some(s.delta))
  }

  /** The history after `i` steps from `x0`: the initial entry, then one entry appended per step. */
  function Log(k: Kernel, x0: Vector, i: nat): (h: seq<HistoryEntry>)
    requires Conformable(k, |x0|)
    ensures |h| == i + 1
    decreases i
  {
    if i == 0 then [InitialEntry(k, x0)]
    else Log(k, x0, i - 1) + [StepEntry(k, i, Iterate(k, x0, i - 1))]
  }

  /**
   * History entry `j` of a run from `x0`, described on its own: entry 0 is
   * the initial guess; entry `j > 0` is written by step `j - 1`.
   */
  function EntryAt(k: Kernel, x0: Vector, j: nat): (e: HistoryEntry)
    requires Conformable(k, |x0|)
  {
    if j == 0 then InitialEntry(k, x0) else StepEntry(k, j, Iterate(k, x0, j - 1))
  }

  /**
   * Every position `j` of the history after `i` steps holds entry `j`: it is
   * numbered `j`, snapshots iterate `j` with its residual, and appending
   * later entries never rewrites it.
   */
  lemma {:induction false} LogAt(k: Kernel, x0: Vector, i: nat)
    requires Conformable(k, |x0|)
    ensures forall j :: 0 <= j <= i ==> Log(k, x0, i)[j] == EntryAt(k, x0, j)
  {
    if i > 0 {
      LogAt(k, x0, i - 1);
    }
  }

  /** What a solve leaves behind: the returned iterate and the solver's new state. */
  datatype Outcome = Outcome(x: Vector, iterations: nat, converged: bool, history: seq<HistoryEntry>)

  /**
   * The run `solve` performs, stated without a loop: find the first step
   * below the tolerance within the budget; the counter is its position, the
   * iterate is the one after it (or after the whole budget when there is
   * none), and the history lists every iterate visited.
   */
  function Run(k: Kernel, tolerance: real, maxIterations: int, x0: Vector, storeHistory: bool): (o: Outcome)
    requires Conformable(k, |x0|)
    ensures o.iterations <= Budget(maxIterations)
    ensures o.converged <==> o.iterations < Budget(maxIterations)
    ensures |o.x| == |x0|
    ensures !storeHistory ==> o.history == []
  {
    var budget := Budget(maxIterations);
    var t := FirstConverging(k, x0, tolerance, budget, 0);
    var steps := if t < budget then t + 1 else t;
    Outcome(Iterate(k, x0, steps), t, t < budget, if storeHistory then Log(k, x0, steps) else [])
  }

  /** The iterates after 0, 1, …, `n` steps from `x0`. */
  ghost function Iterates(k: Kernel, x0: Vector, n: nat): (xs: seq<Vector>)
    requires Conformable(k, |x0|)
    ensures |xs| == n + 1
    ensures forall j :: 0 <= j <= n ==> xs[j] == Iterate(k, x0, j)
  {
    seq(n + 1, j requires 0 <= j <= n => Iterate(k, x0, j))
  }

  /**
   * `xs`, `hs` and `stop` describe a run of at most `budget` steps from
   * `x0`: each iterate is the step from the one before, each entry after the
   * first records the step that produced it, and `stop` is the first step
   * whose distance is below `tolerance`, or `budget` when there is none.
   */
  ghost predicate Trajectory(k: Kernel, x0: Vector, tolerance: real, budget: nat,
                             xs: seq<Vector>, hs: seq<HistoryEntry>, stop: nat)
    requires Conformable(k, |x0|)
  {
    && |xs| == budget + 1 && |hs| == budget + 1
    && xs[0] == x0 && hs[0] == InitialEntry(k, x0)
    && (forall j :: 0 <= j <= budget ==> |xs[j]| == |x0|)
    && (forall j :: 0 <= j < budget ==> Step(k, xs[j]).next == xs[j + 1])
    && (forall j :: 0 <= j < budget ==> hs[j + 1] == StepEntry(k, j + 1, xs[j]))
    && stop <= budget
    && (forall j :: 0 <= j < stop ==> Step(k, xs[j]).distance >= tolerance)
    && (stop < budget ==> Step(k, xs[stop]).distance < tolerance)
  }

  /** The iterates, the full history and the first converging step of a run form its trajectory. */
  lemma TrajectoryOfRun(k: Kernel, x0: Vector, tolerance: real, budget: nat)
    requires Conformable(k, |x0|)
    ensures Trajectory(k, x0, tolerance, budget, Iterates(k, x0, budget), Log(k, x0, budget),
                       FirstConverging(k, x0, tolerance, budget, 0))
  {
    var xs, hs := Iterates(k, x0, budget), Log(k, x0, budget);
    var stop := FirstConverging(k, x0, tolerance, budget, 0);
    forall j | 0 <= j < budget
      ensures Step(k, xs[j]).next == xs[j + 1]
    {
      assert xs[j] == Iterate(k, x0, j) && xs[j + 1] == Iterate(k, x0, j + 1);
    }
    LogAt(k, x0, budget);
    forall j | 0 <= j < budget
      ensures hs[j + 1] == StepEntry(k, j + 1, xs[j])
    {
      assert hs[j + 1] == EntryAt(k, x0, j + 1);
    }
    forall j | 0 <= j < stop
      ensures Step(k, xs[j]).distance >= tolerance
    {
      assert StepDistance(k, x0, j) >= tolerance;
    }
  }

  /** The history after `i` steps is the start of the history after any later step `n`. */
  lemma {:induction false} LogPrefix(k: Kernel, x0: Vector, i: nat, n: nat)
    requires Conformable(k, |x0|)
    requires i <= n
    ensures Log(k, x0, n)[..i + 1] == Log(k, x0, i)
    decreases n
  {
    if i < n {
      LogPrefix(k, x0, i, n - 1);
      assert Log(k, x0, n)[..n] == Log(k, x0, n - 1);
    }
  }

  /**
   * `NewtonRaphson.solve`: resets the solver's state, iterates from a copy of
   * `initialGuess`, and returns the final iterate with the solver's new state.
   * The loop below mirrors the Python one; its result is exactly `Run`, which
   * does not read the solver's previous `iterations`, `converged` or
   * `history`, so no earlier solve can influence this one.
   */
  method Solve(system: Kernel, solver: NewtonRaphson, initialGuess: Vector, storeHistory: bool := false)
    returns (x: Vector, solved: NewtonRaphson)
    requires Conformable(system, |initialGuess|)
    ensures var o := Run(system, solver.tolerance, solver.maxIterations, initialGuess, storeHistory);
            && x == o.x
            && solved == solver.(iterations := o.iterations, converged := o.converged, history := o.history)
  {
    ghost var budget := Budget(solver.maxIterations);
    ghost var xs := Iterates(system, initialGuess, budget);
    ghost var hs := Log(system, initialGuess, budget);
    ghost var stop := FirstConverging(system, initialGuess, solver.tolerance, budget, 0);
    TrajectoryOfRun(system, initialGuess, solver.tolerance, budget);
    var iterations, converged, history;
    x, iterations, converged, history :=
      IterateLoop(system, solver.tolerance, solver.maxIterations, initialGuess, storeHistory, xs, hs, stop);
    ghost var steps := if converged then iterations + 1 else iterations;
    LogPrefix(system, initialGuess, steps, budget);
    RunStopsAt(system, solver.tolerance, solver.maxIterations, initialGuess, storeHistory, iterations);
    solved := solver.(iterations := iterations, converged := converged, history := history);
  }

  /**
   * The loop of `NewtonRaphson.solve`, lines 65-106: record the initial
   * guess, then take up to `maxIterations` steps, recording each and stopping
   * after the first whose distance is below the tolerance.
   *
   * The ghost arguments describe the run in advance: `xs[j]` is the iterate
   * after `j` steps, `hs[j]` the entry step `j - 1` records, and `stop` the
   * first step below the tolerance (the budget when there is none). The
   * loop computes everything itself; the description only says what it finds.
   */
  method IterateLoop(k: Kernel, tolerance: real, maxIterations: int, initialGuess: Vector, storeHistory: bool,
                     ghost xs: seq<Vector>, ghost hs: seq<HistoryEntry>, ghost stop: nat)
    returns (x: Vector, iterations: nat, converged: bool, history: seq<HistoryEntry>)
    requires Conformable(k, |initialGuess|)
    requires Trajectory(k, initialGuess, tolerance, Budget(maxIterations), xs, hs, stop)
    ensures iterations == stop
    ensures converged == (stop < Budget(maxIterations))
    ensures var steps := if converged then iterations + 1 else iterations;
            && x == xs[steps]
            && history == if storeHistory then hs[..steps + 1] else []
  {
    ghost var budget := Budget(maxIterations);
    x := initialGuess;
    iterations := 0;
    converged := false;
    history := [];

    if storeHistory {
      history := history + [HistoryEntry(0, x, k.residual(x), Infinity, None)];
    }

    var i := 0;
    while i < maxIterations
      invariant 0 <= i <= budget
      invariant i <= stop
      invariant x == xs[i]
      invariant iterations == i
      invariant storeHistory ==> history == hs[..i + 1]
      invariant !storeHistory ==> history == []
      decreases maxIterations - i
    {
      var deltaX, next, distance := NewtonStep(k, x);
      x := next;

      if storeHistory {
        history := history + [HistoryEntry(i + 1, x, k.residual(x), Finite(distance), Some(deltaX))];
      }

      if distance < tolerance {
        converged := true;
        return;
      }

      iterations := iterations + 1;
      i := i + 1;
    }
  }

  /**
   * The body of the loop up to the update: F and J at `x`, the exact solve
   * with its pseudo-inverse fallback, the new iterate and its distance.
   */
  method NewtonStep(k: Kernel, x: Vector) returns (deltaX: Vector, next: Vector, distance: real)
    requires |Delta(k, x)| == |x|
    ensures |next| == |x|
    ensures Sub(next, x) == deltaX
    ensures distance == k.norm(deltaX)
    ensures StepResult(deltaX, next, distance) == Step(k, x)
  {
    var f := k.residual(x);
    var J := k.jacobian(x);
    match k.linSolve(J, Neg(f)) {
      case Some(d) => deltaX := d;
      case None => deltaX := Neg(k.pinvApply(J, f));
    }
    next := Add(x, deltaX);
    SubUndoesAdd(x, deltaX);
    distance := k.norm(deltaX);
  }

  /**
   * A position `t` within the budget, with every earlier step at or above
   * the tolerance and step `t` below it (or `t` the budget itself), is what
   * the search returns.
   */
  lemma FirstConvergingIs(k: Kernel, x0: Vector, tolerance: real, budget: nat, t: nat)
    requires Conformable(k, |x0|)
    requires t <= budget
    requires forall j :: 0 <= j < t ==> StepDistance(k, x0, j) >= tolerance
    requires t < budget ==> StepDistance(k, x0, t) < tolerance
    ensures FirstConverging(k, x0, tolerance, budget, 0) == t
  {
  }

  /** A run whose first converging position is `t` ends after `t` or `t + 1` steps, as `Run` spells out. */
  lemma RunStopsAt(k: Kernel, tolerance: real, maxIterations: int, x0: Vector, storeHistory: bool, t: nat)
    requires Conformable(k, |x0|)
    requires FirstConverging(k, x0, tolerance, Budget(maxIterations), 0) == t
    ensures var o := Run(k, tolerance, maxIterations, x0, storeHistory);
            var steps := if t < Budget(maxIterations) then t + 1 else t;
            && o.iterations == t
            && o.converged == (t < Budget(maxIterations))
            && o.x == Iterate(k, x0, steps)
            && o.history == if storeHistory then Log(k, x0, steps) else []
  {
    var o := Run(k, tolerance, maxIterations, x0, storeHistory);
    var steps := if t < Budget(maxIterations) then t + 1 else t;
    assert o.iterations == t && o.converged == (t < Budget(maxIterations));
    assert o.x == Iterate(k, x0, steps);
    assert o.history == if storeHistory then Log(k, x0, steps) else [];
  }

  /** Every iterate a solve records or returns has the initial guess's length. */
  lemma SnapshotsKeepLength(k: Kernel, tolerance: real, maxIterations: int, x0: Vector, storeHistory: bool)
    requires Conformable(k, |x0|)
    ensures var o := Run(k, tolerance, maxIterations, x0, storeHistory);
            |o.x| == |x0| && forall e :: e in o.history ==> |e.x| == |x0|
  {
    var t := FirstConverging(k, x0, tolerance, Budget(maxIterations), 0);
    var steps := if t < Budget(maxIterations) then t + 1 else t;
    LogAt(k, x0, steps);
  }

  /** Every solve stays within its budget: at most `max(0, max_iterations)` steps, and a converged run counts fewer. */
  lemma RunWithinBudget(k: Kernel, tolerance: real, maxIterations: int, x0: Vector, storeHistory: bool)
    requires Conformable(k, |x0|)
    ensures var o := Run(k, tolerance, maxIterations, x0, storeHistory);
            && o.iterations <= Budget(maxIterations)
            && (o.converged ==> o.iterations + 1 <= Budget(maxIterations))
            && |o.x| == |x0|
  {
  }

  /** A solve converges exactly when some step within the budget gets below the tolerance. */
  lemma ConvergedIffSomeStepBelowTolerance(k: Kernel, tolerance: real, maxIterations: int, x0: Vector, storeHistory: bool)
    requires Conformable(k, |x0|)
    ensures Run(k, tolerance, maxIterations, x0, storeHistory).converged <==>
              exists j :: 0 <= j < Budget(maxIterations) && StepDistance(k, x0, j) < tolerance
  {
    var o := Run(k, tolerance, maxIterations, x0, storeHistory);
    if !o.converged {
      forall j | 0 <= j < Budget(maxIterations) ensures StepDistance(k, x0, j) >= tolerance { }
    }
  }

  /**
   * A converged solve stopped at step number `iterations` (counting from 0),
   * the first below the tolerance, so it took `iterations + 1` steps but
   * counted one fewer.
   */
  lemma ConvergedCountsOneStepFewer(k: Kernel, tolerance: real, maxIterations: int, x0: Vector, storeHistory: bool)
    requires Conformable(k, |x0|)
    ensures var o := Run(k, tolerance, maxIterations, x0, storeHistory);
            o.converged ==>
              && StepDistance(k, x0, o.iterations) < tolerance
              && (forall j :: 0 <= j < o.iterations ==> StepDistance(k, x0, j) >= tolerance)
              && o.x == Iterate(k, x0, o.iterations + 1)
  {
    var t := FirstConverging(k, x0, tolerance, Budget(maxIterations), 0);
    RunStopsAt(k, tolerance, maxIterations, x0, storeHistory, t);
  }

  /**
   * A solve that never gets below the tolerance reports the whole budget as
   * its count, is not converged, and returns the iterate after the whole budget.
   */
  lemma ExhaustedCountsWholeBudget(k: Kernel, tolerance: real, maxIterations: int, x0: Vector, storeHistory: bool)
    requires Conformable(k, |x0|)
    requires forall j :: 0 <= j < Budget(maxIterations) ==> StepDistance(k, x0, j) >= tolerance
    ensures var o := Run(k, tolerance, maxIterations, x0, storeHistory);
            && !o.converged
            && o.iterations == Budget(maxIterations)
            && o.x == Iterate(k, x0, Budget(maxIterations))
  {
    FirstConvergingIs(k, x0, tolerance, Budget(maxIterations), Budget(maxIterations));
  }

  /**
   * The recorded history: empty without the flag; otherwise `iterations + 2`
   * entries for a converged solve and `iterations + 1` for an exhausted one,
   * so one entry per iterate visited. Entry 0 is the initial guess at
   * distance infinity with no step; entry `j` carries index `j` and the
   * residual at its own `x`; the last entry holds the returned iterate.
   */
  lemma HistoryLayout(k: Kernel, tolerance: real, maxIterations: int, x0: Vector, storeHistory: bool)
    requires Conformable(k, |x0|)
    ensures var o := Run(k, tolerance, maxIterations, x0, storeHistory);
            var h := o.history;
            && (!storeHistory ==> h == [])
            && (storeHistory ==>
                  && |h| == o.iterations + (if o.converged then 2 else 1)
                  && h[0] == HistoryEntry(0, x0, k.residual(x0), Infinity, None)
                  && h[|h| - 1].x == o.x
                  && (forall j :: 0 <= j < |h| ==> h[j].iteration == j && h[j].f == k.residual(h[j].x)))
  {
    var o := Run(k, tolerance, maxIterations, x0, storeHistory);
    var t := FirstConverging(k, x0, tolerance, Budget(maxIterations), 0);
    var steps := if t < Budget(maxIterations) then t + 1 else t;
    assert o.x == Iterate(k, x0, steps);
    if storeHistory {
      assert o.history == Log(k, x0, steps);
      LogAt(k, x0, steps);
    }
  }

  /**
   * Consecutive history entries differ by exactly the `delta_x` the later
   * one records, and its recorded distance is the norm of that difference.
   */
  lemma HistoryRecordsSteps(k: Kernel, tolerance: real, maxIterations: int, x0: Vector, storeHistory: bool)
    requires Conformable(k, |x0|)
    ensures var h := Run(k, tolerance, maxIterations, x0, storeHistory).history;
            forall j :: 1 <= j < |h| ==>
              && |h[j].x| == |h[j - 1].x|
              && h[j].deltaX == Some(Sub(h[j].x, h[j - 1].x))
              && h[j].distance == Finite(k.norm(Sub(h[j].x, h[j - 1].x)))
  {
    var h := Run(k, tolerance, maxIterations, x0, storeHistory).history;
    var t := FirstConverging(k, x0, tolerance, Budget(maxIterations), 0);
    var steps := if t < Budget(maxIterations) then t + 1 else t;
    LogAt(k, x0, steps);
    forall j | 1 <= j < |h|
      ensures |h[j].x| == |h[j - 1].x|
      ensures h[j].deltaX == Some(Sub(h[j].x, h[j - 1].x))
      ensures h[j].distance == Finite(k.norm(Sub(h[j].x, h[j - 1].x)))
    {
      assert h[j] == EntryAt(k, x0, j) && h[j - 1] == EntryAt(k, x0, j - 1);
      ConsecutiveEntries(k, x0, j);
    }
  }

  /** Entry `j` differs from entry `j - 1` by its recorded step, and records that step's norm. */
  lemma ConsecutiveEntries(k: Kernel, x0: Vector, j: nat)
    requires Conformable(k, |x0|)
    requires j >= 1
    ensures var e, before := EntryAt(k, x0, j), EntryAt(k, x0, j - 1);
            && |e.x| == |before.x|
            && e.deltaX == Some(Sub(e.x, before.x))
            && e.distance == Finite(k.norm(Sub(e.x, before.x)))
  {
    StepIsIncrement(k, Iterate(k, x0, j - 1));
  }
}
