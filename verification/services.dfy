/**
 * The module-level entry points around the solver: `solve_diode_circuit`,
 * which hands the solver's final state back unchanged, and
 * `parse_and_solve_system`, which turns the solver's history into the
 * dictionaries a caller serialises.
 *
 * Both build their F and J elsewhere (the exponential diode equations, or
 * SymPy's parse-differentiate-lambdify pipeline); here that system arrives
 * as a `Kernel`.
 */
module Services {
  import opened Wrappers
  import opened Vectors
  import opened Numerics
  import opened Solver

  /** A value in an output dictionary: an `int` or a `float`. */
  datatype Value = IntValue(i: int) | FloatValue(f: Float)

  /** One output dictionary, keyed by string. */
  type Record = map<string, Value>

  /** The report `parse_and_solve_system` returns. */
  datatype Report = Report(
    solucion: map<string, real>,
    iteraciones: int,
    convergencia: bool,
    historia: seq<Record>)

  /** Why `parse_and_solve_system` produced no report. */
  datatype SolveError =
    /** The lambdified system takes one argument per variable; any other count of initial values raises. */
    ArityMismatch(variables: nat, values: nat)

  /** The set of keys listed in `keys`. */
  function KeySet(keys: seq<string>): (keySet: set<string>)
  {
    set j | 0 <= j < |keys| :: keys[j]
  }

  /** Position `j` is the last place its key occurs in `keys`, so no later write overrides it. */
  predicate LastOccurrence(keys: seq<string>, j: nat)
    requires j < |keys|
  {
    forall j' :: j < j' < |keys| ==> keys[j'] != keys[j]
  }

  /**
   * Writes `keys[j] := vals[j]` into `m` for j = 0, 1, …, in order, as a
   * Python loop over `enumerate(keys)` does: a repeated key keeps its last value.
   */
  function PutAll<V>(m: map<string, V>, keys: seq<string>, vals: seq<V>): (r: map<string, V>)
    requires |keys| <= |vals|
    ensures r.Keys == m.Keys + KeySet(keys)
    ensures forall j :: 0 <= j < |keys| && LastOccurrence(keys, j) ==> r[keys[j]] == vals[j]
    ensures forall key :: key in m && key !in KeySet(keys) ==> r[key] == m[key]
    decreases |keys|
  {
    if |keys| == 0 then m
    else
      var r := PutAll(m[keys[0] := vals[0]], keys[1..], vals[1..]);
      assert KeySet(keys) == {keys[0]} + KeySet(keys[1..]) by {
        forall key | key in KeySet(keys) ensures key in {keys[0]} + KeySet(keys[1..]) {
          var j :| 0 <= j < |keys| && keys[j] == key;
          if j > 0 { assert keys[1..][j - 1] == key; }
        }
      }
      assert forall j :: 1 <= j < |keys| && LastOccurrence(keys, j) ==> LastOccurrence(keys[1..], j - 1);
      assert forall j :: 0 <= j < |keys[1..]| ==> keys[1..][j] == keys[j + 1];
      r
  }

  /** The entries of `x` as output floats. */
  function Floats(x: Vector): (r: seq<Value>)
    ensures |r| == |x|
    ensures forall j :: 0 <= j < |x| ==> r[j] == FloatValue(Finite(x[j]))
  {
    seq(|x|, j requires 0 <= j < |x| => FloatValue(Finite(x[j])))
  }

  /**
   * Output dictionary `i` for history entry `e`: `"iteracion"`, then one key
   * per variable, then `"distancia"` for every entry but the first.
   * Later writes win, so a variable named `"iteracion"` hides the index and
   * one named `"distancia"` is hidden by the distance.
   */
  function FormatEntry(i: nat, e: HistoryEntry, variables: seq<string>): (r: Record)
    requires |variables| <= |e.x|
    ensures r.Keys == {"iteracion"} + KeySet(variables) + (if i > 0 then {"distancia"} else {})
    ensures "iteracion" !in KeySet(variables) ==> r["iteracion"] == IntValue(i)
    ensures i > 0 ==> r["distancia"] == FloatValue(e.distance)
    ensures forall j :: 0 <= j < |variables| && LastOccurrence(variables, j)
                        && !(i > 0 && variables[j] == "distancia") ==>
              r[variables[j]] == FloatValue(Finite(e.x[j]))
  {
    var withVariables := PutAll(map["iteracion" := IntValue(i)], variables, Floats(e.x));
    if i > 0 then withVariables["distancia" := FloatValue(e.distance)] else withVariables
  }

  /** The `iterations_data` list: one dictionary per history entry, numbered by position. */
  function FormatHistory(history: seq<HistoryEntry>, variables: seq<string>): (r: seq<Record>)
    requires forall e :: e in history ==> |variables| <= |e.x|
    ensures |r| == |history|
    ensures forall i :: 0 <= i < |r| ==> r[i] == FormatEntry(i, history[i], variables)
  {
    seq(|history|, i requires 0 <= i < |history| => FormatEntry(i, history[i], variables))
  }

  /** `{var: float(val) for var, val in zip(variables, x)}`: zip stops at the shorter list. */
  function SolutionDict(variables: seq<string>, x: Vector): (r: map<string, real>)
    ensures var n := if |variables| <= |x| then |variables| else |x|;
            && r.Keys == KeySet(variables[..n])
            && forall j :: 0 <= j < n && LastOccurrence(variables[..n], j) ==> r[variables[j]] == x[j]
  {
    var n := if |variables| <= |x| then |variables| else |x|;
    PutAll(map[], variables[..n], x[..n])
  }

  /**
   * The dictionary `parse_and_solve_system` returns for a finished solve:
   * the solution by name, the solver's counter and flag as they are, and one
   * formatted dictionary per history entry, numbered by position.
   */
  function BuildReport(variables: seq<string>, o: Outcome): (r: Report)
    requires forall e :: e in o.history ==> |variables| <= |e.x|
    ensures r.iteraciones == o.iterations && r.convergencia == o.converged
    ensures r.solucion == SolutionDict(variables, o.x)
    ensures |r.historia| == |o.history|
    ensures forall i :: 0 <= i < |r.historia| ==> r.historia[i] == FormatEntry(i, o.history[i], variables)
  {
    Report(SolutionDict(variables, o.x), o.iterations, o.converged, FormatHistory(o.history, variables))
  }

  /**
   * What a report's `historia` shows of each history entry: its position as
   * `"iteracion"`, its distance as `"distancia"` on every entry but the
   * first, and each variable's coordinate of the entry's `x`.
   */
  lemma ReportHistoryEntries(variables: seq<string>, o: Outcome)
    requires forall e :: e in o.history ==> |variables| <= |e.x|
    ensures var h := BuildReport(variables, o).historia;
            forall i :: 0 <= i < |h| ==>
              && ("iteracion" !in KeySet(variables) ==> "iteracion" in h[i] && h[i]["iteracion"] == IntValue(i))
              && ("distancia" in h[i] <==> i > 0 || "distancia" in KeySet(variables))
              && (i > 0 ==> h[i]["distancia"] == FloatValue(o.history[i].distance))
    ensures var h := BuildReport(variables, o).historia;
            forall i, j :: 0 <= i < |h| && 0 <= j < |variables| && LastOccurrence(variables, j)
                           && !(i > 0 && variables[j] == "distancia") ==>
              variables[j] in h[i] && h[i][variables[j]] == FloatValue(Finite(o.history[i].x[j]))
  {
  }

  /**
   * `solve_diode_circuit`: runs a fresh solver on the circuit's system and
   * returns its final iterate, counter and flag exactly as the solver left
   * them. The history flag reaches the solver; the history itself is dropped.
   */
  method SolveDiodeCircuit(circuit: Kernel, initialValues: Vector, tolerance: real := 0.000001,
                           maxIterations: int := 100, storeHistory: bool := false)
    returns (result: Vector, iterations: int, converged: bool)
    requires Conformable(circuit, |initialValues|)
    ensures var o := Run(circuit, tolerance, maxIterations, initialValues, storeHistory);
            result == o.x && iterations == o.iterations && converged == o.converged
  {
    var solver := Create(tolerance, maxIterations);
    var solved;
    result, solved := Solve(circuit, solver, initialValues, storeHistory);
    iterations, converged := solved.iterations, solved.converged;
  }

  /**
   * `parse_and_solve_system` once its system is built: solves with history
   * on and reports the result. The lambdified system accepts exactly one
   * value per variable, so any other number of initial values fails before
   * the first step.
   */
  method ParseAndSolveSystem(system: Kernel, variables: seq<string>, initialValues: Vector,
                             tolerance: real := 0.000001, maxIterations: int := 100)
    returns (r: Result<Report, SolveError>)
    requires Conformable(system, |initialValues|)
    ensures r.Failure? <==> |variables| != |initialValues|
    ensures r.Failure? ==> r.error == ArityMismatch(|variables|, |initialValues|)
    ensures r.Success? ==>
              var o := Run(system, tolerance, maxIterations, initialValues, true);
              && (forall e :: e in o.history ==> |variables| <= |e.x|)
              && r.value == BuildReport(variables, o)
  {
    if |variables| != |initialValues| {
      return Failure(ArityMismatch(|variables|, |initialValues|));
    }
    var solver := Create(tolerance, maxIterations);
    var result, solved := Solve(system, solver, initialValues, true);
    SnapshotsKeepLength(system, tolerance, maxIterations, initialValues, true);
    var finished := Outcome(result, solved.iterations, solved.converged, solved.history);
    return Success(BuildReport(variables, finished));
  }
}
