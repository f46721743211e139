# Newton–Raphson iteration controller (NuMaaS)

A Dafny model of the multivariate Newton–Raphson solver in
`services/newton_raphson.py`: the `NewtonRaphson` class's state and its
`solve` loop, the `solve_diode_circuit` wrapper that hands the solver's
final state back, and the formatting of results and iteration history in
`parse_and_solve_system`.

The floating-point work of a step — evaluating the system F and its
Jacobian J, `np.linalg.solve`, the `pinv` fallback and `np.linalg.norm` —
is bound to numpy and is not modelled. Instead, a `Kernel` value supplies
these as functions (`Numerics.Kernel`). Everything the controller decides
from their results is modelled exactly: the update `x ← x + delta_x`, the
distance test against the tolerance, the early exit, the iteration counter,
the convergence flag and the layout of the history. Arithmetic on iterates
uses Dafny's exact `real`.
The kernel also carries the product `J @ v` (`matVec`), used only to say
what solving `J · d = b` means; `Numerics.SolvesExactly` is the assumption
that every answer of the exact solve is such a solution. The Python
defaults (`tolerance=1e-6`, `max_iterations=100`, `store_history=False`)
are the Dafny parameters' default values.

Modules:
- `Wrappers`: `Option` and `Result`.
- `Vectors`: elementwise add, subtract and negate.
- `Numerics`: the abstract kernel and one Newton step.
- `Solver`: the class, the `solve` loop, and `Run`, a loop-free description of a solve that the loop is proved equal to. The properties of a solve are lemmas about `Run`.
- `Services`: `solve_diode_circuit` and `parse_and_solve_system`.

The controller's conventions, as the code has them:
- `for i in range(max_iterations)` runs `max(0, max_iterations)` times (`Solver.Budget`).
- The counter is incremented only after the convergence test. So a run whose step number `t` (counting from 0) is the first with `distance < tolerance` reports `iterations == t` after taking `t + 1` steps.
- A run that never gets below the tolerance reports `iterations == max(0, max_iterations)` and `converged == false`.
- With `store_history`, the history holds one entry per iterate visited. That is `iterations + 2` entries for a converged run and `iterations + 1` for an exhausted one.
- One might expect the converging step to be counted and the history to always have `iterations + 1` entries. The code does neither (services/newton_raphson.py:101-106), and the model follows the code.

The loop (`Solver.IterateLoop`) receives, as ghost arguments, the iterates, history entries and first converging step of the run it is about to perform (`Solver.Trajectory`). It computes everything itself and is proved to land on exactly those values; `Solver.Solve` supplies them from `Run` and so proves the loop equal to `Run`.

## Model

| member | source | states |
|---|---|---|
| Numerics.Delta | services/newton_raphson.py:75-83 | when the exact solve answers, the step `delta_x` solves `J(x) · delta_x = -F(x)` (given a solve routine whose answers are solutions); when it raises `LinAlgError`, the step is the negated pseudo-inverse product `-pinv(J) @ f`, so a singular Jacobian never stops the loop |
| Numerics.Step | services/newton_raphson.py:85-89 | one update `x = x + delta_x` keeps the iterate's length |
| Numerics.StepIsIncrement | services/newton_raphson.py:78-89 | in exact arithmetic, the new iterate minus the old one is exactly the Newton step `delta_x`, and the distance a step reports is the norm of that same increment |
| Solver.Create | services/newton_raphson.py:35-43 | a new solver keeps the given tolerance and cap, has counted zero iterations, is not converged and has an empty history |
| Solver.Range | services/newton_raphson.py:73 | `range(max_iterations)` lists `0, 1, …` in order, and holds exactly the integers from 0 up to but excluding the cap |
| Solver.RangeLength | services/newton_raphson.py:73 | `range(max_iterations)` has `max(0, max_iterations)` elements, so a cap at or below zero runs no step |
| Solver.Budget | services/newton_raphson.py:73 | the number of passes the loop may make is the length of `range(max_iterations)` |
| Solver.Iterate | services/newton_raphson.py:73-86 | every iterate reached from the initial guess has the guess's length |
| Solver.FirstConverging | services/newton_raphson.py:73-104 | the search result lies within the budget; every step before it has distance at or above the tolerance, and a result below the budget is a step whose distance is below it |
| Solver.FirstConvergingIs | services/newton_raphson.py:101-106 | conversely, a position within the budget preceded only by steps at or above the tolerance, and itself below it (or equal to the budget), is the search result, so the stopping position is unique |
| Solver.Log | services/newton_raphson.py:65-99 | the history after `i` steps has `i + 1` entries: the initial one and one per step |
| Solver.LogAt | services/newton_raphson.py:65-99 | position `j` of the history after any number of steps holds entry `j`: the initial guess at distance infinity with no step for `j = 0`, otherwise index `j` with the iterate, residual, distance and `delta_x` of step `j - 1` |
| Solver.LogPrefix | services/newton_raphson.py:92-99 | the history after `i` steps is the start of the history after any later step: the loop only appends, and never rewrites an entry |
| Solver.Run | services/newton_raphson.py:45-108 | the loop-free description of a solve: its counter is within the budget, it is converged exactly when the counter is below the budget, its iterate keeps the guess's length, and without `store_history` its history is empty |
| Solver.NewtonStep | services/newton_raphson.py:75-89 | one pass of the loop body yields the same step, new iterate and distance as `Numerics.Step`; the new iterate minus the old one is the step, and the distance is its norm |
| Solver.IterateLoop | services/newton_raphson.py:60-106 | for any description of the run from the initial guess, the loop reports the first converging step as its counter, is converged exactly when that step lies within the budget, returns the iterate after that step (or after the whole budget), and records exactly the history entries up to it, or nothing without `store_history` |
| Solver.Solve | services/newton_raphson.py:45-108 | the returned iterate and the solver's new counter, flag and history are those of `Run`; tolerance and cap are kept; nothing depends on the solver's previous counter, flag or history |
| Solver.RunWithinBudget | services/newton_raphson.py:73-106 | a solve counts at most `max(0, max_iterations)` iterations, a converged one at most one fewer, and returns an iterate of the guess's length |
| Solver.ConvergedIffSomeStepBelowTolerance | services/newton_raphson.py:101-104 | a solve converges exactly when some step within the budget has distance below the tolerance |
| Solver.ConvergedCountsOneStepFewer | services/newton_raphson.py:101-106 | a converged solve's counter is the first step below the tolerance: every earlier step is at or above it, and the returned iterate is the one after `iterations + 1` steps |
| Solver.ExhaustedCountsWholeBudget | services/newton_raphson.py:73-106 | when no step within the budget gets below the tolerance, the solve is not converged, counts the whole budget and returns the iterate after the whole budget |
| Solver.HistoryLayout | services/newton_raphson.py:65-99 | without `store_history` the history is empty; with it, it has `iterations + 2` entries when converged and `iterations + 1` otherwise, entry 0 is the initial guess at distance infinity with no step, entry `j` is numbered `j` and holds the residual at its own `x`, and the last entry holds the returned iterate |
| Solver.HistoryRecordsSteps | services/newton_raphson.py:85-99 | in exact arithmetic, consecutive history entries differ by exactly the `delta_x` the later one records, and its distance is the norm of that difference |
| Solver.ConsecutiveEntries | services/newton_raphson.py:85-99 | in exact arithmetic, the same, for entry `j` and entry `j - 1` of any run |
| Solver.SnapshotsKeepLength | services/newton_raphson.py:60-99 | the returned iterate and every recorded `x` have the initial guess's length |
| Services.PutAll | services/newton_raphson.py:252-254 | writing keys in order gives exactly the old keys plus the written ones; each key holds the value of its last write, and keys not written keep their old values |
| Services.FormatEntry | services/newton_raphson.py:252-257 | the output dictionary has `"iteracion"`, one key per variable, and `"distancia"` exactly when `i > 0`; `"iteracion"` is `i` unless a variable has that name; each variable maps to its entry of `x` unless overridden by a later write |
| Services.FormatHistory | services/newton_raphson.py:250-257 | the formatted history has one dictionary per history entry, numbered by position |
| Services.SolutionDict | services/newton_raphson.py:247 | the solution maps each of the first `min(len(variables), len(x))` variable names to its value in `x`, with the last write winning on repeated names |
| Services.BuildReport | services/newton_raphson.py:246-264 | `iteraciones` and `convergencia` are the solver's own; `solucion` is the solution dictionary of the final iterate; `historia` has one dictionary per history entry, the one at position `i` formatting entry `i` with index `i` |
| Services.ReportHistoryEntries | services/newton_raphson.py:250-257 | in a report's `historia`, dictionary `i` carries `"iteracion"` equal to `i` (unless a variable takes that name), has `"distancia"` exactly when `i > 0` (or a variable takes that name) holding entry `i`'s distance, and maps each variable to its coordinate of entry `i`'s `x`, with the last write winning on repeated names |
| Services.SolveDiodeCircuit | services/newton_raphson.py:193-196 | the returned iterate, counter and flag are those of a fresh solver's `Run` on the circuit's system |
| Services.ParseAndSolveSystem | services/newton_raphson.py:243-263 | fails exactly when the number of initial values differs from the number of variables; otherwise the report is `BuildReport` of a fresh solver's `Run` with history on |

## Left out

- Floating point: F, J, `np.linalg.solve`, `np.linalg.pinv` and `np.linalg.norm` are parameters of the model (`Numerics.Kernel`). NaN and rounding are not modelled; iterates are exact reals. So no numeric convergence claim is made, such as reaching √2 or the diode operating point. In float64, `(x + delta_x) - x` need not equal `delta_x`; the increment lemmas hold for exact reals only.
- The pseudo-inverse's own error path: `np.linalg.pinv` raises `LinAlgError` when its SVD does not converge (inf or NaN entries, such as an overflowing `exp(VD / Vt)` in the diode Jacobian), and `@` raises `ValueError` on mismatched shapes. Either escapes `solve` from inside the `except` block at services/newton_raphson.py:83. The model treats `pinvApply` as total.
- Services.FormatEntry, Services.SolutionDict, Services.BuildReport: output dictionaries are Dafny maps, so the insertion order of the Python dicts built at services/newton_raphson.py:247 and 252-256 is not modelled. The browser front end relies on that order to list solution variables and label chart series; the model states only the keys and their values.
- The diode circuit's exponential residual and Jacobian (services/newton_raphson.py:175-190) are not modelled. `Services.SolveDiodeCircuit` takes the circuit's system as a `Kernel`, and its circuit constants are not parameters. The Python unpacking `I1, I2, VD = x`, which raises unless the iterate has three entries, is part of that left-out system.
- SymPy parsing, differentiation and `lambdify` (services/newton_raphson.py:219-240) are a library outside the model. `Services.ParseAndSolveSystem` receives the built system as a `Kernel`. The lambdified function raises `TypeError` when the number of initial values differs from the number of variables, and this happens at the first call, before any step. The model reports that case as `ArityMismatch`. Errors raised while evaluating an expression are not modelled.
- Solver.Solve: requires `Numerics.Conformable`, so that every step has the iterate's length. numpy raises on mismatched shapes and broadcasts a step of length 1; neither path is modelled.
- `get_history_df` (services/newton_raphson.py:110-142) builds a pandas DataFrame and prints to stdout; it is left out.
- `schemas.py` is declarative pydantic validation. Its constraints `tolerance > 0` and `iter_max > 0` are not imposed on the model, which handles any tolerance and any integer cap as the Python loop does. Its two unattached `field_validator` functions enforce nothing.
- `main.py` and `static/js/app.js` are HTTP routing, templates and browser rendering; they are not part of this model.
- Copying: `initial_guess.copy()` and the `x.copy()` snapshots in the history are implicit, because Dafny sequences are values. No later update can alter the caller's guess or a recorded entry.
