# Generational loop of the moors genetic-algorithm engine

This project models the orchestration core of the `moors` multi-objective
optimisation engine: `GeneticAlgorithm::next`, `run` and `run_cancellable` in
`moors/src/algorithms/ga.rs`. One generation evolves offspring from the current
population, checks that they have `num_vars` columns, stacks them under the
parents, evaluates the stack and keeps the survivors. A run initializes the
population and then runs up to `num_iterations` generations. Before each
generation it polls a cancellation flag. After each generation it notifies an
optional observer with `iteration = current_iter + 1` and records `current_iter`
in the context. An `EmptyMatingResult` from the evolve stage stops the loop
gracefully; any other error is returned.

The operators (initialization, evolve pipeline, evaluator, survival) are
function-valued oracles in the `Operators` datatype; each one that draws
random numbers receives the generator state and returns the advanced state.
Populations keep only their shape and row order, and a consistent
population's gene, fitness and constraint matrices agree on the individuals. The loop's guarantees are
proved for all operators; the shape guarantees are proved relative to the
operator contracts in `Operators.HonoursContracts`.

Files:
- `wrappers.dfy` — `Option` and `Result`.
- `matrix.dfy` — gene matrices (rows and column count) and row-axis stacking.
- `genetic.dfy`, `helpers.dfy` — population, run context, error taxonomy.
- `operators.dfy` — the operator oracles and the contracts the loop relies on.
- `ga_spec.dfy` — `next`, the loop and a whole run as pure functions.
- `ga.dfy` — the engine as a class whose methods update its fields in place
  and are proved to agree with `ga_spec.dfy`.
- `ga_properties.dfy` — what a generation, the loop and a run guarantee.
- `test_cancellation.dfy` — the cancellation scenario of the engine's test.

`current_iteration` is the index of the last completed generation, not the
number of completed generations: the code records `current_iter`, one less
than the iteration number the observer receives for the same generation.

Panics of the source are outcomes of the model, not preconditions:
`unwrap` on a missing population, the failed `assert_eq!` on the offspring
column count and the failed `concatenate(..).expect(..)` each end a generation
with `StepPanicked`, and a run with `Unwound`.

## Model

| member | source | states |
|---|---|---|
| Matrices.Concatenate | moors/src/algorithms/ga.rs:106-107 | Stacking fails exactly when the column counts differ; otherwise the result has the parent rows first and the offspring rows after them, in order. Its row count is the sum of both, and the column count is unchanged. |
| GaSpec.NextGeneration | moors/src/algorithms/ga.rs:88-121 | `next` never writes the context. It replaces the population only on success, and then a population is present. It panics with `UnwrapNone` exactly when no population is stored. |
| GaSpec.ExitOf | moors/src/algorithms/ga.rs:150-182 | Completion, cancellation and early stop return `Ok`. A failure returns `Err` carrying exactly the failure's error, and a panic unwinds with its reason. |
| GaSpec.LoopFrom | moors/src/algorithms/ga.rs:150-181 | Starting from index `k`, at most `num_iterations - k` generations complete. Only `current_iteration` of the context may change. |
| GaSpec.CancellableRun | moors/src/algorithms/ga.rs:130-183 | A run completes at most `num_iterations` generations. Only `current_iteration` of the context may change. |
| GaSpec.InitializedState | moors/src/algorithms/ga.rs:139-148 | After a successful initialization, the engine holds a population and its context is untouched. |
| Ga.GeneticAlgorithm.constructor | moors/src/algorithms/ga.rs:65-86 | The engine starts holding the population, context, operators and generator it was given. |
| Ga.GeneticAlgorithm.Next | moors/src/algorithms/ga.rs:88-121 | The outcome and the new population, context and generator state are those of `GaSpec.NextGeneration` on the old state. |
| Ga.GeneticAlgorithm.RunCancellable | moors/src/algorithms/ga.rs:130-183 | The returned result or panic, the engine's final state and the observer's final state are those of `GaSpec.CancellableRun`. The loop invariant is that the rest of the loop from the current index ends where the whole run ends. |
| Ga.GeneticAlgorithm.Run | moors/src/algorithms/ga.rs:123-128 | `run` is `run_cancellable` with a flag that is never set and no observer. |
| GaProperties.NextCombinesParentsThenOffspring | moors/src/algorithms/ga.rs:91-118 | On success, the offspring have `num_vars` columns. The evaluator received the parent rows followed by the offspring rows, with `num_vars` columns and parent + offspring rows in total. The new population is the survivors of that evaluation at `population_size`. |
| GaProperties.NextPanicsIffColumnMismatch | moors/src/algorithms/ga.rs:96-103 | Once offspring exist, `next` panics on the column check if and only if their column count differs from `num_vars`. |
| GaProperties.NextFailureKeepsPopulation | moors/src/algorithms/ga.rs:91-109 | An evolve error `e` is returned as `Evolve(e)`. Once offspring of `num_vars` columns are stacked, an evaluator error `e` is returned as `Evaluator(e)`. An evaluator failure only happens after evolve succeeded. Every failure leaves the population unchanged. |
| GaProperties.NextPreservesShape | moors/src/algorithms/ga.rs:88-121 | Under the operator contracts, a generation from a well-shaped population never panics. On success the survivors again have `population_size` rows of `num_vars` columns. |
| GaProperties.LoopGenerations | moors/src/algorithms/ga.rs:150-181 | The loop completes exactly when every remaining iteration ran. A cancellation or early stop happens at index `k + completed`. |
| GaProperties.LoopReportsConsecutive | moors/src/algorithms/ga.rs:158-172 | The observer is called once per completed generation and never otherwise, with iterations `k+1, k+2, ...` in order. Without an observer nothing is reported. |
| GaProperties.LoopCurrentIteration | moors/src/algorithms/ga.rs:174-180 | The context is untouched until a generation completes. After that, `current_iteration` is the index of the last completed generation. |
| GaProperties.LoopObserverSeesOnlyReports | moors/src/algorithms/ga.rs:166-172 | The observer's final state is the effect of exactly the reported calls, in order. |
| GaProperties.LoopKeepsPopulation | moors/src/algorithms/ga.rs:150-181 | Started with a population, the loop never reaches `next` without one and ends with one. |
| GaProperties.LoopPreservesShape | moors/src/algorithms/ga.rs:150-181 | Under the operator contracts, the loop never panics. Every population it holds or reports has `population_size` rows of `num_vars` columns. |
| GaProperties.LoopStopsAtRaisedFlag | moors/src/algorithms/ga.rs:150-156 | If the flag is set when polled at index `j` whatever the observer's state (a flag raised from outside), at most `j - k` generations run. The loop then does not complete, and a cancellation happens no later than `j`. A flag the observer raises is covered by `CancellationScenario`. |
| GaProperties.LoopGenerationsAdvanced | moors/src/algorithms/ga.rs:150-173 | Each completed generation `j` was polled with the flag clear and its `next` succeeded. This is stated on the engine and observer states after `j` generations. |
| GaProperties.LoopEndsAfterLastGeneration | moors/src/algorithms/ga.rs:150-156 | A completed or cancelled loop ends in the engine state after its last completed generation, with the observer state of that point. A cancelled loop found the flag set at its cancellation index, so no further `next` ran. |
| GaProperties.LoopStopCause | moors/src/algorithms/ga.rs:158-178 | In an early-stopped, failed or panicked loop, the flag was clear and the next generation failed or panicked. An early stop is `EmptyMatingResult`. A failure is any other error, passed on unchanged. The loop ends in that generation's state. |
| GaProperties.LoopReportsSurvivors | moors/src/algorithms/ga.rs:166-171 | Report `i` hands the observer the population stored by generation `i + 1`, i.e. the survivors just selected. |
| GaProperties.NoObserverMatchesIgnoringObserver | moors/src/algorithms/ga.rs:166-172 | Running with no observer and with an observer that ignores its calls gives the same termination, engine state and generation count. |
| GaProperties.RunInitializationFailure | moors/src/algorithms/ga.rs:138-146 | An initialization error is returned before any generation. Nothing is reported, and the population and context are unchanged. |
| GaProperties.RunNeverUnwrapsNone | moors/src/algorithms/ga.rs:139-150 | The population is set before the loop, so the `unwrap` in `next` never fails. |
| GaProperties.RunBookkeeping | moors/src/algorithms/ga.rs:150-182 | The observer sees iterations 1..k in order, one per generation, with k at most `num_iterations`. After k >= 1 generations, `current_iteration` is k - 1. The termination mode is tied to k. |
| GaProperties.RunStopCause | moors/src/algorithms/ga.rs:138-182 | An initialization error is returned as `Err(Initialization(e))`. An early stop comes from `EmptyMatingResult` in the next generation and returns `Ok`. A failure is the next generation's error, returned unchanged as `Err`, and an `Err` never carries `EmptyMatingResult`. A cancelled or completed run ends in the state after its last generation. |
| GaProperties.RunHonouringContractsNeverPanics | moors/src/algorithms/ga.rs:138-183 | Under the operator contracts, a run never panics. After a successful initialization it ends with a population of the run's shape. |
| GaProperties.PlainRunNeverCancelled | moors/src/algorithms/ga.rs:123-128 | `run` is never cancelled and reports nothing. |
| GaProperties.PlainLoopNeverCancelled | moors/src/algorithms/ga.rs:150-156 | A loop whose flag is never set and that has no observer is never cancelled and reports nothing. |
| CancellationScenario.ProbeLoop | moors/tests/test_cancellation.rs:40-45 | From index k up to the threshold, with a probe observer and no failing generation, the loop is cancelled at the threshold after `threshold - k` generations. |
| CancellationScenario.ObserverCancelsAtThreshold | moors/tests/test_cancellation.rs:40-51 | An observer that raises the flag from iteration `t` on stops the run after exactly `t` generations, with `Cancelled(t)`. It observed iteration `t` last, and `current_iteration` is `t - 1`. |
| CancellationScenario.TestCancellation | moors/tests/test_cancellation.rs:17-58 | With the test's configuration (100 iterations, flag raised from iteration 5), the run returns `Ok`. The stored iteration lies in [5, 100), and `current_iteration` is 4. |

## Left out

- The concrete operators (sampling, selection, crossover, mutation, duplicate cleaning, survival, the evaluator and `Initialization::initialize`) are oracles; their formulas are not part of this model. The 200 mating attempts are passed through unchanged.
- The survival operator's own mutable state (`&mut self.survivor`) is not modelled; survival is a function of its inputs and the generator state.
- The random generator is an abstract state (`Rng`) that operators advance; its numbers are not modelled.
- Gene, fitness and constraint values are not floating point; genes are `real` and only shapes and row order matter.
- `Arc<AtomicBool>` and cross-thread cancellation: the flag is a function of the poll index and the observer's state, read once per loop head.
- `verbose` output (`println!`, `algorithm_printer`) and the early-stop warning are not modelled, since they do not affect state.
- `IterationData` borrows the population in the source; the model hands the observer the population value.
- `AlgorithmContext` fields other than population size, offspring count, variable count, iteration count and current iteration are not modelled; `AlgorithmContext`, `AlgorithmError` and the operator traits are defined outside `ga.rs` and their full definitions are not part of this model.
- `current_iter + 1` is computed on unbounded integers; in the source it cannot overflow because `current_iter < num_iterations`.
- After a panic the model keeps the state reached at the panic (the generator already advanced); unwinding itself is not modelled.
- `moors/src/lib.rs` and `moors/src/algorithms/mod.rs` hold only module declarations, re-exports and documentation.
