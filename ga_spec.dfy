/** The engine's behaviour as pure functions of its state: one generation
    (`NextGeneration`), the generational loop from a given index (`LoopFrom`) and
    a whole cancellable run (`CancellableRun`). The class in module `Ga` is proved
    to follow these functions; module `GaProperties` proves what they guarantee. */
module GaSpec {
  import opened Wrappers
  import opened Matrices
  import opened Genetic
  import opened Helpers
  import opened Operators

  /** Mating attempts the evolve pipeline is given in every generation. */
  const MaxMatingAttempts: nat := 200

  /** What the engine owns and updates: the population (absent before the first
      run), the run context and the random generator. */
  datatype EngineState = EngineState(population: Option<Population>, context: AlgorithmContext, rng: Rng)

  /** What the observer is handed once per completed generation. */
  datatype IterationData = IterationData(iteration: nat, population: Population)

  /** Ways the engine panics instead of returning. */
  datatype Panic =
    | UnwrapNone                              // `next` called with no population
    | ColumnMismatch(found: nat, expected: nat) // offspring columns differ from `numVars`
    | ConcatenateFailed                       // parents and offspring cannot be stacked

  datatype StepOutcome = Advanced | StepFailed(error: AlgorithmError) | StepPanicked(reason: Panic)

  datatype Step = Step(outcome: StepOutcome, state: EngineState)

  /** One generation: evolve offspring from the current population, check their
      column count, stack them under the parents, evaluate the stack and keep the
      survivors. The generator advances even when a stage fails; the population is
      replaced only when every stage succeeds, and the context is never written. */
  function NextGeneration(ops: Operators, s: EngineState): (r: Step)
    ensures r.state.context == s.context
    ensures r.outcome.Advanced? ==> r.state.population.Some?
    ensures !r.outcome.Advanced? ==> r.state.population == s.population
    ensures s.population.None? <==> r.outcome == StepPanicked(UnwrapNone)
  {
    if s.population.None? then Step(StepPanicked(UnwrapNone), s)
    else
      var parents := s.population.value;
      var (offspring, rng1) := ops.evolve(parents, s.context.numOffsprings, MaxMatingAttempts, s.rng);
      var s1 := s.(rng := rng1);
      if offspring.Err? then Step(StepFailed(Evolve(offspring.error)), s1)
      else if offspring.value.ncols != s.context.numVars then
        Step(StepPanicked(ColumnMismatch(offspring.value.ncols, s.context.numVars)), s1)
      else match Concatenate(parents.genes, offspring.value)
        case None => Step(StepPanicked(ConcatenateFailed), s1)
        case Some(combined) =>
          match ops.evaluate(combined)
          case Err(e) => Step(StepFailed(Evaluator(e)), s1)
          case Ok(evaluated) =>
            var (survivors, rng2) := ops.survive(evaluated, s.context.populationSize, rng1);
            Step(Advanced, s1.(population := Some(survivors), rng := rng2))
  }

  /** The cancellation flag as the loop sees it: its value when polled at the head
      of iteration `k`, given the observer's state at that moment. A flag set from
      elsewhere is a function of `k`; one the observer sets is a function of its state. */
  type Flag<!O> = (nat, O) -> bool

  /** The observer: it receives each iteration's data and may update its own state. */
  type Callback<!O> = (O, IterationData) -> O

  /** How a run ended. `Cancelled` and `EarlyStopped` carry the loop index at which
      the loop stopped. */
  datatype Termination =
    | Completed
    | Cancelled(at: nat)
    | EarlyStopped(at: nat)
    | Failed(error: AlgorithmError)
    | Panicked(reason: Panic)

  /** The end of a run: how it terminated, the engine's final state, the observer's
      final state, how many generations completed and the data handed to the
      observer, in call order. */
  datatype RunResult<O> = RunResult(
    termination: Termination,
    state: EngineState,
    observer: O,
    completed: nat,
    reported: seq<IterationData>)

  /** What the caller of a run sees: a returned `Result` or a panic. */
  datatype Exit = Returned(result: Result<(), AlgorithmError>) | Unwound(reason: Panic)

  function ExitOf(t: Termination): (x: Exit)
    ensures x.Returned? && x.result.Ok? <==> t.Completed? || t.Cancelled? || t.EarlyStopped?
    ensures x.Returned? && x.result.Err? <==> t.Failed?
    ensures t.Failed? ==> x == Returned(Err(t.error))
    ensures t.Panicked? ==> x == Unwound(t.reason)
  {
    match t
    case Completed => Returned(Ok(()))
    case Cancelled(_) => Returned(Ok(()))
    case EarlyStopped(_) => Returned(Ok(()))
    case Failed(e) => Returned(Err(e))
    case Panicked(p) => Unwound(p)
  }

  /** The observer's state after it has been handed `data` in order; unchanged
      when there is no observer. */
  function Notify<O>(callback: Option<Callback<O>>, obs: O, data: IterationData): O {
    if callback.Some? then callback.value(obs, data) else obs
  }

  /** The generational loop from index `k` to `numIterations`: poll the flag, run
      one generation, notify the observer with `iteration = k + 1`, record `k` as the
      current iteration, and go on; `EmptyMatingResult` stops it gracefully and any
      other error or panic ends it. */
  function LoopFrom<O>(ops: Operators, flag: Flag<O>, callback: Option<Callback<O>>,
                       k: nat, s: EngineState, obs: O): (r: RunResult<O>)
    requires k <= s.context.numIterations
    ensures k + r.completed <= s.context.numIterations
    ensures r.state.context == s.context.(currentIteration := r.state.context.currentIteration)
    decreases s.context.numIterations - k
  {
    if k == s.context.numIterations then RunResult(Completed, s, obs, 0, [])
    else if flag(k, obs) then RunResult(Cancelled(k), s, obs, 0, [])
    else
      var step := NextGeneration(ops, s);
      match step.outcome
      case Advanced =>
        var data := IterationData(k + 1, step.state.population.value);
        var s' := step.state.(context := step.state.context.(currentIteration := k));
        var rest := LoopFrom(ops, flag, callback, k + 1, s', Notify(callback, obs, data));
        rest.(completed := rest.completed + 1,
              reported := (if callback.Some? then [data] else []) + rest.reported)
      case StepFailed(Evolve(EmptyMatingResult)) => RunResult(EarlyStopped(k), step.state, obs, 0, [])
      case StepFailed(e) => RunResult(Failed(e), step.state, obs, 0, [])
      case StepPanicked(p) => RunResult(Panicked(p), step.state, obs, 0, [])
  }

  /** A cancellable run: initialize the population, then run the loop from index 0.
      An initialization error is returned before any generation. */
  function CancellableRun<O>(ops: Operators, flag: Flag<O>, callback: Option<Callback<O>>,
                             s: EngineState, obs: O): (r: RunResult<O>)
    ensures r.completed <= s.context.numIterations
    ensures r.state.context == s.context.(currentIteration := r.state.context.currentIteration)
  {
    var (init, rng1) := ops.initialize(s.context, s.rng);
    if init.Err? then RunResult(Failed(Initialization(init.error)), s.(rng := rng1), obs, 0, [])
    else LoopFrom(ops, flag, callback, 0, InitializedState(ops, s), obs)
  }

  /** The engine's state once initialization has succeeded and stored its population. */
  function InitializedState(ops: Operators, s: EngineState): (r: EngineState)
    requires ops.initialize(s.context, s.rng).0.Ok?
    ensures r.population.Some? && r.context == s.context
  {
    var (init, rng1) := ops.initialize(s.context, s.rng);
    s.(population := Some(init.value), rng := rng1)
  }

  /** The flag of a plain run: never set. */
  function NeverSet(): Flag<()> {
    (k: nat, o: ()) => false
  }

  /** A plain run: a cancellable run whose flag is never set and that has no observer. */
  function PlainRun(ops: Operators, s: EngineState): RunResult<()> {
    CancellableRun(ops, NeverSet(), None, s, ())
  }
}
