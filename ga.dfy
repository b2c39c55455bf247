/** The genetic-algorithm engine as the object the source keeps: the population,
    the run context and the random generator are fields that `Next` and
    `RunCancellable` update in place. Each method is proved to leave the object
    in the state the matching function of `GaSpec` computes. */
module Ga {
  import opened Wrappers
  import opened Matrices
  import opened Genetic
  import opened Helpers
  import opened Operators
  import opened GaSpec

  class GeneticAlgorithm {
    var population: Option<Population>
    var context: AlgorithmContext
    var rng: Rng
    const operators: Operators

    /** The engine's state as a value. */
    function State(): EngineState
      reads this
    {
      EngineState(population, context, rng)
    }

    constructor (population: Option<Population>, operators: Operators, context: AlgorithmContext, rng: Rng)
      ensures State() == EngineState(population, context, rng)
      ensures this.operators == operators
    {
      this.population := population;
      this.operators := operators;
      this.context := context;
      this.rng := rng;
    }

    /** Advances one generation. */
    method Next() returns (outcome: StepOutcome)
      modifies this
      ensures outcome == NextGeneration(operators, old(State())).outcome
      ensures State() == NextGeneration(operators, old(State())).state
    {
      if population.None? {
        return StepPanicked(UnwrapNone);
      }
      var parents := population.value;
      var evolved := operators.evolve(parents, context.numOffsprings, MaxMatingAttempts, rng);
      rng := evolved.1;
      if evolved.0.Err? {
        return StepFailed(Evolve(evolved.0.error));
      }
      var offspring := evolved.0.value;
      if offspring.ncols != context.numVars {
        return StepPanicked(ColumnMismatch(offspring.ncols, context.numVars));
      }
      var stacked := Concatenate(parents.genes, offspring);
      if stacked.None? {
        return StepPanicked(ConcatenateFailed);
      }
      var evaluated := operators.evaluate(stacked.value);
      if evaluated.Err? {
        return StepFailed(Evaluator(evaluated.error));
      }
      var survived := operators.survive(evaluated.value, context.populationSize, rng);
      rng := survived.1;
      population := Some(survived.0);
      outcome := Advanced;
    }

    /** Initializes the population, then runs up to `numIterations` generations,
        polling the flag before each and notifying the observer after each. */
    method RunCancellable<O>(flag: Flag<O>, callback: Option<Callback<O>>, observer: O)
      returns (exit: Exit, obs: O)
      modifies this
      ensures var r := CancellableRun(operators, flag, callback, old(State()), observer);
              exit == ExitOf(r.termination) && State() == r.state && obs == r.observer
    {
      ghost var r := CancellableRun(operators, flag, callback, State(), observer);
      obs := observer;
      var initialized := operators.initialize(context, rng);
      rng := initialized.1;
      if initialized.0.Err? {
        return Returned(Err(Initialization(initialized.0.error))), obs;
      }
      population := Some(initialized.0.value);
      exit := Returned(Ok(()));
      var currentIter: nat := 0;
      while currentIter < context.numIterations
        invariant currentIter <= context.numIterations
        invariant var rest := LoopFrom(operators, flag, callback, currentIter, State(), obs);
                  rest.termination == r.termination && rest.state == r.state && rest.observer == r.observer
        decreases context.numIterations - currentIter
      {
        if flag(currentIter, obs) {
          break;
        }
        var outcome := Next();
        match outcome {
          case Advanced =>
            obs := Notify(callback, obs, IterationData(currentIter + 1, population.value));
          case StepFailed(Evolve(EmptyMatingResult)) =>
            break;
          case StepFailed(e) =>
            return Returned(Err(e)), obs;
          case StepPanicked(p) =>
            return Unwound(p), obs;
        }
        context := context.(currentIteration := currentIter);
        currentIter := currentIter + 1;
      }
    }

    /** Runs to completion with a flag that is never set and no observer. */
    method Run() returns (exit: Exit)
      modifies this
      ensures var r := PlainRun(operators, old(State()));
              exit == ExitOf(r.termination) && State() == r.state
    {
      var unit: ();
      exit, unit := RunCancellable(NeverSet(), None, ());
    }
  }
}
