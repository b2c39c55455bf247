/** Run parameters and the error taxonomy the engine reports. */
module Helpers {

  /** The run context. Operators only read it; the engine writes
      `currentIteration` once per completed generation. */
  datatype AlgorithmContext = AlgorithmContext(
    populationSize: nat,
    numOffsprings: nat,
    numVars: nat,
    numIterations: nat,
    currentIteration: nat)

  /** Errors of the evolve pipeline. `EmptyMatingResult` (no offspring accepted
      after every mating attempt) is the one the engine treats as a graceful stop. */
  datatype EvolveError = EmptyMatingResult | OtherEvolveError(message: string)

  datatype EvaluatorError = EvaluatorError(message: string)

  datatype InitializationError = InitializationError(message: string)

  /** The error type of the engine; each stage's error is wrapped unchanged. */
  datatype AlgorithmError =
    | Evolve(evolveError: EvolveError)
    | Evaluator(evaluatorError: EvaluatorError)
    | Initialization(initializationError: InitializationError)
}
