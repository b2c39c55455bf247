/** The pluggable operators the generational loop composes, as oracles. Each one
    that draws random numbers threads the generator state. */
module Operators {
  import opened Wrappers
  import opened Matrices
  import opened Genetic
  import opened Helpers

  datatype Operators = Operators(
    /** Sampling, evaluation, duplicate cleaning and one survival pass, producing
        the first population. */
    initialize: (AlgorithmContext, Rng) -> (Result<Population, InitializationError>, Rng),
    /** Selection, crossover, mutation and duplicate removal: parents, number of
        offspring wanted and number of mating attempts give offspring genes. */
    evolve: (Population, nat, nat, Rng) -> (Result<Matrix, EvolveError>, Rng),
    /** Fitness and constraint functions applied to a gene matrix. */
    evaluate: Matrix -> Result<Population, EvaluatorError>,
    /** Survival selection down to a target number of individuals. */
    survive: (Population, nat, Rng) -> (Population, Rng))

  /** A gene matrix of the run's shape: rectangular with `numVars` columns. */
  predicate GenesShaped(m: Matrix, ctx: AlgorithmContext) {
    WellFormed(m) && m.ncols == ctx.numVars
  }

  /** A population the loop may hold between generations: its matrices agree on
      the individuals, and it has `populationSize` rows of `numVars` genes. */
  predicate Shaped(p: Population, ctx: AlgorithmContext) {
    Consistent(p) && GenesShaped(p.genes, ctx) && NRows(p.genes) == ctx.populationSize
  }

  /** The contracts the loop relies on: initialization yields a population of the
      run's shape, and the operators of a generation keep it (see below). */
  ghost predicate HonoursContracts(ops: Operators, ctx: AlgorithmContext) {
    && (forall rng: Rng :: ops.initialize(ctx, rng).0.Ok? ==> Shaped(ops.initialize(ctx, rng).0.value, ctx))
    && GenerationContracts(ops, ctx)
  }

  /** The contracts of the operators used in a generation: evolve yields rectangular
      offspring with `numVars` columns; the evaluator keeps the rectangular gene
      matrix it was given and scores every row; survival keeps a consistent
      population consistent, keeps the column count and cuts a population of at
      least the target size down to exactly that size. They read only `numVars` and
      `populationSize` of the context. */
  ghost predicate GenerationContracts(ops: Operators, ctx: AlgorithmContext) {
    && (forall p, n, a, rng: Rng :: ops.evolve(p, n, a, rng).0.Ok? ==> GenesShaped(ops.evolve(p, n, a, rng).0.value, ctx))
    && (forall m :: WellFormed(m) && ops.evaluate(m).Ok? ==>
          ops.evaluate(m).value.genes == m && Consistent(ops.evaluate(m).value))
    && (forall p: Population, rng: Rng :: Consistent(p) && NRows(p.genes) >= ctx.populationSize ==>
          var s := ops.survive(p, ctx.populationSize, rng).0;
          Consistent(s) && s.genes.ncols == p.genes.ncols && NRows(s.genes) == ctx.populationSize)
  }
}
