/** The population data model the engine passes between its operators. */
module Genetic {
  import opened Matrices

  /** Abstract state of the engine's random generator. Every operator that draws
      random numbers receives it and hands back the advanced state. */
  type Rng = nat

  /** A population: row i of each matrix describes the same individual. Fitness
      and constraint values are kept only as rows; their numbers play no part in
      the loop. An unconstrained population has empty constraint rows. */
  datatype Population = Population(genes: Matrix, fitness: seq<seq<real>>, constraints: seq<seq<real>>)

  /** The three matrices agree on the number of individuals. */
  predicate Consistent(p: Population) {
    WellFormed(p.genes) && |p.fitness| == NRows(p.genes) && |p.constraints| == NRows(p.genes)
  }
}
