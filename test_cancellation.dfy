/** The cancellation scenario of the engine's test: an observer that records the
    last iteration it saw and raises the flag once that iteration reaches a
    threshold stops the run after exactly that many generations. */
module CancellationScenario {
  import opened Wrappers
  import opened Matrices
  import opened Genetic
  import opened Helpers
  import opened Operators
  import opened GaSpec
  import opened GaProperties

  /** The observer's captured state: the last iteration stored and the flag. */
  datatype Probe = Probe(iterationsRun: nat, token: bool)

  /** Stores the iteration and raises the flag from iteration `threshold` on. */
  function ProbeCallback(threshold: nat): Callback<Probe> {
    (o: Probe, d: IterationData) => Probe(d.iteration, o.token || d.iteration >= threshold)
  }

  /** The flag is the one the probe raises. */
  function ProbeFlag(): Flag<Probe> {
    (k: nat, o: Probe) => o.token
  }

  /** No stage of a generation ever fails: evolve and evaluation always succeed. */
  ghost predicate GenerationsSucceed(ops: Operators) {
    && (forall p, n, a, rng: Rng :: ops.evolve(p, n, a, rng).0.Ok?)
    && (forall m :: ops.evaluate(m).Ok?)
  }

  lemma {:induction false} ProbeLoop(ops: Operators, threshold: nat, k: nat, s: EngineState)
    requires 1 <= threshold < s.context.numIterations
    requires k <= threshold
    requires GenerationContracts(ops, s.context) && GenerationsSucceed(ops)
    requires s.population.Some? && Shaped(s.population.value, s.context)
    ensures var r := LoopFrom(ops, ProbeFlag(), Some(ProbeCallback(threshold)), k, s, Probe(k, k == threshold));
            && r.termination == Cancelled(threshold)
            && r.completed == threshold - k
            && r.observer == Probe(threshold, true)
            && (k < threshold ==> r.state.context.currentIteration == threshold - 1)
    decreases threshold - k
  {
    if k < threshold {
      var step := NextGeneration(ops, s);
      NextPreservesShape(ops, s);
      assert step.outcome.Advanced?;
      var data := IterationData(k + 1, step.state.population.value);
      var s' := step.state.(context := step.state.context.(currentIteration := k));
      assert Notify(Some(ProbeCallback(threshold)), Probe(k, false), data) == Probe(k + 1, k + 1 == threshold);
      assert GenerationContracts(ops, s'.context) by {
        assert s'.context == s.context.(currentIteration := k);
      }
      ProbeLoop(ops, threshold, k + 1, s');
      LoopCurrentIteration(ops, ProbeFlag(), Some(ProbeCallback(threshold)), k + 1, s', Probe(k + 1, k + 1 == threshold));
    }
  }

  /** With an observer raising the flag from iteration `threshold` on, fewer than
      `numIterations`, a successful initialization and no generation failing, the run is cancelled at loop
      index `threshold` after exactly `threshold` generations; the last iteration
      observed is `threshold` and `currentIteration` ends at `threshold - 1`. */
  lemma ObserverCancelsAtThreshold(ops: Operators, threshold: nat, s: EngineState)
    requires 1 <= threshold < s.context.numIterations
    requires HonoursContracts(ops, s.context) && GenerationsSucceed(ops)
    requires ops.initialize(s.context, s.rng).0.Ok?
    ensures var r := CancellableRun(ops, ProbeFlag(), Some(ProbeCallback(threshold)), s, Probe(0, false));
            && r.termination == Cancelled(threshold)
            && r.completed == threshold
            && r.observer.iterationsRun == threshold
            && r.state.context.currentIteration == threshold - 1
  {
    assert Shaped(InitializedState(ops, s).population.value, s.context);
    ProbeLoop(ops, threshold, 0, InitializedState(ops, s));
  }

  /** The configuration of the test: 10 individuals, 10 offspring, 3 variables,
      100 iterations and the flag raised from iteration 5 on. The run stops with
      `Ok`, the stored iteration lies in [5, 100), and `currentIteration` is 4. */
  lemma TestCancellation(ops: Operators, rng: Rng)
    requires var ctx := AlgorithmContext(10, 10, 3, 100, 0);
             HonoursContracts(ops, ctx) && GenerationsSucceed(ops) && ops.initialize(ctx, rng).0.Ok?
    ensures var s := EngineState(None, AlgorithmContext(10, 10, 3, 100, 0), rng);
            var r := CancellableRun(ops, ProbeFlag(), Some(ProbeCallback(5)), s, Probe(0, false));
            && ExitOf(r.termination) == Returned(Ok(()))
            && 5 <= r.observer.iterationsRun < 100
            && r.state.context.currentIteration == 4
  {
    ObserverCancelsAtThreshold(ops, 5, EngineState(None, AlgorithmContext(10, 10, 3, 100, 0), rng));
  }
}
