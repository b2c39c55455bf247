/** What one generation, the generational loop and a whole run guarantee:
    the combined matrix layout, the column check, which termination mode occurs,
    how many generations run, the iterations the observer sees, the value left in
    `currentIteration`, and that `next` never runs without a population. */
module GaProperties {
  import opened Wrappers
  import opened Matrices
  import opened Genetic
  import opened Helpers
  import opened Operators
  import opened GaSpec

  // ---------------------------------------------------------------- one generation

  /** A successful generation evaluates the parents' gene rows followed by the
      offspring rows, in that order, with `numVars` columns, and keeps the
      survivors of that evaluation at the target population size. */
  lemma NextCombinesParentsThenOffspring(ops: Operators, s: EngineState)
    requires NextGeneration(ops, s).outcome.Advanced?
    ensures s.population.Some?
    ensures var parents := s.population.value.genes;
            var (offspring, rng1) := ops.evolve(s.population.value, s.context.numOffsprings, MaxMatingAttempts, s.rng);
            && offspring.Ok?
            && offspring.value.ncols == s.context.numVars
            && parents.ncols == s.context.numVars
            && Concatenate(parents, offspring.value).Some?
            && var combined := Concatenate(parents, offspring.value).value;
               && combined.ncols == s.context.numVars
               && NRows(combined) == NRows(parents) + NRows(offspring.value)
               && (forall i :: 0 <= i < NRows(parents) ==> combined.rows[i] == parents.rows[i])
               && (forall j :: 0 <= j < NRows(offspring.value) ==>
                     combined.rows[NRows(parents) + j] == offspring.value.rows[j])
               && ops.evaluate(combined).Ok?
               && NextGeneration(ops, s).state.population
                  == Some(ops.survive(ops.evaluate(combined).value, s.context.populationSize, rng1).0)
  {
    var parents := s.population.value.genes;
    var offspring := ops.evolve(s.population.value, s.context.numOffsprings, MaxMatingAttempts, s.rng).0;
    assert offspring.Ok? && offspring.value.ncols == s.context.numVars;
    assert Concatenate(parents, offspring.value).Some?;
  }

  /** Once offspring have been produced, the generation panics on the column check
      exactly when their column count differs from `numVars`. */
  lemma NextPanicsIffColumnMismatch(ops: Operators, s: EngineState)
    requires s.population.Some?
    requires ops.evolve(s.population.value, s.context.numOffsprings, MaxMatingAttempts, s.rng).0.Ok?
    ensures var offspring := ops.evolve(s.population.value, s.context.numOffsprings, MaxMatingAttempts, s.rng).0.value;
            NextGeneration(ops, s).outcome.StepPanicked? && NextGeneration(ops, s).outcome.reason.ColumnMismatch?
            <==> offspring.ncols != s.context.numVars
  {
  }

  /** A failed evolve or evaluate stage is reported as that stage's error,
      unchanged, and the population is left as it was. */
  lemma NextFailureKeepsPopulation(ops: Operators, s: EngineState)
    requires s.population.Some?
    ensures var r := NextGeneration(ops, s);
            var offspring := ops.evolve(s.population.value, s.context.numOffsprings, MaxMatingAttempts, s.rng).0;
            && (offspring.Err? ==> r.outcome == StepFailed(Evolve(offspring.error)) && r.state.population == s.population)
            && (offspring.Ok? && offspring.value.ncols == s.context.numVars &&
                Concatenate(s.population.value.genes, offspring.value).Some? &&
                ops.evaluate(Concatenate(s.population.value.genes, offspring.value).value).Err? ==>
                  && r.outcome == StepFailed(Evaluator(ops.evaluate(Concatenate(s.population.value.genes, offspring.value).value).error))
                  && r.state.population == s.population)
            && (r.outcome.StepFailed? && r.outcome.error.Evaluator? ==> offspring.Ok? && r.state.population == s.population)
  {
  }

  /** Under the operator contracts, a generation started from a population of the
      run's shape never panics, and on success leaves a population of that shape. */
  lemma NextPreservesShape(ops: Operators, s: EngineState)
    requires GenerationContracts(ops, s.context)
    requires s.population.Some? && Shaped(s.population.value, s.context)
    ensures !NextGeneration(ops, s).outcome.StepPanicked?
    ensures NextGeneration(ops, s).outcome.Advanced? ==> Shaped(NextGeneration(ops, s).state.population.value, s.context)
  {
    var parents := s.population.value;
    var (offspring, rng1) := ops.evolve(parents, s.context.numOffsprings, MaxMatingAttempts, s.rng);
    if offspring.Ok? {
      assert GenesShaped(offspring.value, s.context);
      var combined := Concatenate(parents.genes, offspring.value);
      assert combined.Some? && WellFormed(combined.value);
      var evaluated := ops.evaluate(combined.value);
      if evaluated.Ok? {
        assert evaluated.value.genes == combined.value;
        assert NRows(evaluated.value.genes) >= s.context.populationSize;
      }
    }
  }

  // ---------------------------------------------------------------- the loop

  /** The termination mode fixes the number of completed generations: a completed
      loop ran every remaining iteration; a cancelled or early-stopped loop stopped
      at index `k + completed`, before the last one; a failure or panic happened
      before the last iteration too. */
  lemma {:induction false} LoopGenerations<O>(ops: Operators, flag: Flag<O>, callback: Option<Callback<O>>,
                                              k: nat, s: EngineState, obs: O)
    requires k <= s.context.numIterations
    ensures var r := LoopFrom(ops, flag, callback, k, s, obs);
            && (r.termination.Completed? <==> k + r.completed == s.context.numIterations)
            && (r.termination.Cancelled? ==> r.termination.at == k + r.completed)
            && (r.termination.EarlyStopped? ==> r.termination.at == k + r.completed)
    decreases s.context.numIterations - k
  {
    if k < s.context.numIterations && !flag(k, obs) {
      var step := NextGeneration(ops, s);
      if step.outcome.Advanced? {
        var data := IterationData(k + 1, step.state.population.value);
        var s' := step.state.(context := step.state.context.(currentIteration := k));
        LoopGenerations(ops, flag, callback, k + 1, s', Notify(callback, obs, data));
      }
    }
  }

  /** The observer is called once per completed generation and never otherwise,
      with iterations `k + 1, k + 2, ...` in order; without an observer nothing is
      reported. */
  lemma {:induction false} LoopReportsConsecutive<O>(ops: Operators, flag: Flag<O>, callback: Option<Callback<O>>,
                                                     k: nat, s: EngineState, obs: O)
    requires k <= s.context.numIterations
    ensures var r := LoopFrom(ops, flag, callback, k, s, obs);
            && (callback.None? ==> r.reported == [])
            && (callback.Some? ==> |r.reported| == r.completed)
            && (forall i :: 0 <= i < |r.reported| ==> r.reported[i].iteration == k + i + 1)
    decreases s.context.numIterations - k
  {
    if k < s.context.numIterations && !flag(k, obs) {
      var step := NextGeneration(ops, s);
      if step.outcome.Advanced? {
        var data := IterationData(k + 1, step.state.population.value);
        var s' := step.state.(context := step.state.context.(currentIteration := k));
        LoopReportsConsecutive(ops, flag, callback, k + 1, s', Notify(callback, obs, data));
      }
    }
  }

  /** `currentIteration` is untouched until a generation completes; afterwards it
      holds the index of the last completed generation, one less than the last
      iteration number reported. */
  lemma {:induction false} LoopCurrentIteration<O>(ops: Operators, flag: Flag<O>, callback: Option<Callback<O>>,
                                                   k: nat, s: EngineState, obs: O)
    requires k <= s.context.numIterations
    ensures var r := LoopFrom(ops, flag, callback, k, s, obs);
            && (r.completed == 0 ==> r.state.context == s.context)
            && (r.completed > 0 ==> r.state.context.currentIteration == k + r.completed - 1)
    decreases s.context.numIterations - k
  {
    if k < s.context.numIterations && !flag(k, obs) {
      var step := NextGeneration(ops, s);
      if step.outcome.Advanced? {
        var data := IterationData(k + 1, step.state.population.value);
        var s' := step.state.(context := step.state.context.(currentIteration := k));
        LoopCurrentIteration(ops, flag, callback, k + 1, s', Notify(callback, obs, data));
      }
    }
  }

  /** The observer's state after handing it `data` in order. */
  function NotifyAll<O>(callback: Option<Callback<O>>, obs: O, data: seq<IterationData>): O
    decreases |data|
  {
    if data == [] then obs else NotifyAll(callback, Notify(callback, obs, data[0]), data[1..])
  }

  /** The observer's final state is exactly the effect of the reported calls, in
      order: it sees no other call. */
  lemma {:induction false} LoopObserverSeesOnlyReports<O>(ops: Operators, flag: Flag<O>, callback: Option<Callback<O>>,
                                                          k: nat, s: EngineState, obs: O)
    requires k <= s.context.numIterations
    ensures var r := LoopFrom(ops, flag, callback, k, s, obs);
            r.observer == NotifyAll(callback, obs, r.reported)
    decreases s.context.numIterations - k
  {
    if k < s.context.numIterations && !flag(k, obs) {
      var step := NextGeneration(ops, s);
      if step.outcome.Advanced? {
        var data := IterationData(k + 1, step.state.population.value);
        var s' := step.state.(context := step.state.context.(currentIteration := k));
        var obs' := Notify(callback, obs, data);
        LoopObserverSeesOnlyReports(ops, flag, callback, k + 1, s', obs');
        var rest := LoopFrom(ops, flag, callback, k + 1, s', obs');
        if callback.Some? {
          var reported := [data] + rest.reported;
          assert reported[0] == data && reported[1..] == rest.reported;
          assert NotifyAll(callback, obs, reported) == NotifyAll(callback, obs', rest.reported);
        } else {
          assert [] + rest.reported == rest.reported;
        }
      }
    }
  }

  /** Started with a population, the loop never calls `next` without one: it
      never panics on the missing population and ends with a population. */
  lemma {:induction false} LoopKeepsPopulation<O>(ops: Operators, flag: Flag<O>, callback: Option<Callback<O>>,
                                                  k: nat, s: EngineState, obs: O)
    requires k <= s.context.numIterations
    requires s.population.Some?
    ensures var r := LoopFrom(ops, flag, callback, k, s, obs);
            r.termination != Panicked(UnwrapNone) && r.state.population.Some?
    decreases s.context.numIterations - k
  {
    if k < s.context.numIterations && !flag(k, obs) {
      var step := NextGeneration(ops, s);
      if step.outcome.Advanced? {
        var data := IterationData(k + 1, step.state.population.value);
        var s' := step.state.(context := step.state.context.(currentIteration := k));
        LoopKeepsPopulation(ops, flag, callback, k + 1, s', Notify(callback, obs, data));
      }
    }
  }

  /** Under the operator contracts, the loop never panics, and the population
      keeps `populationSize` rows of `numVars` columns through every generation. */
  lemma {:induction false} LoopPreservesShape<O>(ops: Operators, flag: Flag<O>, callback: Option<Callback<O>>,
                                                 k: nat, s: EngineState, obs: O)
    requires k <= s.context.numIterations
    requires GenerationContracts(ops, s.context)
    requires s.population.Some? && Shaped(s.population.value, s.context)
    ensures var r := LoopFrom(ops, flag, callback, k, s, obs);
            && !r.termination.Panicked?
            && r.state.population.Some? && Shaped(r.state.population.value, s.context)
            && (forall i :: 0 <= i < |r.reported| ==> Shaped(r.reported[i].population, s.context))
    decreases s.context.numIterations - k
  {
    if k < s.context.numIterations && !flag(k, obs) {
      var step := NextGeneration(ops, s);
      NextPreservesShape(ops, s);
      if step.outcome.Advanced? {
        var data := IterationData(k + 1, step.state.population.value);
        var s' := step.state.(context := step.state.context.(currentIteration := k));
        assert GenerationContracts(ops, s'.context) by {
          assert s'.context == s.context.(currentIteration := k);
        }
        LoopPreservesShape(ops, flag, callback, k + 1, s', Notify(callback, obs, data));
      }
    }
  }

  /** A flag that is set whenever it is polled at index `j` stops the loop by then:
      at most `j - k` generations run, the loop does not complete, and a
      cancellation happens at an index no later than `j`. */
  lemma {:induction false} LoopStopsAtRaisedFlag<O>(ops: Operators, flag: Flag<O>, callback: Option<Callback<O>>,
                                                    k: nat, s: EngineState, obs: O, j: nat)
    requires k <= j < s.context.numIterations
    requires forall o :: flag(j, o)
    ensures var r := LoopFrom(ops, flag, callback, k, s, obs);
            && k + r.completed <= j
            && !r.termination.Completed?
            && (r.termination.Cancelled? ==> r.termination.at <= j)
    decreases s.context.numIterations - k
  {
    if !flag(k, obs) {
      var step := NextGeneration(ops, s);
      if step.outcome.Advanced? {
        var data := IterationData(k + 1, step.state.population.value);
        var s' := step.state.(context := step.state.context.(currentIteration := k));
        LoopStopsAtRaisedFlag(ops, flag, callback, k + 1, s', Notify(callback, obs, data), j);
      }
    }
  }

  /** The engine's state together with the observer's state. */
  datatype Progress<O> = Progress(state: EngineState, observer: O)

  /** The engine's and the observer's state after `m` generations of the loop
      started at index `k`; meaningful for `m` up to the number of generations the
      loop completes. */
  function StateAt<O>(ops: Operators, callback: Option<Callback<O>>, k: nat, s: EngineState, obs: O, m: nat): Progress<O>
    requires k <= s.context.numIterations
    decreases m
  {
    if m == 0 || k == s.context.numIterations then Progress(s, obs)
    else
      var step := NextGeneration(ops, s);
      if step.outcome.Advanced? then
        var data := IterationData(k + 1, step.state.population.value);
        var s' := step.state.(context := step.state.context.(currentIteration := k));
        StateAt(ops, callback, k + 1, s', Notify(callback, obs, data), m - 1)
      else Progress(s, obs)
  }

  /** Every completed generation `j` was polled with the flag clear and advanced. */
  lemma {:induction false} LoopGenerationsAdvanced<O>(ops: Operators, flag: Flag<O>, callback: Option<Callback<O>>,
                                                      k: nat, s: EngineState, obs: O)
    requires k <= s.context.numIterations
    ensures var r := LoopFrom(ops, flag, callback, k, s, obs);
            forall j :: 0 <= j < r.completed ==>
              && !flag(k + j, StateAt(ops, callback, k, s, obs, j).observer)
              && NextGeneration(ops, StateAt(ops, callback, k, s, obs, j).state).outcome.Advanced?
    decreases s.context.numIterations - k
  {
    if k < s.context.numIterations && !flag(k, obs) {
      var step := NextGeneration(ops, s);
      if step.outcome.Advanced? {
        var data := IterationData(k + 1, step.state.population.value);
        var s' := step.state.(context := step.state.context.(currentIteration := k));
        var obs' := Notify(callback, obs, data);
        LoopGenerationsAdvanced(ops, flag, callback, k + 1, s', obs');
        var r := LoopFrom(ops, flag, callback, k, s, obs);
        forall j | 0 < j < r.completed
          ensures StateAt(ops, callback, k, s, obs, j) == StateAt(ops, callback, k + 1, s', obs', j - 1)
        {
        }
      }
    }
  }

  /** One step of `StateAt`: after a generation that advanced from index `k`,
      the states after `m + 1` generations are those after `m` generations of the
      loop from `k + 1`. */
  lemma StateAtAfterStep<O>(ops: Operators, callback: Option<Callback<O>>, k: nat, s: EngineState, obs: O, m: nat)
    requires k < s.context.numIterations
    requires NextGeneration(ops, s).outcome.Advanced?
    ensures var step := NextGeneration(ops, s);
            var s' := step.state.(context := step.state.context.(currentIteration := k));
            var obs' := Notify(callback, obs, IterationData(k + 1, step.state.population.value));
            StateAt(ops, callback, k, s, obs, m + 1) == StateAt(ops, callback, k + 1, s', obs', m)
  {
  }

  /** Where a loop that completed or was cancelled ends. With `p` the state after
      the completed generations, the loop ends in `p`, with the observer's state of
      `p`. A cancelled loop ended because the flag was set when polled at the
      cancellation index, and so no further generation ran. */
  lemma {:induction false} LoopEndsAfterLastGeneration<O>(ops: Operators, flag: Flag<O>, callback: Option<Callback<O>>,
                                                          k: nat, s: EngineState, obs: O)
    requires k <= s.context.numIterations
    ensures var r := LoopFrom(ops, flag, callback, k, s, obs);
            var p := StateAt(ops, callback, k, s, obs, r.completed);
            && r.observer == p.observer
            && (r.termination.Completed? || r.termination.Cancelled? ==> r.state == p.state)
            && (r.termination.Cancelled? ==> flag(r.termination.at, p.observer))
    decreases s.context.numIterations - k
  {
    if k < s.context.numIterations && !flag(k, obs) {
      var step := NextGeneration(ops, s);
      if step.outcome.Advanced? {
        var data := IterationData(k + 1, step.state.population.value);
        var s' := step.state.(context := step.state.context.(currentIteration := k));
        var obs' := Notify(callback, obs, data);
        LoopEndsAfterLastGeneration(ops, flag, callback, k + 1, s', obs');
        var rest := LoopFrom(ops, flag, callback, k + 1, s', obs');
        StateAtAfterStep(ops, callback, k, s, obs, rest.completed);
      }
    }
  }

  /** What stopped a loop that neither completed nor was cancelled. With `p` the
      state after the completed generations, the flag was clear when polled and the
      next generation from `p` failed or panicked: an early stop is that generation
      failing with `EmptyMatingResult`; a failure is it failing with any other
      error, which is passed on unchanged; a panic is it panicking. The loop ends in
      that generation's state. */
  lemma {:induction false} LoopStopCause<O>(ops: Operators, flag: Flag<O>, callback: Option<Callback<O>>,
                                            k: nat, s: EngineState, obs: O)
    requires k <= s.context.numIterations
    ensures var r := LoopFrom(ops, flag, callback, k, s, obs);
            var p := StateAt(ops, callback, k, s, obs, r.completed);
            var step := NextGeneration(ops, p.state);
            && (r.termination.EarlyStopped? || r.termination.Failed? || r.termination.Panicked? ==>
                  !flag(k + r.completed, p.observer) && r.state == step.state)
            && (r.termination.EarlyStopped? ==> step.outcome == StepFailed(Evolve(EmptyMatingResult)))
            && (r.termination.Failed? ==>
                  step.outcome == StepFailed(r.termination.error) && r.termination.error != Evolve(EmptyMatingResult))
            && (r.termination.Panicked? ==> step.outcome == StepPanicked(r.termination.reason))
    decreases s.context.numIterations - k
  {
    if k < s.context.numIterations && !flag(k, obs) {
      var step := NextGeneration(ops, s);
      if step.outcome.Advanced? {
        var data := IterationData(k + 1, step.state.population.value);
        var s' := step.state.(context := step.state.context.(currentIteration := k));
        var obs' := Notify(callback, obs, data);
        LoopStopCause(ops, flag, callback, k + 1, s', obs');
        var rest := LoopFrom(ops, flag, callback, k + 1, s', obs');
        StateAtAfterStep(ops, callback, k, s, obs, rest.completed);
      }
    }
  }

  /** Each report hands the observer the population the generation just stored:
      report `i` of a loop with an observer carries the survivors of the
      `i + 1`-th generation. */
  lemma {:induction false} LoopReportsSurvivors<O>(ops: Operators, flag: Flag<O>, callback: Option<Callback<O>>,
                                                   k: nat, s: EngineState, obs: O, i: nat)
    requires k <= s.context.numIterations && callback.Some?
    requires i < |LoopFrom(ops, flag, callback, k, s, obs).reported|
    ensures StateAt(ops, callback, k, s, obs, i + 1).state.population.Some?
    ensures LoopFrom(ops, flag, callback, k, s, obs).reported[i].population
            == StateAt(ops, callback, k, s, obs, i + 1).state.population.value
    decreases i
  {
    var step := NextGeneration(ops, s);
    var data := IterationData(k + 1, step.state.population.value);
    var s' := step.state.(context := step.state.context.(currentIteration := k));
    var obs' := Notify(callback, obs, data);
    StateAtAfterStep(ops, callback, k, s, obs, i);
    if i > 0 {
      LoopReportsSurvivors(ops, flag, callback, k + 1, s', obs', i - 1);
    }
  }

  /** An observer that ignores every call. */
  function Ignore<O>(): Callback<O> {
    (o: O, d: IterationData) => o
  }

  /** Running without an observer and running with one that ignores every call
      end the same way, in the same engine state, after the same generations. */
  lemma {:induction false} NoObserverMatchesIgnoringObserver<O>(ops: Operators, flag: Flag<O>,
                                                                k: nat, s: EngineState, obs: O)
    requires k <= s.context.numIterations
    ensures var without := LoopFrom(ops, flag, None, k, s, obs);
            var with := LoopFrom(ops, flag, Some(Ignore()), k, s, obs);
            && without.termination == with.termination
            && without.state == with.state
            && without.observer == with.observer == obs
            && without.completed == with.completed
    decreases s.context.numIterations - k
  {
    if k < s.context.numIterations && !flag(k, obs) {
      var step := NextGeneration(ops, s);
      if step.outcome.Advanced? {
        var data := IterationData(k + 1, step.state.population.value);
        var s' := step.state.(context := step.state.context.(currentIteration := k));
        assert Notify(Some(Ignore()), obs, data) == obs;
        NoObserverMatchesIgnoringObserver(ops, flag, k + 1, s', obs);
      }
    }
  }

  // ---------------------------------------------------------------- whole runs

  /** A failed initialization is returned before any generation: nothing is
      reported and the population and context are left as they were. */
  lemma RunInitializationFailure<O>(ops: Operators, flag: Flag<O>, callback: Option<Callback<O>>,
                                    s: EngineState, obs: O)
    requires ops.initialize(s.context, s.rng).0.Err?
    ensures var r := CancellableRun(ops, flag, callback, s, obs);
            && r.termination == Failed(Initialization(ops.initialize(s.context, s.rng).0.error))
            && r.completed == 0 && r.reported == [] && r.observer == obs
            && r.state.population == s.population && r.state.context == s.context
  {
  }

  /** After a successful initialization the population is set before the loop, so
      `next` never meets a missing population, and the run ends with one. */
  lemma RunNeverUnwrapsNone<O>(ops: Operators, flag: Flag<O>, callback: Option<Callback<O>>,
                               s: EngineState, obs: O)
    ensures var r := CancellableRun(ops, flag, callback, s, obs);
            && r.termination != Panicked(UnwrapNone)
            && (ops.initialize(s.context, s.rng).0.Ok? ==> r.state.population.Some?)
  {
    if ops.initialize(s.context, s.rng).0.Ok? {
      LoopKeepsPopulation(ops, flag, callback, 0, InitializedState(ops, s), obs);
    }
  }

  /** The bookkeeping of a run: the observer sees iterations 1, 2, ..., k in order,
      one per completed generation, with k at most `numIterations`; after k >= 1
      generations `currentIteration` is k - 1; a cancelled or early-stopped run
      stopped at loop index k, and a completed run ran all `numIterations`. */
  lemma RunBookkeeping<O>(ops: Operators, flag: Flag<O>, callback: Option<Callback<O>>,
                          s: EngineState, obs: O)
    ensures var r := CancellableRun(ops, flag, callback, s, obs);
            && r.completed <= s.context.numIterations
            && (callback.Some? ==> |r.reported| == r.completed)
            && (callback.None? ==> r.reported == [])
            && (forall i :: 0 <= i < |r.reported| ==> r.reported[i].iteration == i + 1)
            && r.observer == NotifyAll(callback, obs, r.reported)
            && (r.completed == 0 ==> r.state.context == s.context)
            && (r.completed > 0 ==> r.state.context.currentIteration == r.completed - 1)
            && (r.termination.Completed? ==> r.completed == s.context.numIterations)
            && (ops.initialize(s.context, s.rng).0.Ok? && r.completed == s.context.numIterations ==> r.termination.Completed?)
            && (r.termination.Cancelled? ==> r.termination.at == r.completed)
            && (r.termination.EarlyStopped? ==> r.termination.at == r.completed)
  {
    if ops.initialize(s.context, s.rng).0.Ok? {
      var s0 := InitializedState(ops, s);
      LoopGenerations(ops, flag, callback, 0, s0, obs);
      LoopReportsConsecutive(ops, flag, callback, 0, s0, obs);
      LoopCurrentIteration(ops, flag, callback, 0, s0, obs);
      LoopObserverSeesOnlyReports(ops, flag, callback, 0, s0, obs);
    }
  }

  /** What ended a run and in which state. An initialization error ends it with
      that error. Otherwise, with `p` the state after the completed generations:
      a completed or cancelled run ends in `p`, a cancelled one because the flag
      was set when polled; an early stop is the next generation failing with
      `EmptyMatingResult`, and ends with `Ok`; a failure is the next generation
      failing with any other error, returned unchanged as `Err`; a panic is that
      generation panicking. So an `Err` never carries `EmptyMatingResult`. */
  lemma RunStopCause<O>(ops: Operators, flag: Flag<O>, callback: Option<Callback<O>>, s: EngineState, obs: O)
    ensures var r := CancellableRun(ops, flag, callback, s, obs);
            var x := ExitOf(r.termination);
            && (x.Returned? && x.result.Err? ==> x.result.error != Evolve(EmptyMatingResult))
            && (r.termination.EarlyStopped? ==> x == Returned(Ok(())))
            && (ops.initialize(s.context, s.rng).0.Err? ==>
                  x == Returned(Err(Initialization(ops.initialize(s.context, s.rng).0.error))))
            && (ops.initialize(s.context, s.rng).0.Ok? ==>
                  var p := StateAt(ops, callback, 0, InitializedState(ops, s), obs, r.completed);
                  var step := NextGeneration(ops, p.state);
                  && r.observer == p.observer
                  && (r.termination.Completed? || r.termination.Cancelled? ==> r.state == p.state)
                  && (r.termination.Cancelled? ==> flag(r.termination.at, p.observer))
                  && (r.termination.EarlyStopped? ==>
                        step.outcome == StepFailed(Evolve(EmptyMatingResult)) && r.state == step.state)
                  && (r.termination.Failed? ==>
                        x == Returned(Err(r.termination.error))
                        && step.outcome == StepFailed(r.termination.error) && r.state == step.state)
                  && (r.termination.Panicked? ==>
                        step.outcome == StepPanicked(r.termination.reason) && r.state == step.state))
  {
    if ops.initialize(s.context, s.rng).0.Ok? {
      LoopEndsAfterLastGeneration(ops, flag, callback, 0, InitializedState(ops, s), obs);
      LoopStopCause(ops, flag, callback, 0, InitializedState(ops, s), obs);
    }
  }

  /** Under the operator contracts a run never panics, and a run whose
      initialization succeeded ends with a population of the run's shape. */
  lemma RunHonouringContractsNeverPanics<O>(ops: Operators, flag: Flag<O>, callback: Option<Callback<O>>,
                                            s: EngineState, obs: O)
    requires HonoursContracts(ops, s.context)
    ensures var r := CancellableRun(ops, flag, callback, s, obs);
            && !r.termination.Panicked?
            && (ops.initialize(s.context, s.rng).0.Ok? ==>
                  r.state.population.Some? && Shaped(r.state.population.value, s.context))
  {
    if ops.initialize(s.context, s.rng).0.Ok? {
      assert Shaped(InitializedState(ops, s).population.value, s.context);
      LoopPreservesShape(ops, flag, callback, 0, InitializedState(ops, s), obs);
    }
  }

  /** A plain run is never cancelled and reports nothing. */
  lemma {:induction false} PlainRunNeverCancelled(ops: Operators, s: EngineState)
    ensures var r := PlainRun(ops, s);
            !r.termination.Cancelled? && r.reported == []
  {
    if ops.initialize(s.context, s.rng).0.Ok? {
      PlainLoopNeverCancelled(ops, 0, InitializedState(ops, s));
    }
  }

  lemma {:induction false} PlainLoopNeverCancelled(ops: Operators, k: nat, s: EngineState)
    requires k <= s.context.numIterations
    ensures var r := LoopFrom(ops, NeverSet(), None, k, s, ());
            !r.termination.Cancelled? && r.reported == []
    decreases s.context.numIterations - k
  {
    if k < s.context.numIterations {
      var step := NextGeneration(ops, s);
      if step.outcome.Advanced? {
        var s' := step.state.(context := step.state.context.(currentIteration := k));
        PlainLoopNeverCancelled(ops, k + 1, s');
      }
    }
  }
}
