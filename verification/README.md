# Metaheuristic searches over the detector scale factor

The repository tunes one real parameter: the scale factor handed to a face
detector. It offers four searches, each of which asks a fitness function for
a (confidence, predicted name) pair:

- hill climbing (`code/hill_climb.py`),
- simulated annealing (`code/simulated_annealing.py`),
- a genetic algorithm (`code/genetic_algorithm.py`),
- particle swarm optimisation (`code/particle_swarm_optimisation.py`).

This project models the control logic of those four functions in Dafny and
proves what they promise. Each search is modelled in three layers:

- a specification function, or a function of the whole run, written over
  the random draws;
- an imperative method that follows the Python loop and is proved equal to
  that function;
- lemmas about the function: monotone best values, preserved bounds, trace
  lengths, termination, the selection order and the exceptions.

The model has these parts:

- **Evaluator.** The fitness function is the parameter
  `eval: real -> Score`, where `Score(confidence, name)` is the pair that
  `code/fitness_function.py` returns.
  - Hill climbing and the genetic algorithm compare whole pairs, as Python
    compares tuples (`Scoring.Less`).
  - Simulated annealing and the swarm unpack the pair and compare the
    confidence only.
- **Randomness.** Every random number is an explicit input:
  - a `random.random()` draw in [0, 1), with `random.uniform(a, b)` computed
    from it as CPython does;
  - a `random.randint(0, 100)` value;
  - a `random.choice` index into the breeding pool.
- **`math.exp`.** Simulated annealing's two uses of `math.exp` are function
  parameters:
  - the temperature schedule `temperature(i)`;
  - the acceptance probability `acceptance(diff, temp)`.
- **Python exceptions.** An exception that the code can raise is a `Result`
  error:
  - annealing: the unbound `best_prediction`, and division by a zero
    temperature;
  - the genetic algorithm: `random.choice` on an empty pool, `max` over an
    empty range, and the unbound `fitness_scores`;
  - the swarm: `particles[0]` on an empty swarm.
- **Module layout.**
  - `Scoring` holds the score, its order, `Max`, `Uniform` and `Clamp`.
  - `Traces` holds the generic trace of a step function over a sequence of
    draws.
  - `HillClimb`, `Annealing`, `Genetic` and `Swarm` hold one search each.
  - `Wrappers` holds `Option` and `Result`.

Where the source's own comments promise more than its code does, the model
follows the code:

- code/simulated_annealing.py:25 says the best state is initialised to the
  current state, but only the best parameter and fitness are; the best
  prediction stays unbound until an iteration improves.
- code/genetic_algorithm.py:16 calls `mutation_rate` the probability of
  mutation, but a rate of 1 skips the mutation when `randint` draws 100
  (`Genetic.FullRateCanSkipMutation`).
- code/genetic_algorithm.py:86 says the fittest individual of the final
  population is returned, but the code pairs a member of the final
  population with the previous generation's score.

Two further facts about the code:

- Hill climbing never clamps the scale factor (`HillClimb.ParamCanLeaveRange`).
- Tuple comparison lets the failed-evaluation result (0, "undefined") win
  over a zero-confidence result (`HillClimb.DegenerateCanReplace`).

## Model

| member | source | states |
|---|---|---|
| Scoring.StrLessIrreflexive | code/hill_climb.py:55 | no name is smaller than itself under Python's string `<` |
| Scoring.StrLessTransitive | code/hill_climb.py:55 | Python's string `<` is transitive |
| Scoring.StrLessTotal | code/hill_climb.py:55 | two different names are ordered one way or the other |
| Scoring.StrLess | code/hill_climb.py:55 | Python's `<` on str: code point by code point, a proper prefix first; its order properties are the three lemmas above |
| Scoring.LessIrreflexive | code/hill_climb.py:55 | no fitness tuple is strictly greater than itself |
| Scoring.LessTransitive | code/hill_climb.py:55 | the tuple order is transitive |
| Scoring.LessAsymmetric | code/hill_climb.py:55 | two tuples cannot each be greater than the other |
| Scoring.LessTotal | code/hill_climb.py:55 | two different tuples are ordered one way or the other |
| Scoring.NotLessTransitive | code/hill_climb.py:55 | "not less than" is transitive, so "never decreases" composes along a run |
| Scoring.Less | code/hill_climb.py:55 | Python's `<` on the (confidence, name) tuple: lexicographic; irreflexive, transitive, asymmetric and total by the lemmas above |
| Scoring.Max | code/hill_climb.py:52 | `max(a, b)` is one of its arguments and is at least both; it is `b` only when `b` is strictly greater |
| Scoring.Uniform | code/hill_climb.py:18 | `random.uniform(lo, hi)` lies between its bounds, in either order, for any draw in [0, 1) |
| Scoring.Clamp | code/particle_swarm_optimisation.py:66-70 | `max(min(x, hi), lo)` lies in [lo, hi]; it is x inside the interval and the nearer bound outside it |
| Traces.Trace | code/hill_climb.py:25-61 | a recorded trace holds the start followed by one state per draw |
| Traces.TraceAt | code/hill_climb.py:37-61 | each trace entry is one step, with the next draw, from the entry before |
| HillClimb.Step | code/hill_climb.py:44-57 | the fitness never decreases and changes only on strict improvement; a move goes to a neighbour with that neighbour's fitness, which is the larger of the two; a strictly better neighbour is never ignored; on equal neighbour fitness the minus-step neighbour wins |
| HillClimb.StepDraw | code/hill_climb.py:39 | the drawn step is at most the step size in absolute value |
| HillClimb.Run | code/hill_climb.py:25-61 | the trace has one initial entry plus one per iteration |
| HillClimb.RunAt | code/hill_climb.py:37-61 | trace entry k + 1 is one step, with draw k, from entry k |
| HillClimb.RunExtends | code/hill_climb.py:60-61 | one more iteration appends exactly one state to the trace |
| HillClimb.StepWithinStepSize | code/hill_climb.py:39-57 | an iteration moves the scale factor by at most the step size |
| HillClimb.RunMonotone | code/hill_climb.py:52-57 | the recorded fitness never decreases along the trace |
| HillClimb.RunMovesAtMostStepSize | code/hill_climb.py:39-61 | consecutive recorded scale factors differ by at most the step size |
| HillClimb.ParamCanLeaveRange | code/hill_climb.py:44-56 | nothing clamps the scale factor: a better fitness at 2.1 is taken from 2.0 |
| HillClimb.DegenerateCanReplace | code/hill_climb.py:52-57 | the failed-evaluation tuple (0, "undefined") beats (0, "bob") and is adopted |
| HillClimb.ClimbIteration | code/hill_climb.py:41-57 | the loop body, with its fitness-keyed table, computes exactly `Step` |
| HillClimb.HillClimbing | code/hill_climb.py:18-85 | both lists have max_iterations + 1 entries and start in [1, 2]; entry k is state k of the run; the returned pair is the last entry; recorded fitness never decreases |
| Annealing.ExecutedFrom | code/simulated_annealing.py:40-92 | from a given iteration, the loop runs up to and including the first cold iteration and never past the budget |
| Annealing.Executed | code/simulated_annealing.py:40-92 | at most max_iterations iterations run, none when the budget is 0; all but the last run warm; stopping early means the last was cold |
| Annealing.ExecutedBeyond | code/simulated_annealing.py:89-92 | an iteration with no cold iteration before it runs |
| Annealing.ExecutedExactly | code/simulated_annealing.py:40-92 | iteration i runs iff no earlier iteration was below the stopping temperature |
| Annealing.ExecutedAt | code/simulated_annealing.py:89-92 | the run stops after the first cold iteration, or after the budget |
| Annealing.Cold | code/simulated_annealing.py:89 | the stop test `temp < stopping_temp`; `Executed` and `ExecutedExactly` state when it ends the loop |
| Annealing.Accepts | code/simulated_annealing.py:50-69 | a better candidate is accepted; a non-better one raises at temperature 0; with fitness 0 it is never accepted; otherwise it is accepted iff the draw is below exp(diff / temp) |
| Annealing.Start | code/simulated_annealing.py:22-27 | current and best start at the initial parameter and its fitness, with no best prediction bound |
| Annealing.Iterate | code/simulated_annealing.py:43-75 | raises iff the temperature is 0 and the candidate is not better; a better candidate is always taken; a zero-fitness candidate never replaces a non-negative state; best ≥ current; best never decreases; values stay in [1, 2]; states stay consistent with the evaluator; the best prediction is kept or becomes the current one |
| Annealing.AnnealingIteration | code/simulated_annealing.py:43-75 | the loop body computes exactly `Iterate` |
| Annealing.Anneal | code/simulated_annealing.py:40-81 | a completed run of m iterations records m + 1 states starting with the initial one; the only exception raised is division by a zero temperature |
| Annealing.AnnealPrefix | code/simulated_annealing.py:40-81 | a longer completed run passes through every shorter run's states |
| Annealing.AnnealAt | code/simulated_annealing.py:40-81 | state k + 1 is one iteration from state k |
| Annealing.AnnealExtend | code/simulated_annealing.py:78-81 | an iteration that does not raise appends one state |
| Annealing.AnnealErrPersists | code/simulated_annealing.py:61 | an exception ends the run: no longer run completes |
| Annealing.AnnealBestDominates | code/simulated_annealing.py:26-27 | the best fitness is at least the current fitness in every state |
| Annealing.AnnealBestMonotone | code/simulated_annealing.py:72-75 | the best fitness never decreases |
| Annealing.AnnealInRange | code/simulated_annealing.py:46-73 | current and best parameter stay in [1, 2] when the start is there |
| Annealing.AnnealConsistent | code/simulated_annealing.py:47-75 | every state's fitness values and predictions are the evaluator's for its parameters |
| Annealing.BoundIffImproved | code/simulated_annealing.py:72-75 | the best prediction is bound exactly when the best fitness has risen above the initial one |
| Annealing.AnnealKeepsBound | code/simulated_annealing.py:72-75 | once bound, the best prediction stays bound |
| Annealing.Report | code/simulated_annealing.py:78-97 | the four lists hold, entry by entry, the states' parameter, fitness, best parameter and best fitness; the returned triple is the last best |
| Annealing.RunTraces | code/simulated_annealing.py:34-81 | the lists start with the initial state; the best fitness never decreases and is never below the current one; the returned best is consistent with the evaluator; parameters stay in [1, 2] |
| Annealing.Outcome | code/simulated_annealing.py:9-97 | the as-written function of the draws; a successful run records the initial state plus one state per executed iteration; its failures are stated by `UnboundUnlessFirstImproves` and its traces by `OutcomeTraces` |
| Annealing.OutcomeTraces | code/simulated_annealing.py:34-97 | a successful run returns lists of iterations + 1 entries; best fitness never decreases and is above the initial fitness; the returned triple is consistent with the evaluator |
| Annealing.UnboundUnlessFirstImproves | code/simulated_annealing.py:72-97 | as written, the run fails on the unbound best prediction iff no iteration runs or the first iteration does not raise the best fitness |
| Annealing.ConstantEvaluatorUnbound | code/simulated_annealing.py:72-86 | a constant evaluator with one iteration ends in the unbound best prediction |
| Annealing.SeededStart | code/simulated_annealing.py:22-27 | the corrected start binds the best prediction to the initial prediction |
| Annealing.SeededOutcome | code/simulated_annealing.py:22-97 | with the seeded start the only possible exception is division by a zero temperature |
| Annealing.AnnealNoZeroTemperature | code/simulated_annealing.py:61 | without a zero temperature no iteration raises |
| Annealing.SeededOutcomeTraces | code/simulated_annealing.py:22-97 | the seeded run succeeds whenever no temperature is zero, and its best fitness never decreases and is consistent with the evaluator |
| Annealing.IterateIgnoresBestPrediction | code/simulated_annealing.py:43-75 | the best prediction does not influence an iteration's other results |
| Annealing.AnnealIgnoresBestPrediction | code/simulated_annealing.py:40-81 | runs from starts differing only in the best prediction stay alike and coincide once the best fitness rises |
| Annealing.SeededAgrees | code/simulated_annealing.py:22-97 | whenever the as-written run succeeds, the corrected run returns exactly the same result |
| Annealing.RecordedAppend | code/simulated_annealing.py:78-81 | appending one state to each list keeps the lists matching the states |
| Annealing.ReportIs | code/simulated_annealing.py:78-97 | lists built by appending are the lists of `Report` |
| Annealing.LoopStart | code/simulated_annealing.py:22-37 | the loop state holds before the first iteration |
| Annealing.LoopStep | code/simulated_annealing.py:40-94 | a warm iteration that binds the best prediction keeps the loop going with one more recorded state |
| Annealing.LoopRaised | code/simulated_annealing.py:61 | a raising iteration makes the run end in that exception |
| Annealing.LoopUnbound | code/simulated_annealing.py:86 | an iteration that leaves the best prediction unbound is the first, and the run ends in that exception |
| Annealing.LoopStopped | code/simulated_annealing.py:89-97 | a cold iteration ends the loop and the run returns the lists so far |
| Annealing.OutcomeCompleted | code/simulated_annealing.py:96-97 | a completed run with a bound best prediction returns its best triple and lists |
| Annealing.LoopExhausted | code/simulated_annealing.py:40-97 | after the whole budget the run returns, unless no iteration ran |
| Annealing.SimulatedAnnealing | code/simulated_annealing.py:9-97 | the imperative loop returns exactly the run's outcome, exceptions included |
| Genetic.InitialPopulation | code/genetic_algorithm.py:22 | population_size values, each `random.uniform(1, 2)`, all in [1, 2] |
| Genetic.Scores | code/genetic_algorithm.py:41 | one fitness tuple per individual, in population order |
| Genetic.BeforeIrreflexive | code/genetic_algorithm.py:46-47 | no index ranks before itself |
| Genetic.BeforeTransitive | code/genetic_algorithm.py:46-47 | the ranking order is transitive |
| Genetic.BeforeTotal | code/genetic_algorithm.py:46-47 | two different indices are ranked one way or the other |
| Genetic.Before | code/genetic_algorithm.py:46-47 | the order of the stable descending sort: higher score first, lower index first on equal scores; a strict total order by the three lemmas above |
| Genetic.Insert | code/genetic_algorithm.py:46-47 | inserting an index adds exactly that index |
| Genetic.InsertOrdered | code/genetic_algorithm.py:46-47 | insertion into a ranked list keeps it ranked |
| Genetic.RankPrefix | code/genetic_algorithm.py:46-47 | the ranking of the first n indices is a permutation of them |
| Genetic.Ranking | code/genetic_algorithm.py:46-47 | the ranking lists every index once |
| Genetic.RankingSorts | code/genetic_algorithm.py:46-47 | the ranking is descending by fitness, and equal fitness keeps index order (a stable sort) |
| Genetic.RankingMembers | code/genetic_algorithm.py:46-47 | an index is ranked iff it is an index of the population |
| Genetic.FittestIndices | code/genetic_algorithm.py:46-47 | the pool indices are `int(population_size / 2)` valid indices |
| Genetic.Pool | code/genetic_algorithm.py:48 | the breeding pool has `int(population_size / 2)` members, the individuals at the pool indices |
| Genetic.PoolSelection | code/genetic_algorithm.py:46-48 | every pool member ranks before every excluded individual, so its fitness is at least theirs, and ties keep the lower index |
| Genetic.PoolEmptyIff | code/genetic_algorithm.py:46-53 | the pool is empty exactly when there are fewer than two individuals |
| Genetic.OffspringBounds | code/genetic_algorithm.py:53-59 | a mutated offspring is a fresh value in [1, 2]; any other lies between its two parents |
| Genetic.MutationByRate | code/genetic_algorithm.py:58 | a rate of 0 or below never mutates; a rate above 1 always does |
| Genetic.FullRateCanSkipMutation | code/genetic_algorithm.py:58 | a rate of exactly 1 does not mutate when `randint` draws 100 |
| Genetic.Mutates | code/genetic_algorithm.py:58 | the mutation test `mutation_rate > randint(0, 100) / 100`; `MutationByRate` and `FullRateCanSkipMutation` state its extremes |
| Genetic.Offspring | code/genetic_algorithm.py:53-59 | one child: the mean of the two chosen pool members, replaced by a fresh `uniform(1, 2)` when it mutates; bounded by `OffspringBounds` |
| Genetic.NextGeneration | code/genetic_algorithm.py:46-63 | a generation raises exactly for a population of one, because it chooses from an empty pool; otherwise it has as many offspring as individuals |
| Genetic.NextGenerationFrom | code/genetic_algorithm.py:51-61 | each offspring is a mutation or the mean of two pool members |
| Genetic.NextGenerationInRange | code/genetic_algorithm.py:51-63 | a population in [1, 2] breeds a generation in [1, 2] |
| Genetic.Breed | code/genetic_algorithm.py:46-61 | the breeding loop computes exactly `NextGeneration`, raising on an empty pool |
| Genetic.Evolve | code/genetic_algorithm.py:38-63 | the population after g generations or the exception that ended the run; `EvolveStep`, `EvolveFailsIff`, `EvolveNext` and `EvolveInRange` state its properties |
| Genetic.EvolveStep | code/genetic_algorithm.py:38-63 | generation g + 1 is one breeding step from generation g |
| Genetic.EvolveFailsIff | code/genetic_algorithm.py:38-63 | every generation keeps the population size, and a run raises iff the population has one individual and a generation runs |
| Genetic.EvolveNext | code/genetic_algorithm.py:51-63 | a generation that has not raised is replaced by the one bred from it |
| Genetic.EvolveInRange | code/genetic_algorithm.py:22-63 | every generation stays in [1, 2] |
| Genetic.ArgMaxPrefix | code/genetic_algorithm.py:87-88 | `max(range(n), key=...)` is a maximal index, the first among equal maxima |
| Genetic.ArgMax | code/genetic_algorithm.py:87-88 | the chosen index has the highest score, and every earlier index a strictly lower one |
| Genetic.Outcome | code/genetic_algorithm.py:22-91 | the as-written function of the draws returns exactly when there are at least two individuals and at least one generation; `OutcomeErrors` and `OutcomeFittest` state the exceptions and the result |
| Genetic.OutcomeErrors | code/genetic_algorithm.py:22-91 | population 0 fails in `max`; population 1 fails in `random.choice`; no generations leaves `fitness_scores` unbound; otherwise the run succeeds |
| Genetic.OutcomeFittest | code/genetic_algorithm.py:87-91 | the result is the individual of the final population at the first index of the highest score of the previous generation, paired with that score; it lies in [1, 2] and no previous score is higher |
| Genetic.EchoPool | code/genetic_algorithm.py:46-48 | with fitness 1.0 and 1.5 the pool holds 1.5 only |
| Genetic.EchoGeneration | code/genetic_algorithm.py:51-63 | with rate 1, a `randint` of 100 keeps the parents' mean and a 0 mutates |
| Genetic.StaleFitness | code/genetic_algorithm.py:41-91 | as written, the run can return the parameter 1.0 with the fitness 1.5 that belonged to the individual it replaced |
| Genetic.FreshOutcome | code/genetic_algorithm.py:87-91 | the corrected result's fitness is the evaluation of its parameter |
| Genetic.FreshOutcomeFittest | code/genetic_algorithm.py:87-91 | the corrected result is a member of the final population, in [1, 2], with the highest fitness in it |
| Genetic.GenerationsStep | code/genetic_algorithm.py:38-63 | a generation bred without error advances the loop state and keeps the scores it was bred from |
| Genetic.GenerationsFail | code/genetic_algorithm.py:53 | a raising generation makes the whole run raise the empty-pool exception |
| Genetic.GenerationsOutcome | code/genetic_algorithm.py:87-91 | after the loop, the run's result is determined by the last population and the last computed scores |
| Genetic.Generate | code/genetic_algorithm.py:22-63 | the generation loop ends in the run's exception, or with the final population and the scores of the generation before it |
| Genetic.GeneticAlgorithm | code/genetic_algorithm.py:8-91 | the imperative function returns exactly the run's outcome, exceptions included |
| Swarm.InitialState | code/particle_swarm_optimisation.py:20-30 | a new particle starts in [1, 2] with a velocity in [-0.1, 0.1], and its own position and fitness as its best |
| Swarm.NewVelocity | code/particle_swarm_optimisation.py:64-65 | the unlimited velocity: inertia 0.5, pull 1.5·r1 to the personal best and 2.0·r2 to the global best; `MoveState` limits it |
| Swarm.InitialStates | code/particle_swarm_optimisation.py:20-33 | one initial particle per spawn draw, in order |
| Swarm.Particle.constructor | code/particle_swarm_optimisation.py:21-30 | a created particle record is `InitialState` of its draws |
| Swarm.MoveState | code/particle_swarm_optimisation.py:64-78 | the new velocity is `NewVelocity` limited to [-0.1, 0.1], and the new position is the old one plus that velocity limited to [1, 2], which is the plain sum when it lies in [1, 2]; the personal best never decreases; it is replaced by the new position and fitness exactly when that fitness is strictly greater |
| Swarm.Particle.Move | code/particle_swarm_optimisation.py:61-78 | the in-place update of one particle record is `MoveState`, and it reports the fitness at the new position |
| Swarm.MoveTracked | code/particle_swarm_optimisation.py:69-78 | a move keeps the personal best equal to the evaluation of the personal best position, in [1, 2] |
| Swarm.Scan | code/particle_swarm_optimisation.py:88-92 | the scan never lowers the global best, leaves it at least every scanned personal best, and changes it only upward |
| Swarm.ScanFrom | code/particle_swarm_optimisation.py:88-92 | after the scan the global best is the one before it or some particle's personal best |
| Swarm.Sweep | code/particle_swarm_optimisation.py:60-78 | every particle moves with the global best as it stood before the sweep |
| Swarm.Iteration | code/particle_swarm_optimisation.py:60-92 | an iteration keeps the number of particles |
| Swarm.Run | code/particle_swarm_optimisation.py:56-95 | a run keeps the number of particles |
| Swarm.RunStep | code/particle_swarm_optimisation.py:56-95 | iteration i moves the swarm after i iterations to the swarm after i + 1 |
| Swarm.Recorded | code/particle_swarm_optimisation.py:81-95 | the swarm recorded by an iteration has every particle |
| Swarm.History | code/particle_swarm_optimisation.py:81-95 | n iterations record n swarms, the one after each iteration |
| Swarm.GlobalPositions | code/particle_swarm_optimisation.py:94 | `global_best_positions` holds one global best position per recorded iteration |
| Swarm.GlobalFitnesses | code/particle_swarm_optimisation.py:95 | `global_best_fitnesses` holds one global best fitness per recorded iteration |
| Swarm.ParticlePositions | code/particle_swarm_optimisation.py:81 | `particle_positions[j]` holds particle j's position after each iteration |
| Swarm.ParticleFitnesses | code/particle_swarm_optimisation.py:82 | `particle_fitnesses[j]` holds the fitness at particle j's position after each iteration |
| Swarm.RecordAppend | code/particle_swarm_optimisation.py:81-95 | one more iteration appends exactly one entry to every list |
| Swarm.IterationMonotone | code/particle_swarm_optimisation.py:73-92 | an iteration lowers neither the global best nor any personal best, and leaves the global best at least every personal best |
| Swarm.IterationKeeps | code/particle_swarm_optimisation.py:60-92 | an iteration keeps every particle's best tracked and the global best equal to some particle's personal best |
| Swarm.RunCoherent | code/particle_swarm_optimisation.py:56-92 | every swarm along the run is coherent in that sense |
| Swarm.RunMonotone | code/particle_swarm_optimisation.py:56-92 | the global best and every personal best never decrease across iterations |
| Swarm.RunDominates | code/particle_swarm_optimisation.py:88-92 | after each scan the global best is at least every personal best |
| Swarm.RunVelocities | code/particle_swarm_optimisation.py:64-66 | after an iteration every velocity lies in [-0.1, 0.1] |
| Swarm.Initial | code/particle_swarm_optimisation.py:20-39 | the initial swarm has one particle per draw, each tracked and with a velocity in [-0.1, 0.1] |
| Swarm.InitialCoherent | code/particle_swarm_optimisation.py:37-39 | taking particle 0's personal best as the global best gives a coherent swarm |
| Swarm.Outcome | code/particle_swarm_optimisation.py:8-163 | the function of the draws fails exactly on an empty swarm, with `NoParticles`, and otherwise records one global entry per iteration; `OutcomeShape`, `OutcomeBest` and `OutcomeTraces` state the rest |
| Swarm.RecordingStart | code/particle_swarm_optimisation.py:42-45 | the empty lists record zero iterations |
| Swarm.RecordingStep | code/particle_swarm_optimisation.py:81-95 | appending the iteration's values keeps the lists matching the history |
| Swarm.OutcomeIs | code/particle_swarm_optimisation.py:56-163 | a completed loop with the lists of its history is the run's outcome |
| Swarm.OutcomeShape | code/particle_swarm_optimisation.py:37-95 | the run fails iff the swarm is empty; otherwise every list has one entry per iteration and the last global entry is the returned best |
| Swarm.OutcomeBest | code/particle_swarm_optimisation.py:88-163 | the returned best lies in [1, 2], is the evaluation of its position, is some particle's personal best, and is at least every final personal best |
| Swarm.OutcomeTraces | code/particle_swarm_optimisation.py:69-95 | the recorded global best fitness never decreases, and every recorded position lies in [1, 2] |
| Swarm.SweepParticles | code/particle_swarm_optimisation.py:60-82 | the sweep moves every particle record with the pre-sweep global best and appends its position and fitness to its lists |
| Swarm.ScanParticles | code/particle_swarm_optimisation.py:88-92 | the scan loop computes exactly `Scan` |
| Swarm.CreateParticles | code/particle_swarm_optimisation.py:18-33 | one fresh, distinct particle record per draw, each `InitialState` of its draw |
| Swarm.SwarmIteration | code/particle_swarm_optimisation.py:57-95 | one pass of the main loop leaves the records, the global best and the lists as `Iteration` says |
| Swarm.ParticleSwarmOptimization | code/particle_swarm_optimisation.py:8-163 | the imperative function returns exactly the run's outcome, exceptions included |

## Left out

- **Output, files and user interface.** All plotting, printing, `datetime`
  and `os.makedirs` are left out. They produce output only, except for the
  calls below that raise.
  - So are the module-level drivers and the `main` functions.
  - So is the genetic algorithm's `mode`, which only chooses between showing
    and saving its plots.
  - So is `initial_fitness_scores` (code/genetic_algorithm.py:24), which is
    only printed.
- **Genetic-algorithm scatter plot.** code/genetic_algorithm.py:68 passes
  `fitness_scores`, a list of (confidence, name) tuples, to `plt.scatter`.
  Read against matplotlib (nothing was executed), that call raises
  `ValueError` because x and y differ in size, in the first generation of
  any run with two or more individuals. The model describes the algorithm
  as if line 68 succeeded.
- **Hill-climbing prints.** code/hill_climb.py:22 and :64 format the fitness
  tuple with `:.4f`, which raises `TypeError` for a tuple. The model omits
  these prints and describes the search as if they succeeded.
- **Trace lists as outputs.** `HillClimb.HillClimbing` and
  `Swarm.ParticleSwarmOptimization` return the trace lists as outputs. In
  the source those lists are only plotted; there, hill climbing returns the
  final pair and the swarm returns the global best triple.
- **Randomness.**
  - Random numbers are explicit inputs, so nothing statistical is claimed.
  - The draws are grouped per use: in the genetic algorithm, for example,
    the draw behind a mutation's `uniform(1, 2)` is given even when no
    mutation happens. The order in which one shared generator would hand
    them out is not modelled.
- **`math.exp` and the schedule.** Neither is computed. The schedule
  `init_temp * exp(-cool_rate * i)` and the probability `exp(diff / temp)`
  are supplied as functions.
  - An `OverflowError` from `exp` for a negative temperature is not modelled.
- **Floating point.** Floating-point rounding, infinities and NaN are not
  modelled; arithmetic is on `real`.
- **Evaluator.** The face recogniser behind the evaluator is an opaque
  function. This covers `code/basic_face_recognition.py` and
  `code/fitness_function.py`.
- **Negative counts.** Iteration, particle and population counts are
  natural numbers. Python would treat a negative count as an empty range.
- **Draw-count guards.** `Swarm.Advance` and `Genetic.Breeder` leave the
  state unchanged when a draw sequence does not match the population. Every
  caller's precondition rules that case out.
- Annealing.Iterate, HillClimb.HillClimbing, Genetic.OutcomeFittest and
  Swarm.OutcomeBest require the `random()` draws to lie in [0, 1), as the
  generator guarantees; other draws are not modelled.

## Findings

| source | as written | input that shows it | evidently intended | confidence | as-written member | corrected member |
|---|---|---|---|---|---|---|
| code/simulated_annealing.py:72-97 | `best_prediction` is assigned only when an iteration raises the best fitness, but it is read after every iteration and returned | a constant evaluator, one iteration: the run raises `UnboundLocalError` | the best prediction starts as the initial prediction, like the best parameter and fitness | high (not executed) | Annealing.UnboundUnlessFirstImproves | Annealing.SeededOutcomeTraces |
| code/genetic_algorithm.py:41-91 | the index of the best of the last computed scores picks the parameter from the population that replaced them | evaluator confidence = scale factor, population [1.0, 1.5], rate 1, `randint` draws 100 then 0: returns 1.0 with the fitness 1.5 | the fittest individual of the final population, with its own fitness | high (not executed) | Genetic.StaleFitness | Genetic.FreshOutcomeFittest |
