/**
  Hill climbing over the detector scale factor (code/hill_climb.py, `hill_climbing`).

  The evaluator is the function parameter `eval`; every `random.uniform` call is
  given by its underlying `random.random()` draw in [0, 1).
 */
module HillClimb {
  import opened Scoring
  import opened Traces

  /** The search state: the current scale factor and the fitness tuple recorded for it. */
  datatype Climber = Climber(param: real, fitness: Score)

  function Abs(x: real): real
  {
    if x < 0.0 then -x else x
  }

  /**
    One iteration for a given step: evaluate both neighbours, take the larger
    fitness, and move there only if it is strictly better than the current one.
    On a tie between the neighbours the minus-step neighbour is chosen.
   */
  function Step(eval: real -> Score, cur: Climber, step: real): (next: Climber)
    // the fitness never decreases, and it changes only on strict improvement
    ensures !Less(next.fitness, cur.fitness)
    ensures next == cur || Less(cur.fitness, next.fitness)
    // a move goes to one of the two neighbours, with that neighbour's fitness
    ensures next != cur ==>
      next == Climber(cur.param + step, eval(cur.param + step)) ||
      next == Climber(cur.param - step, eval(cur.param - step))
    // ... and to the better of the two
    ensures next != cur ==>
      !Less(next.fitness, eval(cur.param + step)) && !Less(next.fitness, eval(cur.param - step))
    // a strictly better neighbour is never ignored
    ensures Less(cur.fitness, eval(cur.param + step)) || Less(cur.fitness, eval(cur.param - step)) ==>
      next != cur
    // equal neighbour fitness: the minus-step neighbour wins
    ensures eval(cur.param + step) == eval(cur.param - step) && next != cur ==>
      next.param == cur.param - step
  {
    var plus, minus := cur.param + step, cur.param - step;
    var best := Max(eval(plus), eval(minus));
    var chosen := if best == eval(minus) then minus else plus;
    if Less(cur.fitness, best) then
      LessAsymmetric(cur.fitness, best);
      LessIrreflexive(cur.fitness);
      Climber(chosen, best)
    else
      LessIrreflexive(cur.fitness);
      NotLessTransitive(eval(plus), best, cur.fitness);
      NotLessTransitive(eval(minus), best, cur.fitness);
      cur
  }

  /** The step drawn in one iteration: `random.uniform(-step_size, step_size)`. */
  function StepDraw(stepSize: real, u: real): (step: real)
    ensures IsDraw(u) ==> Abs(step) <= Abs(stepSize)
  {
    Uniform(-stepSize, stepSize, u)
  }

  /** One iteration of hill climbing as a step function of the draw. */
  function Climb(eval: real -> Score, stepSize: real): (next: (Climber, real) -> Climber)
    ensures forall c, u :: next(c, u) == Step(eval, c, StepDraw(stepSize, u))
  {
    (c, u) => Step(eval, c, StepDraw(stepSize, u))
  }

  /** The trace recorded by a run: the initial state, then the state after each iteration. */
  function Run(eval: real -> Score, start: Climber, stepSize: real, us: seq<real>): (trace: seq<Climber>)
    ensures |trace| == |us| + 1 && trace[0] == start
  {
    Trace(Climb(eval, stepSize), start, us)
  }

  /** Entry k + 1 of the trace is one step, with draw k, from entry k. */
  lemma RunAt(eval: real -> Score, start: Climber, stepSize: real, us: seq<real>, k: nat)
    requires k < |us|
    ensures var trace := Run(eval, start, stepSize, us);
      trace[k + 1] == Step(eval, trace[k], StepDraw(stepSize, us[k]))
  {
    TraceAt(Climb(eval, stepSize), start, us, k);
  }

  /** The trace of one more draw extends the trace by one step. */
  lemma RunExtends(eval: real -> Score, start: Climber, stepSize: real, us: seq<real>, u: real)
    ensures var prev := Run(eval, start, stepSize, us);
      Run(eval, start, stepSize, us + [u]) == prev + [Step(eval, prev[|us|], StepDraw(stepSize, u))]
  {
    assert (us + [u])[..|us|] == us;
  }

  /** Each iteration moves the scale factor by at most the step size. */
  lemma StepWithinStepSize(eval: real -> Score, cur: Climber, stepSize: real, u: real)
    requires IsDraw(u)
    ensures Abs(Step(eval, cur, StepDraw(stepSize, u)).param - cur.param) <= Abs(stepSize)
  {
    var step := StepDraw(stepSize, u);
    var next := Step(eval, cur, step);
    assert next == cur || next.param == cur.param + step || next.param == cur.param - step;
  }

  /** The recorded fitness never decreases along the trace. */
  lemma {:induction false} RunMonotone(eval: real -> Score, start: Climber, stepSize: real, us: seq<real>, j: nat, k: nat)
    requires j <= k <= |us|
    ensures !Less(Run(eval, start, stepSize, us)[k].fitness, Run(eval, start, stepSize, us)[j].fitness)
    decreases k
  {
    var trace := Run(eval, start, stepSize, us);
    if j == k {
      LessIrreflexive(trace[k].fitness);
    } else {
      RunMonotone(eval, start, stepSize, us, j, k - 1);
      RunAt(eval, start, stepSize, us, k - 1);
      NotLessTransitive(trace[j].fitness, trace[k - 1].fitness, trace[k].fitness);
    }
  }

  /** Each recorded scale factor is within one step size of the one before; nothing clamps it. */
  lemma RunMovesAtMostStepSize(eval: real -> Score, start: Climber, stepSize: real, us: seq<real>, k: nat)
    requires AllDraws(us) && k < |us|
    ensures var trace := Run(eval, start, stepSize, us);
      Abs(trace[k + 1].param - trace[k].param) <= Abs(stepSize)
  {
    RunAt(eval, start, stepSize, us, k);
    StepWithinStepSize(eval, Run(eval, start, stepSize, us)[k], stepSize, us[k]);
  }

  /** The scale factor is not clamped to [1, 2]: a better fitness just above 2 is taken. */
  lemma ParamCanLeaveRange()
    ensures Step(x => Score(x, "a"), Climber(2.0, Score(2.0, "a")), 0.1).param == 2.1
  {
    var next := Step(x => Score(x, "a"), Climber(2.0, Score(2.0, "a")), 0.1);
    assert Less(Score(2.0, "a"), Score(2.1, "a"));
  }

  /**
    Tuples compare by name on equal confidence, so the failed-evaluation
    result (0, "undefined") replaces a zero-confidence result whose name
    sorts before "undefined".
   */
  lemma DegenerateCanReplace()
    ensures Step(x => Degenerate, Climber(1.5, Score(0.0, "bob")), 0.1) == Climber(1.4, Degenerate)
  {
    assert StrLess("bob", "undefined");
    assert Less(Score(0.0, "bob"), Degenerate);
  }

  /**
    The body of the loop of hill_climbing for a drawn step: evaluate both
    neighbours, write them into a table keyed by fitness (the minus-step write
    comes second, so it wins a tie), and move to the larger fitness when it
    beats the current one.
   */
  method ClimbIteration(eval: real -> Score, param: real, fitness: Score, step: real)
    returns (newParam: real, newFitness: Score)
    ensures Climber(newParam, newFitness) == Step(eval, Climber(param, fitness), step)
  {
    newParam, newFitness := param, fitness;
    var table: map<Score, real> := map[];
    var paramAdd, paramSub := param + step, param - step;
    var fitnessAdd := eval(paramAdd);
    table := table[fitnessAdd := paramAdd];
    var fitnessSub := eval(paramSub);
    table := table[fitnessSub := paramSub];
    var best := Max(fitnessAdd, fitnessSub);
    if Less(fitness, best) {
      newParam := table[best];
      newFitness := best;
    }
  }

  /**
    hill_climbing: start from `random.uniform(1, 2)` (draw u0), then for each
    of the `maxIterations` draws take one step and record the state. Returns
    the final state and the two trace lists.
   */
  method HillClimbing(eval: real -> Score, stepSize: real, maxIterations: nat, u0: real, us: seq<real>)
    returns (param: real, fitness: Score, scaleFactors: seq<real>, confidences: seq<Score>)
    requires IsDraw(u0) && |us| == maxIterations
    ensures |scaleFactors| == |confidences| == maxIterations + 1
    ensures scaleFactors[0] == Uniform(1.0, 2.0, u0) && 1.0 <= scaleFactors[0] <= 2.0
    ensures confidences[0] == eval(scaleFactors[0])
    ensures forall k :: 0 <= k <= maxIterations ==>
      Climber(scaleFactors[k], confidences[k]) == Run(eval, Climber(scaleFactors[0], confidences[0]), stepSize, us)[k]
    ensures param == scaleFactors[maxIterations] && fitness == confidences[maxIterations]
    ensures forall j, k :: 0 <= j <= k <= maxIterations ==> !Less(confidences[k], confidences[j])
  {
    param := Uniform(1.0, 2.0, u0);
    fitness := eval(param);
    ghost var start := Climber(param, fitness);
    scaleFactors, confidences := [param], [fitness];
    ghost var trace := [start];
    var i := 0;
    while i < maxIterations
      invariant 0 <= i <= maxIterations
      invariant trace == Run(eval, start, stepSize, us[..i])
      invariant |scaleFactors| == |confidences| == i + 1
      invariant forall k :: 0 <= k <= i ==> Climber(scaleFactors[k], confidences[k]) == trace[k]
      invariant param == scaleFactors[i] && fitness == confidences[i]
    {
      var step := StepDraw(stepSize, us[i]);
      param, fitness := ClimbIteration(eval, param, fitness, step);
      RunExtends(eval, start, stepSize, us[..i], us[i]);
      assert us[..i + 1] == us[..i] + [us[i]];
      trace := trace + [Climber(param, fitness)];
      scaleFactors, confidences := scaleFactors + [param], confidences + [fitness];
      i := i + 1;
    }
    assert us[..i] == us;
    forall j, k | 0 <= j <= k <= maxIterations
      ensures !Less(confidences[k], confidences[j])
    {
      RunMonotone(eval, start, stepSize, us, j, k);
    }
  }
}
