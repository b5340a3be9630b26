/**
  Simulated annealing over the detector scale factor
  (code/simulated_annealing.py, `simulated_annealing`).

  The evaluator is the function parameter `eval`. The two uses of `math.exp`
  are function parameters too: the schedule's `temperature(i)` stands for
  `init_temp * exp(-cool_rate * i)` and `acceptance(diff, temp)` for
  `exp(diff / temp)`. The random numbers are explicit draws: `us[i]` is the
  `random.random()` behind the candidate `random.uniform(1, 2)` of iteration i,
  `rs[i]` the `random.random()` compared with the acceptance probability.
  Only the confidence half of the evaluator's tuple is compared here.
 */
module Annealing {
  import opened Scoring
  import opened Wrappers

  /** The variables the loop reassigns. `bestPrediction` is None while unbound. */
  datatype State = State(
    param: real, fitness: real, prediction: string,
    bestParam: real, bestFitness: real, bestPrediction: Option<string>)

  /** The exceptions that can end a run. */
  datatype Error =
    | UnboundBestPrediction  // best_prediction read before it was ever assigned
    | ZeroTemperature        // fitness_diff / temp with temp == 0

  /** The temperature schedule, the stopping temperature and the iteration budget. */
  datatype Schedule = Schedule(temperature: nat -> real, stoppingTemp: real, maxIterations: nat)

  /** What the function returns: the best triple and the four trace lists. */
  datatype Annealed = Annealed(
    bestParam: real, bestFitness: real, bestPrediction: string,
    paramData: seq<real>, fitnessData: seq<real>,
    bestParamData: seq<real>, bestFitnessData: seq<real>)

  /** Iteration i ends the run early: its temperature is below the stopping temperature. */
  predicate Cold(sch: Schedule, i: nat)
  {
    sch.temperature(i) < sch.stoppingTemp
  }

  /**
    The number of iterations that run when the scan has reached iteration
    `from` without meeting a cold one: up to and including the first cold
    iteration, and never more than the budget.
   */
  function ExecutedFrom(sch: Schedule, from: nat): (n: nat)
    requires from <= sch.maxIterations
    ensures from <= n <= sch.maxIterations
    ensures n == from ==> from == sch.maxIterations
    ensures forall i :: from <= i < n - 1 ==> !Cold(sch, i)
    ensures n < sch.maxIterations ==> Cold(sch, n - 1)
    decreases sch.maxIterations - from
  {
    if from == sch.maxIterations then from
    else if Cold(sch, from) then from + 1
    else ExecutedFrom(sch, from + 1)
  }

  /** The number of iterations a run executes before the loop ends. */
  function Executed(sch: Schedule): (n: nat)
    ensures n <= sch.maxIterations
    ensures n == 0 <==> sch.maxIterations == 0
    ensures forall i :: 0 <= i < n - 1 ==> !Cold(sch, i)
    ensures n < sch.maxIterations ==> Cold(sch, n - 1)
  {
    ExecutedFrom(sch, 0)
  }

  /** Iteration i runs when no earlier iteration was cold. */
  lemma ExecutedBeyond(sch: Schedule, i: nat)
    requires i < sch.maxIterations
    requires forall j :: 0 <= j < i ==> !Cold(sch, j)
    ensures i < Executed(sch)
  {
    ExecutedExactly(sch, i);
  }

  /** Iteration i runs iff no earlier iteration was cold and the budget allows it. */
  lemma ExecutedExactly(sch: Schedule, i: nat)
    requires i < sch.maxIterations
    ensures i < Executed(sch) <==> forall j :: 0 <= j < i ==> !Cold(sch, j)
  {
    var n := Executed(sch);
    if i < n {
      forall j | 0 <= j < i
        ensures !Cold(sch, j)
      {
      }
    } else {
      assert n < sch.maxIterations;
      assert 0 <= n - 1 < i && Cold(sch, n - 1);
    }
  }

  /**
    Whether the candidate becomes the current state: always when it is better;
    otherwise only when its fitness is nonzero and the draw r is below the
    acceptance probability exp(diff / temp). Dividing by a zero temperature raises.
   */
  function Accepts(acceptance: (real, real) -> real, current: real, candidate: real, temp: real, r: real): (res: Result<bool, Error>)
    ensures candidate > current ==> res == Ok(true)
    ensures candidate <= current ==> (res.Err? <==> temp == 0.0)
    ensures res.Err? ==> res.error == ZeroTemperature
    // a zero-fitness candidate that is not better is never accepted, whatever the draw
    ensures candidate == 0.0 && candidate <= current ==> res != Ok(true)
    // a nonzero one is accepted exactly when the draw is below the acceptance probability
    ensures candidate != 0.0 && candidate <= current && temp != 0.0 ==>
      (res == Ok(true) <==> r < acceptance(candidate - current, temp))
  {
    var diff := candidate - current;
    if diff > 0.0 then Ok(true)
    else if temp == 0.0 then Err(ZeroTemperature)
    else Ok(r < acceptance(diff, temp) && candidate != 0.0)
  }

  /**
    The recorded values agree with the evaluator: the current fitness and
    prediction are those of the current parameter, the best fitness (and the
    best prediction, once bound) those of the best parameter.
   */
  predicate Consistent(eval: real -> Score, s: State)
  {
    s.fitness == eval(s.param).confidence && s.prediction == eval(s.param).name &&
    s.bestFitness == eval(s.bestParam).confidence &&
    (s.bestPrediction.Some? ==> s.bestPrediction.value == eval(s.bestParam).name)
  }

  /** The initial state: the initial parameter, its evaluation, and no best prediction yet. */
  function Start(eval: real -> Score, initParam: real): (s: State)
    ensures s.bestPrediction == None
    ensures s.param == s.bestParam == initParam
    ensures s.fitness == s.bestFitness == eval(initParam).confidence
    ensures Consistent(eval, s)
  {
    var e := eval(initParam);
    State(initParam, e.confidence, e.name, initParam, e.confidence, None)
  }

  /**
    One iteration at temperature `temp`: draw a candidate in [1, 2], accept it
    or not, then update the best triple if the current fitness beats it.
   */
  function Iterate(eval: real -> Score, acceptance: (real, real) -> real, s: State, temp: real, u: real, r: real): (res: Result<State, Error>)
    requires IsDraw(u)
    // only a candidate that is not better can reach the division, which raises at temperature zero
    ensures res.Err? <==> temp == 0.0 && eval(Uniform(1.0, 2.0, u)).confidence <= s.fitness
    ensures res.Err? ==> res.error == ZeroTemperature
    // a better candidate is always taken
    ensures eval(Uniform(1.0, 2.0, u)).confidence > s.fitness ==>
      res.Ok? && res.value.param == Uniform(1.0, 2.0, u) && res.value.fitness == eval(Uniform(1.0, 2.0, u)).confidence
    // a zero-confidence candidate never replaces a non-negative current state
    ensures res.Ok? && eval(Uniform(1.0, 2.0, u)).confidence == 0.0 && s.fitness >= 0.0 ==>
      res.value.param == s.param && res.value.fitness == s.fitness
    ensures res.Ok? ==> res.value.bestFitness >= res.value.fitness
    ensures res.Ok? ==> res.value.bestFitness >= s.bestFitness
    ensures res.Ok? ==> res.value.param == s.param || res.value.param == Uniform(1.0, 2.0, u)
    ensures res.Ok? && 1.0 <= s.param <= 2.0 && 1.0 <= s.bestParam <= 2.0 ==>
      1.0 <= res.value.param <= 2.0 && 1.0 <= res.value.bestParam <= 2.0
    ensures res.Ok? && Consistent(eval, s) ==> Consistent(eval, res.value)
    // the best prediction is kept, or replaced by the new current prediction
    ensures res.Ok? ==> res.value.bestPrediction == s.bestPrediction || res.value.bestPrediction == Some(res.value.prediction)
  {
    var newParam := Uniform(1.0, 2.0, u);
    var candidate := eval(newParam);
    match Accepts(acceptance, s.fitness, candidate.confidence, temp, r)
    case Err(e) => Err(e)
    case Ok(accepted) =>
      var cur := if accepted then s.(param := newParam, fitness := candidate.confidence, prediction := candidate.name) else s;
      if cur.fitness > cur.bestFitness then
        Ok(cur.(bestParam := cur.param, bestFitness := cur.fitness, bestPrediction := Some(cur.prediction)))
      else
        Ok(cur)
  }

  /**
    The states after the first m iterations (the start state first), or the
    exception one of them raised.
   */
  function Anneal(eval: real -> Score, acceptance: (real, real) -> real, sch: Schedule, start: State,
                  us: seq<real>, rs: seq<real>, m: nat): (res: Result<seq<State>, Error>)
    requires m <= |us| && m <= |rs| && AllDraws(us)
    ensures res.Ok? ==> |res.value| == m + 1 && res.value[0] == start
    ensures res.Err? ==> res.error == ZeroTemperature
    decreases m
  {
    if m == 0 then Ok([start])
    else
      match Anneal(eval, acceptance, sch, start, us, rs, m - 1)
      case Err(e) => Err(e)
      case Ok(prev) =>
        match Iterate(eval, acceptance, prev[m - 1], sch.temperature(m - 1), us[m - 1], rs[m - 1])
        case Err(e) => Err(e)
        case Ok(next) => Ok(prev + [next])
  }

  /** A run that completes m iterations completed every shorter run on the way, with the same states. */
  lemma {:induction false} AnnealPrefix(eval: real -> Score, acceptance: (real, real) -> real, sch: Schedule, start: State,
                                        us: seq<real>, rs: seq<real>, m: nat, k: nat)
    requires m <= |us| && m <= |rs| && AllDraws(us) && k <= m
    requires Anneal(eval, acceptance, sch, start, us, rs, m).Ok?
    ensures Anneal(eval, acceptance, sch, start, us, rs, k).Ok?
    ensures Anneal(eval, acceptance, sch, start, us, rs, k).value == Anneal(eval, acceptance, sch, start, us, rs, m).value[..k + 1]
    decreases m
  {
    var states := Anneal(eval, acceptance, sch, start, us, rs, m).value;
    if k == m {
      assert states[..k + 1] == states;
    } else {
      var prev := Anneal(eval, acceptance, sch, start, us, rs, m - 1);
      assert prev.Ok? && states == prev.value + [states[m]];
      AnnealPrefix(eval, acceptance, sch, start, us, rs, m - 1, k);
      assert prev.value[..k + 1] == states[..k + 1];
    }
  }

  /** Entry k + 1 of a completed run is one iteration from entry k. */
  lemma AnnealAt(eval: real -> Score, acceptance: (real, real) -> real, sch: Schedule, start: State,
                 us: seq<real>, rs: seq<real>, m: nat, k: nat)
    requires m <= |us| && m <= |rs| && AllDraws(us) && k < m
    requires Anneal(eval, acceptance, sch, start, us, rs, m).Ok?
    ensures var states := Anneal(eval, acceptance, sch, start, us, rs, m).value;
      Iterate(eval, acceptance, states[k], sch.temperature(k), us[k], rs[k]) == Ok(states[k + 1])
  {
    AnnealPrefix(eval, acceptance, sch, start, us, rs, m, k + 1);
    var prefix := Anneal(eval, acceptance, sch, start, us, rs, k + 1).value;
    assert prefix[k + 1] == Anneal(eval, acceptance, sch, start, us, rs, m).value[k + 1];
  }

  /** The best fitness is at least the current fitness in every recorded state. */
  lemma {:induction false} AnnealBestDominates(eval: real -> Score, acceptance: (real, real) -> real, sch: Schedule, start: State,
                                               us: seq<real>, rs: seq<real>, m: nat, k: nat)
    requires m <= |us| && m <= |rs| && AllDraws(us) && k <= m
    requires start.bestFitness >= start.fitness
    requires Anneal(eval, acceptance, sch, start, us, rs, m).Ok?
    ensures var states := Anneal(eval, acceptance, sch, start, us, rs, m).value;
      states[k].bestFitness >= states[k].fitness
  {
    if k > 0 {
      AnnealAt(eval, acceptance, sch, start, us, rs, m, k - 1);
    }
  }

  /** The best fitness never decreases. */
  lemma {:induction false} AnnealBestMonotone(eval: real -> Score, acceptance: (real, real) -> real, sch: Schedule, start: State,
                                              us: seq<real>, rs: seq<real>, m: nat, j: nat, k: nat)
    requires m <= |us| && m <= |rs| && AllDraws(us) && j <= k <= m
    requires Anneal(eval, acceptance, sch, start, us, rs, m).Ok?
    ensures var states := Anneal(eval, acceptance, sch, start, us, rs, m).value;
      states[j].bestFitness <= states[k].bestFitness
    decreases k - j
  {
    if j < k {
      AnnealAt(eval, acceptance, sch, start, us, rs, m, j);
      AnnealBestMonotone(eval, acceptance, sch, start, us, rs, m, j + 1, k);
    }
  }

  /** Candidates are drawn from [1, 2], so a run started in [1, 2] stays there. */
  lemma {:induction false} AnnealInRange(eval: real -> Score, acceptance: (real, real) -> real, sch: Schedule, start: State,
                                         us: seq<real>, rs: seq<real>, m: nat, k: nat)
    requires m <= |us| && m <= |rs| && AllDraws(us) && k <= m
    requires 1.0 <= start.param <= 2.0 && 1.0 <= start.bestParam <= 2.0
    requires Anneal(eval, acceptance, sch, start, us, rs, m).Ok?
    ensures var states := Anneal(eval, acceptance, sch, start, us, rs, m).value;
      1.0 <= states[k].param <= 2.0 && 1.0 <= states[k].bestParam <= 2.0
  {
    if k > 0 {
      AnnealInRange(eval, acceptance, sch, start, us, rs, m, k - 1);
      AnnealAt(eval, acceptance, sch, start, us, rs, m, k - 1);
    }
  }

  /**
    From an unbound start, the best prediction is bound in state k exactly
    when the best fitness of state k is above the initial one.
   */
  lemma {:induction false} BoundIffImproved(eval: real -> Score, acceptance: (real, real) -> real, sch: Schedule, start: State,
                                            us: seq<real>, rs: seq<real>, m: nat, k: nat)
    requires m <= |us| && m <= |rs| && AllDraws(us) && k <= m
    requires start.bestPrediction == None
    requires Anneal(eval, acceptance, sch, start, us, rs, m).Ok?
    ensures var states := Anneal(eval, acceptance, sch, start, us, rs, m).value;
      states[k].bestPrediction.Some? <==> states[k].bestFitness > start.bestFitness
  {
    if k > 0 {
      var states := Anneal(eval, acceptance, sch, start, us, rs, m).value;
      BoundIffImproved(eval, acceptance, sch, start, us, rs, m, k - 1);
      AnnealAt(eval, acceptance, sch, start, us, rs, m, k - 1);
      AnnealBestMonotone(eval, acceptance, sch, start, us, rs, m, 0, k - 1);
    }
  }

  /** A run that raised stays failed: no longer run completes. */
  lemma {:induction false} AnnealErrPersists(eval: real -> Score, acceptance: (real, real) -> real, sch: Schedule, start: State,
                                             us: seq<real>, rs: seq<real>, k: nat, m: nat)
    requires m <= |us| && m <= |rs| && AllDraws(us) && k <= m
    requires Anneal(eval, acceptance, sch, start, us, rs, k).Err?
    ensures Anneal(eval, acceptance, sch, start, us, rs, m).Err?
    decreases m
  {
    if k < m {
      AnnealErrPersists(eval, acceptance, sch, start, us, rs, k, m - 1);
    }
  }

  /** The states of a completed run are consistent with the evaluator when the start state is. */
  lemma {:induction false} AnnealConsistent(eval: real -> Score, acceptance: (real, real) -> real, sch: Schedule, start: State,
                                            us: seq<real>, rs: seq<real>, m: nat, k: nat)
    requires m <= |us| && m <= |rs| && AllDraws(us) && k <= m
    requires Consistent(eval, start)
    requires Anneal(eval, acceptance, sch, start, us, rs, m).Ok?
    ensures Consistent(eval, Anneal(eval, acceptance, sch, start, us, rs, m).value[k])
  {
    if k > 0 {
      AnnealConsistent(eval, acceptance, sch, start, us, rs, m, k - 1);
      AnnealAt(eval, acceptance, sch, start, us, rs, m, k - 1);
    }
  }

  /** Once bound, the best prediction stays bound. */
  lemma {:induction false} AnnealKeepsBound(eval: real -> Score, acceptance: (real, real) -> real, sch: Schedule, start: State,
                                            us: seq<real>, rs: seq<real>, m: nat, k: nat)
    requires m <= |us| && m <= |rs| && AllDraws(us) && k <= m
    requires start.bestPrediction.Some?
    requires Anneal(eval, acceptance, sch, start, us, rs, m).Ok?
    ensures Anneal(eval, acceptance, sch, start, us, rs, m).value[k].bestPrediction.Some?
  {
    if k > 0 {
      AnnealKeepsBound(eval, acceptance, sch, start, us, rs, m, k - 1);
      AnnealAt(eval, acceptance, sch, start, us, rs, m, k - 1);
    }
  }

  /** The trace lists of a run, one entry per recorded state. */
  function Report(states: seq<State>): (a: Annealed)
    requires states != [] && states[|states| - 1].bestPrediction.Some?
    ensures |a.paramData| == |a.fitnessData| == |a.bestParamData| == |a.bestFitnessData| == |states|
    ensures forall k :: 0 <= k < |states| ==>
      a.paramData[k] == states[k].param && a.fitnessData[k] == states[k].fitness &&
      a.bestParamData[k] == states[k].bestParam && a.bestFitnessData[k] == states[k].bestFitness
    ensures var last := states[|states| - 1];
      a.bestParam == last.bestParam && a.bestFitness == last.bestFitness && Some(a.bestPrediction) == last.bestPrediction
  {
    var last := states[|states| - 1];
    Annealed(last.bestParam, last.bestFitness, last.bestPrediction.value,
             seq(|states|, k requires 0 <= k < |states| => states[k].param),
             seq(|states|, k requires 0 <= k < |states| => states[k].fitness),
             seq(|states|, k requires 0 <= k < |states| => states[k].bestParam),
             seq(|states|, k requires 0 <= k < |states| => states[k].bestFitness))
  }

  /**
    What the four trace lists of a completed run promise: one entry per state,
    the start first, a best fitness that never decreases and is never below
    the current fitness, the returned best triple consistent with the
    evaluator, and parameters in [1, 2] when the start is.
   */
  lemma RunTraces(eval: real -> Score, acceptance: (real, real) -> real, sch: Schedule, start: State,
                  us: seq<real>, rs: seq<real>, m: nat)
    requires m <= |us| && m <= |rs| && AllDraws(us)
    requires Consistent(eval, start) && start.bestFitness >= start.fitness
    requires Anneal(eval, acceptance, sch, start, us, rs, m).Ok?
    requires Anneal(eval, acceptance, sch, start, us, rs, m).value[m].bestPrediction.Some?
    ensures var a := Report(Anneal(eval, acceptance, sch, start, us, rs, m).value);
      |a.paramData| == m + 1 && a.paramData[0] == start.param && a.fitnessData[0] == start.fitness &&
      (forall j, k :: 0 <= j <= k <= m ==> a.bestFitnessData[j] <= a.bestFitnessData[k]) &&
      (forall k :: 0 <= k <= m ==> a.fitnessData[k] <= a.bestFitnessData[k]) &&
      a.bestFitness >= start.bestFitness &&
      a.bestFitness == eval(a.bestParam).confidence && a.bestPrediction == eval(a.bestParam).name &&
      (1.0 <= start.param <= 2.0 && 1.0 <= start.bestParam <= 2.0 ==>
         forall k :: 0 <= k <= m ==> 1.0 <= a.paramData[k] <= 2.0 && 1.0 <= a.bestParamData[k] <= 2.0)
  {
    var states := Anneal(eval, acceptance, sch, start, us, rs, m).value;
    var a := Report(states);
    forall j, k | 0 <= j <= k <= m
      ensures a.bestFitnessData[j] <= a.bestFitnessData[k]
    {
      AnnealBestMonotone(eval, acceptance, sch, start, us, rs, m, j, k);
    }
    forall k | 0 <= k <= m
      ensures a.fitnessData[k] <= a.bestFitnessData[k]
    {
      AnnealBestDominates(eval, acceptance, sch, start, us, rs, m, k);
    }
    AnnealBestMonotone(eval, acceptance, sch, start, us, rs, m, 0, m);
    AnnealConsistent(eval, acceptance, sch, start, us, rs, m, m);
    if 1.0 <= start.param <= 2.0 && 1.0 <= start.bestParam <= 2.0 {
      forall k | 0 <= k <= m
        ensures 1.0 <= a.paramData[k] <= 2.0 && 1.0 <= a.bestParamData[k] <= 2.0
      {
        AnnealInRange(eval, acceptance, sch, start, us, rs, m, k);
      }
    }
  }

  /**
    The outcome of `simulated_annealing` as written: the best prediction is
    read after every iteration and at the return, so a run fails unless the
    first iteration improves on the initial fitness.
   */
  function Outcome(eval: real -> Score, acceptance: (real, real) -> real, sch: Schedule, initParam: real,
                   us: seq<real>, rs: seq<real>): (res: Result<Annealed, Error>)
    requires |us| == sch.maxIterations && |rs| == sch.maxIterations && AllDraws(us)
    ensures res.Ok? ==> |res.value.paramData| == Executed(sch) + 1
  {
    var n := Executed(sch);
    var start := Start(eval, initParam);
    if n == 0 then Err(UnboundBestPrediction)
    else
      match Anneal(eval, acceptance, sch, start, us, rs, 1)
      case Err(e) => Err(e)
      case Ok(first) =>
        if first[1].bestPrediction.None? then Err(UnboundBestPrediction)
        else
          match Anneal(eval, acceptance, sch, start, us, rs, n)
          case Err(e) => Err(e)
          case Ok(states) =>
            assert states[|states| - 1].bestPrediction.Some? by {
              AnnealPrefix(eval, acceptance, sch, start, us, rs, n, 1);
              BoundIffImproved(eval, acceptance, sch, start, us, rs, n, 1);
              AnnealBestMonotone(eval, acceptance, sch, start, us, rs, n, 1, n);
              BoundIffImproved(eval, acceptance, sch, start, us, rs, n, n);
            }
            Ok(Report(states))
  }

  /** A successful run of `simulated_annealing` returns the trace lists of its executed iterations. */
  lemma OutcomeTraces(eval: real -> Score, acceptance: (real, real) -> real, sch: Schedule, initParam: real,
                      us: seq<real>, rs: seq<real>)
    requires |us| == sch.maxIterations && |rs| == sch.maxIterations && AllDraws(us)
    ensures var res := Outcome(eval, acceptance, sch, initParam, us, rs);
      res.Ok? ==>
        var a := res.value;
        var n := Executed(sch);
        |a.paramData| == n + 1 && a.paramData[0] == initParam &&
        (forall j, k :: 0 <= j <= k <= n ==> a.bestFitnessData[j] <= a.bestFitnessData[k]) &&
        (forall k :: 0 <= k <= n ==> a.fitnessData[k] <= a.bestFitnessData[k]) &&
        a.bestFitness > eval(initParam).confidence &&
        a.bestFitness == eval(a.bestParam).confidence && a.bestPrediction == eval(a.bestParam).name &&
        (1.0 <= initParam <= 2.0 ==>
           forall k :: 0 <= k <= n ==> 1.0 <= a.paramData[k] <= 2.0 && 1.0 <= a.bestParamData[k] <= 2.0)
  {
    var n := Executed(sch);
    var start := Start(eval, initParam);
    if Outcome(eval, acceptance, sch, initParam, us, rs).Ok? {
      RunTraces(eval, acceptance, sch, start, us, rs, n);
      BoundIffImproved(eval, acceptance, sch, start, us, rs, n, n);
    }
  }

  /**
    As written, the run ends with the unbound best prediction exactly when no
    iteration runs or the first iteration does not raise the best fitness
    above the initial one.
   */
  lemma UnboundUnlessFirstImproves(eval: real -> Score, acceptance: (real, real) -> real, sch: Schedule, initParam: real,
                                   us: seq<real>, rs: seq<real>)
    requires |us| == sch.maxIterations && |rs| == sch.maxIterations && AllDraws(us)
    ensures Outcome(eval, acceptance, sch, initParam, us, rs) == Err(UnboundBestPrediction) <==>
      Executed(sch) == 0 ||
      (Anneal(eval, acceptance, sch, Start(eval, initParam), us, rs, 1).Ok? &&
       Anneal(eval, acceptance, sch, Start(eval, initParam), us, rs, 1).value[1].bestFitness <= eval(initParam).confidence)
  {
    if Executed(sch) > 0 && Anneal(eval, acceptance, sch, Start(eval, initParam), us, rs, 1).Ok? {
      BoundIffImproved(eval, acceptance, sch, Start(eval, initParam), us, rs, 1, 1);
    }
  }

  /** A constant evaluator: one iteration with no improvement leaves the best prediction unbound. */
  lemma ConstantEvaluatorUnbound()
    ensures Outcome(x => Score(0.5, "a"), (d, t) => 1.0, Schedule(i => 100.0, 0.01, 1), 1.5, [0.5], [0.5])
      == Err(UnboundBestPrediction)
  {
    var sch := Schedule(i => 100.0, 0.01, 1);
    assert Executed(sch) == 1 by {
      assert ExecutedFrom(sch, 1) == 1;
    }
    var start := Start(x => Score(0.5, "a"), 1.5);
    assert Anneal(x => Score(0.5, "a"), (d, t) => 1.0, sch, start, [0.5], [0.5], 0) == Ok([start]);
  }

  /** The start state with the best prediction bound to the initial evaluation's prediction. */
  function SeededStart(eval: real -> Score, initParam: real): (s: State)
    ensures s.bestPrediction == Some(eval(initParam).name)
    ensures s.param == s.bestParam == initParam
    ensures s.fitness == s.bestFitness == eval(initParam).confidence
    ensures Consistent(eval, s)
  {
    Start(eval, initParam).(bestPrediction := Some(eval(initParam).name))
  }

  /**
    The evidently intended outcome: the best prediction starts as the initial
    prediction, so the only exception left is the division at temperature zero.
   */
  function SeededOutcome(eval: real -> Score, acceptance: (real, real) -> real, sch: Schedule, initParam: real,
                         us: seq<real>, rs: seq<real>): (res: Result<Annealed, Error>)
    requires |us| == sch.maxIterations && |rs| == sch.maxIterations && AllDraws(us)
    ensures res.Err? ==> res.error == ZeroTemperature
    ensures res.Ok? ==> |res.value.paramData| == Executed(sch) + 1
  {
    var n := Executed(sch);
    var start := SeededStart(eval, initParam);
    match Anneal(eval, acceptance, sch, start, us, rs, n)
    case Err(e) => Err(e)
    case Ok(states) =>
      AnnealKeepsBound(eval, acceptance, sch, start, us, rs, n, n);
      Ok(Report(states))
  }

  /** The seeded run never fails when no temperature is zero, and returns a consistent best triple. */
  lemma SeededOutcomeTraces(eval: real -> Score, acceptance: (real, real) -> real, sch: Schedule, initParam: real,
                            us: seq<real>, rs: seq<real>)
    requires |us| == sch.maxIterations && |rs| == sch.maxIterations && AllDraws(us)
    ensures (forall i :: 0 <= i < sch.maxIterations ==> sch.temperature(i) != 0.0) ==>
      SeededOutcome(eval, acceptance, sch, initParam, us, rs).Ok?
    ensures var res := SeededOutcome(eval, acceptance, sch, initParam, us, rs);
      res.Ok? ==>
        var a := res.value;
        var n := Executed(sch);
        a.paramData[0] == initParam &&
        (forall j, k :: 0 <= j <= k <= n ==> a.bestFitnessData[j] <= a.bestFitnessData[k]) &&
        (forall k :: 0 <= k <= n ==> a.fitnessData[k] <= a.bestFitnessData[k]) &&
        a.bestFitness >= eval(initParam).confidence &&
        a.bestFitness == eval(a.bestParam).confidence && a.bestPrediction == eval(a.bestParam).name
  {
    var n := Executed(sch);
    var start := SeededStart(eval, initParam);
    if forall i :: 0 <= i < sch.maxIterations ==> sch.temperature(i) != 0.0 {
      AnnealNoZeroTemperature(eval, acceptance, sch, start, us, rs, n);
    }
    if SeededOutcome(eval, acceptance, sch, initParam, us, rs).Ok? {
      AnnealKeepsBound(eval, acceptance, sch, start, us, rs, n, n);
      RunTraces(eval, acceptance, sch, start, us, rs, n);
    }
  }

  /** Without a zero temperature no iteration raises. */
  lemma {:induction false} AnnealNoZeroTemperature(eval: real -> Score, acceptance: (real, real) -> real, sch: Schedule, start: State,
                                                   us: seq<real>, rs: seq<real>, m: nat)
    requires m <= |us| && m <= |rs| && AllDraws(us)
    requires forall i :: 0 <= i < m ==> sch.temperature(i) != 0.0
    ensures Anneal(eval, acceptance, sch, start, us, rs, m).Ok?
  {
    if m > 0 {
      AnnealNoZeroTemperature(eval, acceptance, sch, start, us, rs, m - 1);
    }
  }

  /** Two states that differ at most in the best prediction. */
  predicate SameButBest(a: State, b: State)
  {
    a.(bestPrediction := None) == b.(bestPrediction := None)
  }

  /**
    One iteration from two states that differ only in the best prediction:
    both raise or neither does, the results differ at most in the best
    prediction, and they are equal when the best fitness rises.
   */
  lemma IterateIgnoresBestPrediction(eval: real -> Score, acceptance: (real, real) -> real, s1: State, s2: State,
                                     temp: real, u: real, r: real)
    requires IsDraw(u) && SameButBest(s1, s2)
    ensures Iterate(eval, acceptance, s1, temp, u, r).Ok? <==> Iterate(eval, acceptance, s2, temp, u, r).Ok?
    ensures Iterate(eval, acceptance, s1, temp, u, r).Ok? ==>
      var n1, n2 := Iterate(eval, acceptance, s1, temp, u, r).value, Iterate(eval, acceptance, s2, temp, u, r).value;
      SameButBest(n1, n2) && (n1.bestFitness > s1.bestFitness ==> n1 == n2)
  {
    assert s1.param == s2.param && s1.fitness == s2.fitness && s1.prediction == s2.prediction;
    assert s1.bestParam == s2.bestParam && s1.bestFitness == s2.bestFitness;
  }

  /**
    Runs from two starts that differ only in the best prediction raise alike,
    stay alike but for the best prediction, and become equal once the best
    fitness has risen above the start's.
   */
  lemma {:induction false} AnnealIgnoresBestPrediction(eval: real -> Score, acceptance: (real, real) -> real, sch: Schedule,
                                                       s1: State, s2: State, us: seq<real>, rs: seq<real>, m: nat)
    requires m <= |us| && m <= |rs| && AllDraws(us)
    requires SameButBest(s1, s2)
    ensures Anneal(eval, acceptance, sch, s1, us, rs, m).Ok? <==> Anneal(eval, acceptance, sch, s2, us, rs, m).Ok?
    ensures Anneal(eval, acceptance, sch, s1, us, rs, m).Ok? ==>
      var last1 := Anneal(eval, acceptance, sch, s1, us, rs, m).value[m];
      var last2 := Anneal(eval, acceptance, sch, s2, us, rs, m).value[m];
      SameButBest(last1, last2) && (last1.bestFitness > s1.bestFitness ==> last1 == last2)
  {
    if m > 0 {
      AnnealIgnoresBestPrediction(eval, acceptance, sch, s1, s2, us, rs, m - 1);
      var r1 := Anneal(eval, acceptance, sch, s1, us, rs, m - 1);
      var r2 := Anneal(eval, acceptance, sch, s2, us, rs, m - 1);
      if r1.Ok? {
        var p1, p2 := r1.value[m - 1], r2.value[m - 1];
        IterateIgnoresBestPrediction(eval, acceptance, p1, p2, sch.temperature(m - 1), us[m - 1], rs[m - 1]);
        if Iterate(eval, acceptance, p1, sch.temperature(m - 1), us[m - 1], rs[m - 1]).Ok? {
          AnnealBestMonotone(eval, acceptance, sch, s1, us, rs, m - 1, 0, m - 1);
        }
      }
    }
  }

  /**
    Whenever the as-written run succeeds, the seeded run returns exactly the
    same result: seeding the best prediction changes nothing but the failures.
   */
  lemma SeededAgrees(eval: real -> Score, acceptance: (real, real) -> real, sch: Schedule, initParam: real,
                     us: seq<real>, rs: seq<real>)
    requires |us| == sch.maxIterations && |rs| == sch.maxIterations && AllDraws(us)
    ensures Outcome(eval, acceptance, sch, initParam, us, rs).Ok? ==>
      SeededOutcome(eval, acceptance, sch, initParam, us, rs) == Outcome(eval, acceptance, sch, initParam, us, rs)
  {
    var n := Executed(sch);
    var s1, s2 := Start(eval, initParam), SeededStart(eval, initParam);
    if Outcome(eval, acceptance, sch, initParam, us, rs).Ok? {
      var states1 := Anneal(eval, acceptance, sch, s1, us, rs, n).value;
      AnnealIgnoresBestPrediction(eval, acceptance, sch, s1, s2, us, rs, n);
      var states2 := Anneal(eval, acceptance, sch, s2, us, rs, n).value;
      forall k | 0 <= k <= n
        ensures SameButBest(states1[k], states2[k])
      {
        AnnealPrefix(eval, acceptance, sch, s1, us, rs, n, k);
        AnnealIgnoresBestPrediction(eval, acceptance, sch, s1, s2, us, rs, k);
        AnnealPrefix(eval, acceptance, sch, s2, us, rs, n, k);
      }
      BoundIffImproved(eval, acceptance, sch, s1, us, rs, n, n);
      assert states1[n] == states2[n];
      AnnealKeepsBound(eval, acceptance, sch, s2, us, rs, n, n);
      var a1, a2 := Report(states1), Report(states2);
      assert a1.paramData == a2.paramData;
      assert a1.fitnessData == a2.fitnessData;
      assert a1.bestParamData == a2.bestParamData;
      assert a1.bestFitnessData == a2.bestFitnessData;
    }
  }

  /** The run stops after iteration i - 1 when it is cold, or after the budget. */
  lemma ExecutedAt(sch: Schedule, i: nat)
    requires 0 < i <= sch.maxIterations
    requires forall j :: 0 <= j < i - 1 ==> !Cold(sch, j)
    requires i == sch.maxIterations || Cold(sch, i - 1)
    ensures Executed(sch) == i
  {
  }

  /** Extending a completed run by one iteration that does not raise. */
  lemma AnnealExtend(eval: real -> Score, acceptance: (real, real) -> real, sch: Schedule, start: State,
                     us: seq<real>, rs: seq<real>, i: nat, states: seq<State>, after: State)
    requires i < |us| && i < |rs| && AllDraws(us)
    requires Anneal(eval, acceptance, sch, start, us, rs, i) == Ok(states)
    requires Iterate(eval, acceptance, states[i], sch.temperature(i), us[i], rs[i]) == Ok(after)
    ensures Anneal(eval, acceptance, sch, start, us, rs, i + 1) == Ok(states + [after])
  {
  }

  /**
    The body of the loop of `simulated_annealing` for iteration i at
    temperature `temp`: draw a candidate, accept it when it is better or, with
    a nonzero fitness, when the draw r is below the acceptance probability,
    then update the best triple.
   */
  method AnnealingIteration(eval: real -> Score, acceptance: (real, real) -> real, s: State, temp: real, u: real, r: real)
    returns (res: Result<State, Error>)
    requires IsDraw(u)
    ensures res == Iterate(eval, acceptance, s, temp, u, r)
  {
    var currentParam, currentFitness, currentPrediction := s.param, s.fitness, s.prediction;
    var bestParam, bestFitness, bestPrediction := s.bestParam, s.bestFitness, s.bestPrediction;
    var newParam := Uniform(1.0, 2.0, u);
    var candidate := eval(newParam);
    var newFitness, newPrediction := candidate.confidence, candidate.name;
    var fitnessDiff := newFitness - currentFitness;
    if fitnessDiff > 0.0 {
      currentParam, currentFitness, currentPrediction := newParam, newFitness, newPrediction;
    } else {
      if temp == 0.0 {
        return Err(ZeroTemperature);
      }
      var acceptanceProb := acceptance(fitnessDiff, temp);
      if r < acceptanceProb && newFitness != 0.0 {
        currentParam, currentFitness, currentPrediction := newParam, newFitness, newPrediction;
      }
    }
    if currentFitness > bestFitness {
      bestParam, bestFitness, bestPrediction := currentParam, currentFitness, Some(currentPrediction);
    }
    res := Ok(State(currentParam, currentFitness, currentPrediction, bestParam, bestFitness, bestPrediction));
  }

  /** The four trace lists hold, entry by entry, the fields of the recorded states. */
  ghost predicate Recorded(states: seq<State>, paramData: seq<real>, fitnessData: seq<real>,
                           bestParamData: seq<real>, bestFitnessData: seq<real>)
  {
    |paramData| == |fitnessData| == |bestParamData| == |bestFitnessData| == |states| &&
    forall k :: 0 <= k < |states| ==>
      paramData[k] == states[k].param && fitnessData[k] == states[k].fitness &&
      bestParamData[k] == states[k].bestParam && bestFitnessData[k] == states[k].bestFitness
  }

  lemma RecordedAppend(states: seq<State>, paramData: seq<real>, fitnessData: seq<real>,
                       bestParamData: seq<real>, bestFitnessData: seq<real>, s: State)
    requires Recorded(states, paramData, fitnessData, bestParamData, bestFitnessData)
    ensures Recorded(states + [s], paramData + [s.param], fitnessData + [s.fitness],
                     bestParamData + [s.bestParam], bestFitnessData + [s.bestFitness])
  {
  }

  /** The trace lists built entry by entry are those of Report. */
  lemma ReportIs(states: seq<State>, paramData: seq<real>, fitnessData: seq<real>,
                 bestParamData: seq<real>, bestFitnessData: seq<real>)
    requires states != [] && states[|states| - 1].bestPrediction.Some?
    requires Recorded(states, paramData, fitnessData, bestParamData, bestFitnessData)
    ensures var last := states[|states| - 1];
      Report(states) == Annealed(last.bestParam, last.bestFitness, last.bestPrediction.value,
                                 paramData, fitnessData, bestParamData, bestFitnessData)
  {
    var report := Report(states);
    assert paramData == report.paramData && fitnessData == report.fitnessData;
    assert bestParamData == report.bestParamData && bestFitnessData == report.bestFitnessData;
  }

  /**
    What holds at the top of the loop of `simulated_annealing` after i
    iterations: none of them was cold, they completed with the recorded
    states, the trace lists hold those states, and the best prediction is
    bound from the first iteration on.
   */
  ghost predicate LoopState(eval: real -> Score, acceptance: (real, real) -> real, sch: Schedule, initParam: real,
                            us: seq<real>, rs: seq<real>, i: nat, states: seq<State>, current: State,
                            paramData: seq<real>, fitnessData: seq<real>, bestParamData: seq<real>, bestFitnessData: seq<real>)
  {
    |us| == sch.maxIterations && |rs| == sch.maxIterations && AllDraws(us) && i <= sch.maxIterations &&
    (forall j :: 0 <= j < i ==> !Cold(sch, j)) &&
    Anneal(eval, acceptance, sch, Start(eval, initParam), us, rs, i) == Ok(states) &&
    |states| == i + 1 && states[i] == current &&
    Recorded(states, paramData, fitnessData, bestParamData, bestFitnessData) &&
    (i == 0 <==> current.bestPrediction.None?) &&
    (i > 0 ==> states[1].bestPrediction.Some?)
  }

  lemma LoopStart(eval: real -> Score, acceptance: (real, real) -> real, sch: Schedule, initParam: real,
                  us: seq<real>, rs: seq<real>)
    requires |us| == sch.maxIterations && |rs| == sch.maxIterations && AllDraws(us)
    ensures var s := Start(eval, initParam);
      LoopState(eval, acceptance, sch, initParam, us, rs, 0, [s], s, [s.param], [s.fitness], [s.bestParam], [s.bestFitness])
  {
  }

  /** An iteration that completes, binds the best prediction and is not cold keeps the loop going. */
  lemma LoopStep(eval: real -> Score, acceptance: (real, real) -> real, sch: Schedule, initParam: real,
                 us: seq<real>, rs: seq<real>, i: nat, states: seq<State>, current: State,
                 paramData: seq<real>, fitnessData: seq<real>, bestParamData: seq<real>, bestFitnessData: seq<real>,
                 next: State)
    requires LoopState(eval, acceptance, sch, initParam, us, rs, i, states, current,
                       paramData, fitnessData, bestParamData, bestFitnessData)
    requires i < sch.maxIterations && !Cold(sch, i)
    requires Iterate(eval, acceptance, current, sch.temperature(i), us[i], rs[i]) == Ok(next)
    requires next.bestPrediction.Some?
    ensures LoopState(eval, acceptance, sch, initParam, us, rs, i + 1, states + [next], next,
                      paramData + [next.param], fitnessData + [next.fitness],
                      bestParamData + [next.bestParam], bestFitnessData + [next.bestFitness])
  {
    AnnealExtend(eval, acceptance, sch, Start(eval, initParam), us, rs, i, states, next);
    RecordedAppend(states, paramData, fitnessData, bestParamData, bestFitnessData, next);
  }

  /** An executed iteration that raises ends the run with that exception. */
  lemma LoopRaised(eval: real -> Score, acceptance: (real, real) -> real, sch: Schedule, initParam: real,
                   us: seq<real>, rs: seq<real>, i: nat, states: seq<State>, current: State,
                   paramData: seq<real>, fitnessData: seq<real>, bestParamData: seq<real>, bestFitnessData: seq<real>)
    requires LoopState(eval, acceptance, sch, initParam, us, rs, i, states, current,
                       paramData, fitnessData, bestParamData, bestFitnessData)
    requires i < sch.maxIterations
    requires Iterate(eval, acceptance, current, sch.temperature(i), us[i], rs[i]).Err?
    ensures Outcome(eval, acceptance, sch, initParam, us, rs) == Err(ZeroTemperature)
  {
    var start := Start(eval, initParam);
    ExecutedBeyond(sch, i);
    assert Anneal(eval, acceptance, sch, start, us, rs, i + 1).Err?;
    AnnealErrPersists(eval, acceptance, sch, start, us, rs, i + 1, Executed(sch));
    if i > 0 {
      AnnealPrefix(eval, acceptance, sch, start, us, rs, i, 1);
    }
  }

  /** An iteration that leaves the best prediction unbound is the first, and the run raises. */
  lemma LoopUnbound(eval: real -> Score, acceptance: (real, real) -> real, sch: Schedule, initParam: real,
                    us: seq<real>, rs: seq<real>, i: nat, states: seq<State>, current: State,
                    paramData: seq<real>, fitnessData: seq<real>, bestParamData: seq<real>, bestFitnessData: seq<real>,
                    next: State)
    requires LoopState(eval, acceptance, sch, initParam, us, rs, i, states, current,
                       paramData, fitnessData, bestParamData, bestFitnessData)
    requires i < sch.maxIterations
    requires Iterate(eval, acceptance, current, sch.temperature(i), us[i], rs[i]) == Ok(next)
    requires next.bestPrediction.None?
    ensures Outcome(eval, acceptance, sch, initParam, us, rs) == Err(UnboundBestPrediction)
  {
    assert i == 0;
    AnnealExtend(eval, acceptance, sch, Start(eval, initParam), us, rs, i, states, next);
  }

  /** The iterations completed and the best prediction is bound: the run returns the trace lists. */
  lemma OutcomeCompleted(eval: real -> Score, acceptance: (real, real) -> real, sch: Schedule, initParam: real,
                         us: seq<real>, rs: seq<real>, states: seq<State>,
                         paramData: seq<real>, fitnessData: seq<real>, bestParamData: seq<real>, bestFitnessData: seq<real>)
    requires |us| == sch.maxIterations && |rs| == sch.maxIterations && AllDraws(us)
    requires Executed(sch) > 0 && Anneal(eval, acceptance, sch, Start(eval, initParam), us, rs, Executed(sch)) == Ok(states)
    requires states[1].bestPrediction.Some? && states[|states| - 1].bestPrediction.Some?
    requires Recorded(states, paramData, fitnessData, bestParamData, bestFitnessData)
    ensures var last := states[|states| - 1];
      Outcome(eval, acceptance, sch, initParam, us, rs) ==
        Ok(Annealed(last.bestParam, last.bestFitness, last.bestPrediction.value,
                    paramData, fitnessData, bestParamData, bestFitnessData))
  {
    AnnealPrefix(eval, acceptance, sch, Start(eval, initParam), us, rs, Executed(sch), 1);
    ReportIs(states, paramData, fitnessData, bestParamData, bestFitnessData);
  }

  /** A cold iteration that binds the best prediction ends the loop, and the run returns. */
  lemma LoopStopped(eval: real -> Score, acceptance: (real, real) -> real, sch: Schedule, initParam: real,
                    us: seq<real>, rs: seq<real>, i: nat, states: seq<State>, current: State,
                    paramData: seq<real>, fitnessData: seq<real>, bestParamData: seq<real>, bestFitnessData: seq<real>,
                    next: State)
    requires LoopState(eval, acceptance, sch, initParam, us, rs, i, states, current,
                       paramData, fitnessData, bestParamData, bestFitnessData)
    requires i < sch.maxIterations && Cold(sch, i)
    requires Iterate(eval, acceptance, current, sch.temperature(i), us[i], rs[i]) == Ok(next)
    requires next.bestPrediction.Some?
    ensures Outcome(eval, acceptance, sch, initParam, us, rs) ==
      Ok(Annealed(next.bestParam, next.bestFitness, next.bestPrediction.value,
                  paramData + [next.param], fitnessData + [next.fitness],
                  bestParamData + [next.bestParam], bestFitnessData + [next.bestFitness]))
  {
    ExecutedAt(sch, i + 1);
    AnnealExtend(eval, acceptance, sch, Start(eval, initParam), us, rs, i, states, next);
    RecordedAppend(states, paramData, fitnessData, bestParamData, bestFitnessData, next);
    OutcomeCompleted(eval, acceptance, sch, initParam, us, rs, states + [next],
                     paramData + [next.param], fitnessData + [next.fitness],
                     bestParamData + [next.bestParam], bestFitnessData + [next.bestFitness]);
  }

  /** The loop ran out of budget: the run returns, unless no iteration ran at all. */
  lemma LoopExhausted(eval: real -> Score, acceptance: (real, real) -> real, sch: Schedule, initParam: real,
                      us: seq<real>, rs: seq<real>, states: seq<State>, current: State,
                      paramData: seq<real>, fitnessData: seq<real>, bestParamData: seq<real>, bestFitnessData: seq<real>)
    requires LoopState(eval, acceptance, sch, initParam, us, rs, sch.maxIterations, states, current,
                       paramData, fitnessData, bestParamData, bestFitnessData)
    ensures current.bestPrediction.None? ==> Outcome(eval, acceptance, sch, initParam, us, rs) == Err(UnboundBestPrediction)
    ensures current.bestPrediction.Some? ==>
      Outcome(eval, acceptance, sch, initParam, us, rs) ==
        Ok(Annealed(current.bestParam, current.bestFitness, current.bestPrediction.value,
                    paramData, fitnessData, bestParamData, bestFitnessData))
  {
    if current.bestPrediction.Some? {
      ExecutedAt(sch, sch.maxIterations);
      OutcomeCompleted(eval, acceptance, sch, initParam, us, rs, states, paramData, fitnessData, bestParamData, bestFitnessData);
    }
  }

  /**
    simulated_annealing: from the initial parameter, run the iterations of the
    schedule, appending the current and best values to the four trace lists,
    reading the best prediction after each iteration, and stopping after the
    first iteration whose temperature is below the stopping temperature.
   */
  method SimulatedAnnealing(eval: real -> Score, acceptance: (real, real) -> real, initParam: real,
                            temperature: nat -> real, stoppingTemp: real, maxIterations: nat,
                            us: seq<real>, rs: seq<real>) returns (res: Result<Annealed, Error>)
    requires |us| == maxIterations && |rs| == maxIterations && AllDraws(us)
    ensures res == Outcome(eval, acceptance, Schedule(temperature, stoppingTemp, maxIterations), initParam, us, rs)
  {
    ghost var sch := Schedule(temperature, stoppingTemp, maxIterations);
    var initial := eval(initParam);
    var current := State(initParam, initial.confidence, initial.name, initParam, initial.confidence, None);
    var paramData, fitnessData := [current.param], [current.fitness];
    var bestParamData, bestFitnessData := [current.bestParam], [current.bestFitness];
    ghost var states := [current];
    LoopStart(eval, acceptance, sch, initParam, us, rs);

    var i := 0;
    ghost var stopped := false;
    while i < maxIterations
      invariant !stopped
      invariant LoopState(eval, acceptance, sch, initParam, us, rs, i, states, current,
                          paramData, fitnessData, bestParamData, bestFitnessData)
    {
      var temp := temperature(i);
      var next := AnnealingIteration(eval, acceptance, current, temp, us[i], rs[i]);
      if next.Err? {
        LoopRaised(eval, acceptance, sch, initParam, us, rs, i, states, current,
                   paramData, fitnessData, bestParamData, bestFitnessData);
        return Err(next.error);
      }
      if next.value.bestPrediction.None? {
        LoopUnbound(eval, acceptance, sch, initParam, us, rs, i, states, current,
                    paramData, fitnessData, bestParamData, bestFitnessData, next.value);
      } else if temp < stoppingTemp {
        LoopStopped(eval, acceptance, sch, initParam, us, rs, i, states, current,
                    paramData, fitnessData, bestParamData, bestFitnessData, next.value);
      } else {
        LoopStep(eval, acceptance, sch, initParam, us, rs, i, states, current,
                 paramData, fitnessData, bestParamData, bestFitnessData, next.value);
      }
      current := next.value;
      states := states + [current];
      paramData, fitnessData := paramData + [current.param], fitnessData + [current.fitness];
      bestParamData, bestFitnessData := bestParamData + [current.bestParam], bestFitnessData + [current.bestFitness];
      i := i + 1;
      if current.bestPrediction.None? {
        return Err(UnboundBestPrediction);
      }
      if temp < stoppingTemp {
        stopped := true;
        break;
      }
    }
    if !stopped {
      LoopExhausted(eval, acceptance, sch, initParam, us, rs, states, current,
                    paramData, fitnessData, bestParamData, bestFitnessData);
    }
    if current.bestPrediction.None? {
      return Err(UnboundBestPrediction);
    }
    res := Ok(Annealed(current.bestParam, current.bestFitness, current.bestPrediction.value,
                       paramData, fitnessData, bestParamData, bestFitnessData));
  }
}
