/**
  Particle swarm optimisation over the detector scale factor
  (code/particle_swarm_optimisation.py, `particle_swarm_optimization`).

  The evaluator is the function parameter `eval`; only its confidence is
  compared, its name is carried along as the prediction. Every
  `random.uniform` and `random.random` call is given by its underlying
  `random()` draw in [0, 1).
 */
module Swarm {
  import opened Scoring
  import opened Wrappers
  import opened Traces

  /** The exception that can end a run: `particles[0]` on an empty swarm. */
  datatype Error = NoParticles

  /** The draws behind one particle's initial position and velocity. */
  datatype Spawn = Spawn(u: real, w: real)

  /** The two `random.random()` draws of one velocity update, in call order. */
  datatype Pull = Pull(r1: real, r2: real)

  /** The value of one particle record. */
  datatype ParticleState = ParticleState(position: real, velocity: real, bestPosition: real, bestFitness: real, prediction: string)

  /** The global best position, its fitness and its prediction. */
  datatype GlobalBest = GlobalBest(position: real, fitness: real, prediction: string)

  /** The swarm between iterations. */
  datatype SwarmState = SwarmState(particles: seq<ParticleState>, global: GlobalBest)

  /** What a run returns, with the lists it records for plotting. */
  datatype Swarmed = Swarmed(best: GlobalBest,
                             globalBestPositions: seq<real>, globalBestFitnesses: seq<real>,
                             particlePositions: seq<seq<real>>, particleFitnesses: seq<seq<real>>)

  /** A particle as created: a position in [1, 2], a velocity in [-0.1, 0.1], and its own fitness as best. */
  function InitialState(eval: real -> Score, d: Spawn): (s: ParticleState)
    ensures s.bestPosition == s.position
    ensures s.bestFitness == eval(s.position).confidence && s.prediction == eval(s.position).name
    ensures IsDraw(d.u) ==> 1.0 <= s.position <= 2.0
    ensures IsDraw(d.w) ==> -0.1 <= s.velocity <= 0.1
  {
    var position := Uniform(1.0, 2.0, d.u);
    ParticleState(position, Uniform(-0.1, 0.1, d.w), position, eval(position).confidence, eval(position).name)
  }

  function InitialStates(eval: real -> Score, spawns: seq<Spawn>): (states: seq<ParticleState>)
    ensures |states| == |spawns|
    ensures forall k :: 0 <= k < |spawns| ==> states[k] == InitialState(eval, spawns[k])
  {
    seq(|spawns|, k requires 0 <= k < |spawns| => InitialState(eval, spawns[k]))
  }

  /** The velocity update before the limit: inertia, the pull to the personal best and the pull to the global best. */
  function NewVelocity(s: ParticleState, globalBestPosition: real, p: Pull): real
  {
    0.5 * s.velocity + 1.5 * p.r1 * (s.bestPosition - s.position) + 2.0 * p.r2 * (globalBestPosition - s.position)
  }

  /**
    One particle's move: the new velocity is limited to [-0.1, 0.1], the new
    position to [1, 2], and the personal best is replaced exactly when the
    fitness at the new position is strictly greater.
   */
  function MoveState(eval: real -> Score, s: ParticleState, globalBestPosition: real, p: Pull): (s': ParticleState)
    ensures s'.velocity == Clamp(NewVelocity(s, globalBestPosition, p), -0.1, 0.1)
    ensures s'.position == Clamp(s.position + s'.velocity, 1.0, 2.0)
    ensures -0.1 <= s'.velocity <= 0.1
    ensures 1.0 <= s'.position <= 2.0
    ensures 1.0 <= s.position + s'.velocity <= 2.0 ==> s'.position == s.position + s'.velocity
    ensures s'.bestFitness >= s.bestFitness
    ensures eval(s'.position).confidence > s.bestFitness ==>
      s'.bestPosition == s'.position && s'.bestFitness == eval(s'.position).confidence &&
      s'.prediction == eval(s'.position).name
    ensures eval(s'.position).confidence <= s.bestFitness ==>
      s'.bestPosition == s.bestPosition && s'.bestFitness == s.bestFitness && s'.prediction == s.prediction
  {
    var velocity := Clamp(NewVelocity(s, globalBestPosition, p), -0.1, 0.1);
    var position := Clamp(s.position + velocity, 1.0, 2.0);
    var current := eval(position);
    if current.confidence > s.bestFitness then
      ParticleState(position, velocity, position, current.confidence, current.name)
    else
      ParticleState(position, velocity, s.bestPosition, s.bestFitness, s.prediction)
  }

  /** A particle whose best is the evaluation of its best position, both positions in [1, 2]. */
  predicate Tracked(eval: real -> Score, s: ParticleState)
  {
    1.0 <= s.position <= 2.0 && 1.0 <= s.bestPosition <= 2.0 &&
    s.bestFitness == eval(s.bestPosition).confidence && s.prediction == eval(s.bestPosition).name
  }

  lemma MoveTracked(eval: real -> Score, s: ParticleState, globalBestPosition: real, p: Pull)
    requires Tracked(eval, s)
    ensures Tracked(eval, MoveState(eval, s, globalBestPosition, p))
  {
  }

  /** The personal best of a particle, as a global best. */
  function Best(s: ParticleState): GlobalBest
  {
    GlobalBest(s.bestPosition, s.bestFitness, s.prediction)
  }

  /**
    The scan over the first n particles: the global best is replaced by a
    particle's best whenever that is strictly greater.
   */
  function Scan(states: seq<ParticleState>, g: GlobalBest, n: nat): (g': GlobalBest)
    requires n <= |states|
    ensures g'.fitness >= g.fitness
    ensures forall k :: 0 <= k < n ==> states[k].bestFitness <= g'.fitness
    ensures g' != g ==> g'.fitness > g.fitness
  {
    if n == 0 then g
    else
      var h := Scan(states, g, n - 1);
      if states[n - 1].bestFitness > h.fitness then Best(states[n - 1]) else h
  }

  /** The scan ends with the global best it started from or with the personal best of a scanned particle. */
  lemma {:induction false} ScanFrom(states: seq<ParticleState>, g: GlobalBest, n: nat)
    requires n <= |states|
    ensures var g' := Scan(states, g, n);
      g' == g || exists k :: 0 <= k < n && g' == Best(states[k])
  {
    if n > 0 {
      ScanFrom(states, g, n - 1);
    }
  }

  /** Every particle moves with the global best as it stood before the sweep. */
  function Sweep(eval: real -> Score, states: seq<ParticleState>, globalBestPosition: real, pulls: seq<Pull>): (moved: seq<ParticleState>)
    requires |pulls| == |states|
    ensures |moved| == |states|
    ensures forall k :: 0 <= k < |states| ==> moved[k] == MoveState(eval, states[k], globalBestPosition, pulls[k])
  {
    seq(|states|, k requires 0 <= k < |states| => MoveState(eval, states[k], globalBestPosition, pulls[k]))
  }

  /** One iteration: the sweep, then the scan over the moved particles. */
  function Iteration(eval: real -> Score, sw: SwarmState, pulls: seq<Pull>): (next: SwarmState)
    requires |pulls| == |sw.particles|
    ensures |next.particles| == |sw.particles|
  {
    var moved := Sweep(eval, sw.particles, sw.global.position, pulls);
    SwarmState(moved, Scan(moved, sw.global, |moved|))
  }

  /** One iteration as a step function of the draws; draws of another size than the swarm leave it as it is. */
  function Advance(eval: real -> Score): (next: (SwarmState, seq<Pull>) -> SwarmState)
  {
    (sw: SwarmState, pulls: seq<Pull>) => if |pulls| == |sw.particles| then Iteration(eval, sw, pulls) else sw
  }

  /** Draws for a number of iterations over n particles. */
  predicate IterationDraws(pullss: seq<seq<Pull>>, n: nat)
  {
    forall i :: 0 <= i < |pullss| ==> |pullss[i]| == n
  }

  /** The swarm after i iterations. */
  function Run(eval: real -> Score, sw: SwarmState, pullss: seq<seq<Pull>>, i: nat): (res: SwarmState)
    requires i <= |pullss|
    ensures |res.particles| == |sw.particles|
  {
    RunSize(eval, sw, pullss, i);
    Trace(Advance(eval), sw, pullss)[i]
  }

  lemma {:induction false} RunSize(eval: real -> Score, sw: SwarmState, pullss: seq<seq<Pull>>, i: nat)
    requires i <= |pullss|
    ensures |Trace(Advance(eval), sw, pullss)[i].particles| == |sw.particles|
  {
    if i > 0 {
      RunSize(eval, sw, pullss, i - 1);
      TraceAt(Advance(eval), sw, pullss, i - 1);
    }
  }

  /** Iteration i takes the swarm after i iterations to the swarm after i + 1. */
  lemma RunStep(eval: real -> Score, sw: SwarmState, pullss: seq<seq<Pull>>, i: nat)
    requires i < |pullss| && IterationDraws(pullss, |sw.particles|)
    ensures Run(eval, sw, pullss, i + 1) == Iteration(eval, Run(eval, sw, pullss, i), pullss[i])
  {
    TraceAt(Advance(eval), sw, pullss, i);
  }

  /** The swarm recorded by iteration i (counting from 0), after its sweep and scan. */
  function Recorded(eval: real -> Score, sw: SwarmState, pullss: seq<seq<Pull>>, i: nat): (res: SwarmState)
    requires i < |pullss| && IterationDraws(pullss, |sw.particles|)
    ensures |res.particles| == |sw.particles|
  {
    Run(eval, sw, pullss, i + 1)
  }

  /** The swarms recorded by the first n iterations. */
  function History(eval: real -> Score, sw: SwarmState, pullss: seq<seq<Pull>>, n: nat): (h: seq<SwarmState>)
    requires n <= |pullss| && IterationDraws(pullss, |sw.particles|)
    ensures |h| == n
    ensures forall i :: 0 <= i < n ==> h[i] == Recorded(eval, sw, pullss, i)
  {
    if n == 0 then [] else History(eval, sw, pullss, n - 1) + [Run(eval, sw, pullss, n)]
  }

  /** Every recorded swarm has n particles. */
  predicate Sized(h: seq<SwarmState>, n: nat)
  {
    forall t :: 0 <= t < |h| ==> |h[t].particles| == n
  }

  /** `global_best_positions` and `global_best_fitnesses` for a history. */
  function GlobalPositions(h: seq<SwarmState>): (r: seq<real>)
    ensures |r| == |h| && forall t :: 0 <= t < |h| ==> r[t] == h[t].global.position
  {
    seq(|h|, t requires 0 <= t < |h| => h[t].global.position)
  }

  function GlobalFitnesses(h: seq<SwarmState>): (r: seq<real>)
    ensures |r| == |h| && forall t :: 0 <= t < |h| ==> r[t] == h[t].global.fitness
  {
    seq(|h|, t requires 0 <= t < |h| => h[t].global.fitness)
  }

  /** `particle_positions` and `particle_fitnesses` for a history: one list per particle. */
  function ParticlePositions(h: seq<SwarmState>, n: nat): (r: seq<seq<real>>)
    requires Sized(h, n)
    ensures |r| == n && forall k :: 0 <= k < n ==> |r[k]| == |h|
    ensures forall k, t :: 0 <= k < n && 0 <= t < |h| ==> r[k][t] == h[t].particles[k].position
  {
    seq(n, k requires 0 <= k < n => seq(|h|, t requires 0 <= t < |h| => h[t].particles[k].position))
  }

  function ParticleFitnesses(eval: real -> Score, h: seq<SwarmState>, n: nat): (r: seq<seq<real>>)
    requires Sized(h, n)
    ensures |r| == n && forall k :: 0 <= k < n ==> |r[k]| == |h|
    ensures forall k, t :: 0 <= k < n && 0 <= t < |h| ==> r[k][t] == eval(h[t].particles[k].position).confidence
  {
    seq(n, k requires 0 <= k < n => seq(|h|, t requires 0 <= t < |h| => eval(h[t].particles[k].position).confidence))
  }

  /** Recording one more swarm appends one entry to every list. */
  lemma RecordAppend(eval: real -> Score, h: seq<SwarmState>, x: SwarmState, n: nat)
    requires Sized(h, n) && |x.particles| == n
    ensures Sized(h + [x], n)
    ensures GlobalPositions(h + [x]) == GlobalPositions(h) + [x.global.position]
    ensures GlobalFitnesses(h + [x]) == GlobalFitnesses(h) + [x.global.fitness]
    ensures forall k :: 0 <= k < n ==>
      ParticlePositions(h + [x], n)[k] == ParticlePositions(h, n)[k] + [x.particles[k].position] &&
      ParticleFitnesses(eval, h + [x], n)[k] == ParticleFitnesses(eval, h, n)[k] + [eval(x.particles[k].position).confidence]
  {
    assert Sized(h + [x], n);
    forall k | 0 <= k < n
      ensures ParticlePositions(h + [x], n)[k] == ParticlePositions(h, n)[k] + [x.particles[k].position]
      ensures ParticleFitnesses(eval, h + [x], n)[k] == ParticleFitnesses(eval, h, n)[k] + [eval(x.particles[k].position).confidence]
    {
    }
  }

  /**
    A coherent swarm: every particle tracked, and the global best equal to
    the personal best of some particle.
   */
  predicate Coherent(eval: real -> Score, sw: SwarmState)
  {
    (forall k :: 0 <= k < |sw.particles| ==> Tracked(eval, sw.particles[k])) &&
    exists k :: 0 <= k < |sw.particles| && sw.global == Best(sw.particles[k])
  }

  /**
    An iteration never lowers the global best or a personal best, and leaves
    the global best at least every personal best.
   */
  lemma IterationMonotone(eval: real -> Score, sw: SwarmState, pulls: seq<Pull>)
    requires |pulls| == |sw.particles|
    ensures var next := Iteration(eval, sw, pulls);
      next.global.fitness >= sw.global.fitness &&
      (forall k :: 0 <= k < |sw.particles| ==> next.particles[k].bestFitness >= sw.particles[k].bestFitness) &&
      (forall k :: 0 <= k < |sw.particles| ==> next.particles[k].bestFitness <= next.global.fitness)
  {
  }

  /** An iteration keeps the swarm coherent. */
  lemma IterationKeeps(eval: real -> Score, sw: SwarmState, pulls: seq<Pull>)
    requires |pulls| == |sw.particles| && Coherent(eval, sw)
    ensures Coherent(eval, Iteration(eval, sw, pulls))
  {
    var moved := Sweep(eval, sw.particles, sw.global.position, pulls);
    var next := Iteration(eval, sw, pulls);
    forall k | 0 <= k < |moved|
      ensures Tracked(eval, moved[k])
    {
      MoveTracked(eval, sw.particles[k], sw.global.position, pulls[k]);
    }
    ScanFrom(moved, sw.global, |moved|);
    if next.global == sw.global {
      var k :| 0 <= k < |sw.particles| && sw.global == Best(sw.particles[k]);
      // the particle the global best came from has not improved, so its best is unchanged
      assert moved[k].bestFitness <= next.global.fitness;
      assert Best(moved[k]) == next.global;
    }
  }

  /** Every swarm along a run from a coherent start is coherent. */
  lemma {:induction false} RunCoherent(eval: real -> Score, sw: SwarmState, pullss: seq<seq<Pull>>, i: nat)
    requires i <= |pullss| && IterationDraws(pullss, |sw.particles|) && Coherent(eval, sw)
    ensures Coherent(eval, Run(eval, sw, pullss, i))
  {
    if i > 0 {
      RunCoherent(eval, sw, pullss, i - 1);
      RunStep(eval, sw, pullss, i - 1);
      var prev := Run(eval, sw, pullss, i - 1);
      IterationKeeps(eval, prev, pullss[i - 1]);
    }
  }

  /** The global best and every personal best never decrease along a run. */
  lemma {:induction false} RunMonotone(eval: real -> Score, sw: SwarmState, pullss: seq<seq<Pull>>, j: nat, i: nat)
    requires j <= i <= |pullss| && IterationDraws(pullss, |sw.particles|)
    ensures Run(eval, sw, pullss, j).global.fitness <= Run(eval, sw, pullss, i).global.fitness
    ensures forall k :: 0 <= k < |sw.particles| ==>
      Run(eval, sw, pullss, j).particles[k].bestFitness <= Run(eval, sw, pullss, i).particles[k].bestFitness
    decreases i
  {
    if j < i {
      RunMonotone(eval, sw, pullss, j, i - 1);
      RunStep(eval, sw, pullss, i - 1);
      IterationMonotone(eval, Run(eval, sw, pullss, i - 1), pullss[i - 1]);
    }
  }

  /** After at least one iteration the global best is at least every personal best. */
  lemma RunDominates(eval: real -> Score, sw: SwarmState, pullss: seq<seq<Pull>>, i: nat)
    requires 0 < i <= |pullss| && IterationDraws(pullss, |sw.particles|)
    ensures var now := Run(eval, sw, pullss, i);
      forall k :: 0 <= k < |sw.particles| ==> now.particles[k].bestFitness <= now.global.fitness
  {
    RunStep(eval, sw, pullss, i - 1);
    IterationMonotone(eval, Run(eval, sw, pullss, i - 1), pullss[i - 1]);
  }

  /** After at least one iteration every velocity is in [-0.1, 0.1]. */
  lemma RunVelocities(eval: real -> Score, sw: SwarmState, pullss: seq<seq<Pull>>, i: nat)
    requires 0 < i <= |pullss| && IterationDraws(pullss, |sw.particles|)
    ensures var now := Run(eval, sw, pullss, i);
      forall k :: 0 <= k < |sw.particles| ==> -0.1 <= now.particles[k].velocity <= 0.1
  {
    RunStep(eval, sw, pullss, i - 1);
  }

  /** The swarm as initialised: its particles, and particle 0's best as the global best. */
  function Initial(eval: real -> Score, spawns: seq<Spawn>): (sw: SwarmState)
    requires spawns != []
    ensures |sw.particles| == |spawns|
    ensures forall k :: 0 <= k < |spawns| && IsDraw(spawns[k].u) && IsDraw(spawns[k].w) ==>
      Tracked(eval, sw.particles[k]) && -0.1 <= sw.particles[k].velocity <= 0.1
  {
    var states := InitialStates(eval, spawns);
    SwarmState(states, Best(states[0]))
  }

  /** Initialisation from draws in [0, 1) gives a coherent swarm. */
  lemma InitialCoherent(eval: real -> Score, spawns: seq<Spawn>)
    requires spawns != [] && forall k :: 0 <= k < |spawns| ==> IsDraw(spawns[k].u) && IsDraw(spawns[k].w)
    ensures Coherent(eval, Initial(eval, spawns))
  {
    assert Initial(eval, spawns).global == Best(Initial(eval, spawns).particles[0]);
  }

  /**
    particle_swarm_optimization as a function of its draws: an exception on
    an empty swarm, otherwise the global best after the last iteration with
    the recorded lists.
   */
  function Outcome(eval: real -> Score, numParticles: nat, maxIterations: nat, spawns: seq<Spawn>, pullss: seq<seq<Pull>>): (res: Result<Swarmed, Error>)
    requires |spawns| == numParticles && |pullss| == maxIterations && IterationDraws(pullss, numParticles)
    ensures res.Err? <==> numParticles == 0
    ensures res.Err? ==> res.error == NoParticles
    ensures res.Ok? ==> |res.value.globalBestPositions| == |res.value.globalBestFitnesses| == maxIterations
  {
    if numParticles == 0 then Err(NoParticles)
    else
      var sw := Initial(eval, spawns);
      var h := History(eval, sw, pullss, maxIterations);
      Ok(Swarmed(Run(eval, sw, pullss, maxIterations).global, GlobalPositions(h), GlobalFitnesses(h),
                 ParticlePositions(h, numParticles), ParticleFitnesses(eval, h, numParticles)))
  }

  /** The lists recorded by the first i iterations of a run. */
  ghost predicate Recording(eval: real -> Score, sw: SwarmState, pullss: seq<seq<Pull>>, i: nat,
                            globalPositions: seq<real>, globalFitnesses: seq<real>,
                            particlePositions: seq<seq<real>>, particleFitnesses: seq<seq<real>>)
    requires i <= |pullss| && IterationDraws(pullss, |sw.particles|)
  {
    var h := History(eval, sw, pullss, i);
    Sized(h, |sw.particles|) &&
    globalPositions == GlobalPositions(h) && globalFitnesses == GlobalFitnesses(h) &&
    particlePositions == ParticlePositions(h, |sw.particles|) &&
    particleFitnesses == ParticleFitnesses(eval, h, |sw.particles|)
  }

  lemma RecordingStart(eval: real -> Score, sw: SwarmState, pullss: seq<seq<Pull>>)
    requires IterationDraws(pullss, |sw.particles|)
    ensures Recording(eval, sw, pullss, 0, [], [], seq(|sw.particles|, _ => []), seq(|sw.particles|, _ => []))
  {
  }

  /** Iteration i appends the swarm it records to every list. */
  lemma RecordingStep(eval: real -> Score, sw: SwarmState, pullss: seq<seq<Pull>>, i: nat,
                      globalPositions: seq<real>, globalFitnesses: seq<real>,
                      particlePositions: seq<seq<real>>, particleFitnesses: seq<seq<real>>,
                      particlePositions': seq<seq<real>>, particleFitnesses': seq<seq<real>>)
    requires i < |pullss| && IterationDraws(pullss, |sw.particles|)
    requires Recording(eval, sw, pullss, i, globalPositions, globalFitnesses, particlePositions, particleFitnesses)
    requires |particlePositions'| == |particleFitnesses'| == |sw.particles|
    requires var next := Run(eval, sw, pullss, i + 1);
      forall k :: 0 <= k < |sw.particles| ==>
        particlePositions'[k] == particlePositions[k] + [next.particles[k].position] &&
        particleFitnesses'[k] == particleFitnesses[k] + [eval(next.particles[k].position).confidence]
    ensures var next := Run(eval, sw, pullss, i + 1);
      Recording(eval, sw, pullss, i + 1, globalPositions + [next.global.position], globalFitnesses + [next.global.fitness],
                particlePositions', particleFitnesses')
  {
    var n := |sw.particles|;
    var h := History(eval, sw, pullss, i);
    var next := Run(eval, sw, pullss, i + 1);
    RecordAppend(eval, h, next, n);
    assert History(eval, sw, pullss, i + 1) == h + [next];
    assert particlePositions' == ParticlePositions(h + [next], n);
    assert particleFitnesses' == ParticleFitnesses(eval, h + [next], n);
  }

  /** A completed run with the swarm and lists of its last iteration is the outcome. */
  lemma OutcomeIs(eval: real -> Score, numParticles: nat, maxIterations: nat, spawns: seq<Spawn>, pullss: seq<seq<Pull>>,
                  globalBest: GlobalBest, globalPositions: seq<real>, globalFitnesses: seq<real>,
                  particlePositions: seq<seq<real>>, particleFitnesses: seq<seq<real>>)
    requires |spawns| == numParticles && |pullss| == maxIterations && IterationDraws(pullss, numParticles)
    requires numParticles > 0 && globalBest == Run(eval, Initial(eval, spawns), pullss, maxIterations).global
    requires Recording(eval, Initial(eval, spawns), pullss, maxIterations, globalPositions, globalFitnesses, particlePositions, particleFitnesses)
    ensures Outcome(eval, numParticles, maxIterations, spawns, pullss)
      == Ok(Swarmed(globalBest, globalPositions, globalFitnesses, particlePositions, particleFitnesses))
  {
  }

  /** A run fails exactly on an empty swarm, and otherwise records one entry per iteration. */
  lemma OutcomeShape(eval: real -> Score, numParticles: nat, maxIterations: nat, spawns: seq<Spawn>, pullss: seq<seq<Pull>>)
    requires |spawns| == numParticles && |pullss| == maxIterations && IterationDraws(pullss, numParticles)
    ensures var res := Outcome(eval, numParticles, maxIterations, spawns, pullss);
      (res.Err? <==> numParticles == 0) &&
      (res.Ok? ==>
        var r := res.value;
        |r.globalBestPositions| == |r.globalBestFitnesses| == maxIterations &&
        |r.particlePositions| == |r.particleFitnesses| == numParticles &&
        (forall k :: 0 <= k < numParticles ==>
          |r.particlePositions[k]| == |r.particleFitnesses[k]| == maxIterations) &&
        (maxIterations > 0 ==>
          r.globalBestPositions[maxIterations - 1] == r.best.position &&
          r.globalBestFitnesses[maxIterations - 1] == r.best.fitness))
  {
  }

  /**
    The returned best lies in [1, 2], is the evaluation of its position, and
    is at least every particle's final best once an iteration has run.
   */
  lemma OutcomeBest(eval: real -> Score, numParticles: nat, maxIterations: nat, spawns: seq<Spawn>, pullss: seq<seq<Pull>>)
    requires |spawns| == numParticles && |pullss| == maxIterations && IterationDraws(pullss, numParticles)
    requires forall k :: 0 <= k < numParticles ==> IsDraw(spawns[k].u) && IsDraw(spawns[k].w)
    ensures var res := Outcome(eval, numParticles, maxIterations, spawns, pullss);
      res.Ok? ==>
        var best := res.value.best;
        var final := Run(eval, Initial(eval, spawns), pullss, maxIterations);
        1.0 <= best.position <= 2.0 &&
        best.fitness == eval(best.position).confidence && best.prediction == eval(best.position).name &&
        (exists k :: 0 <= k < numParticles && best == Best(final.particles[k])) &&
        (maxIterations > 0 ==> forall k :: 0 <= k < numParticles ==> final.particles[k].bestFitness <= best.fitness)
  {
    if numParticles > 0 {
      var sw := Initial(eval, spawns);
      var final := Run(eval, sw, pullss, maxIterations);
      assert Outcome(eval, numParticles, maxIterations, spawns, pullss).value.best == final.global;
      InitialCoherent(eval, spawns);
      RunCoherent(eval, sw, pullss, maxIterations);
      var k :| 0 <= k < numParticles && final.global == Best(final.particles[k]);
      assert Outcome(eval, numParticles, maxIterations, spawns, pullss).value.best == Best(final.particles[k]);
      assert exists j :: 0 <= j < numParticles && Outcome(eval, numParticles, maxIterations, spawns, pullss).value.best == Best(final.particles[j]);
      assert 0 <= k < numParticles;
      assert Best(Run(eval, Initial(eval, spawns), pullss, maxIterations).particles[k]) == Best(final.particles[k]);
      if maxIterations > 0 {
        RunDominates(eval, sw, pullss, maxIterations);
      }
    }
  }

  /** The recorded global best fitness never decreases, and every recorded position is in [1, 2]. */
  lemma OutcomeTraces(eval: real -> Score, numParticles: nat, maxIterations: nat, spawns: seq<Spawn>, pullss: seq<seq<Pull>>)
    requires |spawns| == numParticles && |pullss| == maxIterations && IterationDraws(pullss, numParticles)
    requires forall k :: 0 <= k < numParticles ==> IsDraw(spawns[k].u) && IsDraw(spawns[k].w)
    ensures var res := Outcome(eval, numParticles, maxIterations, spawns, pullss);
      res.Ok? ==>
        var r := res.value;
        (forall i, j :: 0 <= i <= j < maxIterations ==> r.globalBestFitnesses[i] <= r.globalBestFitnesses[j]) &&
        (forall i :: 0 <= i < maxIterations ==> 1.0 <= r.globalBestPositions[i] <= 2.0) &&
        (forall k, i :: 0 <= k < numParticles && 0 <= i < maxIterations ==> 1.0 <= r.particlePositions[k][i] <= 2.0)
  {
    if numParticles > 0 {
      var sw := Initial(eval, spawns);
      var r := Outcome(eval, numParticles, maxIterations, spawns, pullss).value;
      var h := History(eval, sw, pullss, maxIterations);
      InitialCoherent(eval, spawns);
      forall i, j | 0 <= i <= j < maxIterations
        ensures r.globalBestFitnesses[i] <= r.globalBestFitnesses[j]
      {
        assert r.globalBestFitnesses[i] == h[i].global.fitness;
        assert r.globalBestFitnesses[j] == h[j].global.fitness;
        RunMonotone(eval, sw, pullss, i + 1, j + 1);
      }
      forall i | 0 <= i < maxIterations
        ensures Coherent(eval, h[i])
      {
        RunCoherent(eval, sw, pullss, i + 1);
      }
      forall i | 0 <= i < maxIterations
        ensures 1.0 <= r.globalBestPositions[i] <= 2.0
      {
        assert r.globalBestPositions[i] == h[i].global.position;
        var k :| 0 <= k < |h[i].particles| && h[i].global == Best(h[i].particles[k]);
      }
      forall k, i | 0 <= k < numParticles && 0 <= i < maxIterations
        ensures 1.0 <= r.particlePositions[k][i] <= 2.0
      {
        assert r.particlePositions[k][i] == h[i].particles[k].position;
      }
    }
  }

  /** One particle record, updated in place. */
  class Particle {
    var position: real
    var velocity: real
    var bestPosition: real
    var bestFitness: real
    var prediction: string

    function State(): ParticleState
      reads this
    {
      ParticleState(position, velocity, bestPosition, bestFitness, prediction)
    }

    /** A new particle at `random.uniform(1, 2)` with velocity `random.uniform(-0.1, 0.1)`. */
    constructor(eval: real -> Score, d: Spawn)
      ensures State() == InitialState(eval, d)
    {
      var start := Uniform(1.0, 2.0, d.u);
      var fitness := eval(start);
      position := start;
      velocity := Uniform(-0.1, 0.1, d.w);
      bestPosition := start;
      bestFitness := fitness.confidence;
      prediction := fitness.name;
    }

    /**
      Update the velocity, then the position, then the personal best; returns
      the fitness at the new position.
     */
    method Move(eval: real -> Score, globalBestPosition: real, p: Pull) returns (currentFitness: real)
      modifies this
      ensures State() == MoveState(eval, old(State()), globalBestPosition, p)
      ensures currentFitness == eval(position).confidence
    {
      var newVelocity := NewVelocity(State(), globalBestPosition, p);
      velocity := Clamp(newVelocity, -0.1, 0.1);
      position := position + velocity;
      position := Clamp(position, 1.0, 2.0);
      var current := eval(position);
      currentFitness := current.confidence;
      if current.confidence > bestFitness {
        bestPosition := position;
        bestFitness := current.confidence;
        prediction := current.name;
      }
    }
  }

  predicate Distinct(particles: seq<Particle>)
  {
    forall a, b :: 0 <= a < b < |particles| ==> particles[a] != particles[b]
  }

  /**
    The sweep over the particles: each moves with the given global best, and
    its new position and fitness are appended to its lists.
   */
  method SweepParticles(eval: real -> Score, particles: seq<Particle>, globalBestPosition: real, pulls: seq<Pull>,
                        positions: seq<seq<real>>, fitnesses: seq<seq<real>>)
    returns (positions': seq<seq<real>>, fitnesses': seq<seq<real>>)
    requires Distinct(particles) && |pulls| == |positions| == |fitnesses| == |particles|
    modifies particles
    ensures forall k :: 0 <= k < |particles| ==>
      particles[k].State() == MoveState(eval, old(particles[k].State()), globalBestPosition, pulls[k])
    ensures |positions'| == |fitnesses'| == |particles|
    ensures forall k :: 0 <= k < |particles| ==>
      positions'[k] == positions[k] + [particles[k].position] &&
      fitnesses'[k] == fitnesses[k] + [eval(particles[k].position).confidence]
  {
    positions', fitnesses' := positions, fitnesses;
    var j := 0;
    while j < |particles|
      invariant 0 <= j <= |particles|
      invariant |positions'| == |fitnesses'| == |particles|
      invariant forall k :: 0 <= k < j ==>
        particles[k].State() == MoveState(eval, old(particles[k].State()), globalBestPosition, pulls[k]) &&
        positions'[k] == positions[k] + [particles[k].position] &&
        fitnesses'[k] == fitnesses[k] + [eval(particles[k].position).confidence]
      invariant forall k :: j <= k < |particles| ==>
        particles[k].State() == old(particles[k].State()) && positions'[k] == positions[k] && fitnesses'[k] == fitnesses[k]
    {
      var particle := particles[j];
      var currentFitness := particle.Move(eval, globalBestPosition, pulls[j]);
      positions' := positions'[j := positions'[j] + [particle.position]];
      fitnesses' := fitnesses'[j := fitnesses'[j] + [currentFitness]];
      j := j + 1;
    }
  }

  /** The scan: replace the global best by each strictly better personal best, in order. */
  method ScanParticles(particles: seq<Particle>, ghost states: seq<ParticleState>, globalBest: GlobalBest)
    returns (position: real, fitness: real, prediction: string)
    requires |states| == |particles| && forall k :: 0 <= k < |particles| ==> particles[k].State() == states[k]
    ensures GlobalBest(position, fitness, prediction) == Scan(states, globalBest, |states|)
  {
    position, fitness, prediction := globalBest.position, globalBest.fitness, globalBest.prediction;
    var m := 0;
    while m < |particles|
      invariant 0 <= m <= |particles|
      invariant GlobalBest(position, fitness, prediction) == Scan(states, globalBest, m)
    {
      var particle := particles[m];
      assert particle.State() == states[m];
      if particle.bestFitness > fitness {
        position, fitness, prediction := particle.bestPosition, particle.bestFitness, particle.prediction;
      }
      m := m + 1;
    }
  }

  /** Create one particle per spawn draw, in order. */
  method CreateParticles(eval: real -> Score, spawns: seq<Spawn>) returns (particles: seq<Particle>)
    ensures |particles| == |spawns| && Distinct(particles)
    ensures forall k :: 0 <= k < |spawns| ==> fresh(particles[k]) && particles[k].State() == InitialState(eval, spawns[k])
  {
    particles := [];
    for i := 0 to |spawns|
      invariant |particles| == i && Distinct(particles)
      invariant forall k :: 0 <= k < i ==> fresh(particles[k]) && particles[k].State() == InitialState(eval, spawns[k])
    {
      var particle := new Particle(eval, spawns[i]);
      particles := particles + [particle];
    }
  }

  /**
    One iteration of the main loop: the sweep with the global best as it
    stood before it, the scan, and one entry appended to every list.
   */
  method SwarmIteration(eval: real -> Score, particles: seq<Particle>, ghost states: seq<ParticleState>, globalBest: GlobalBest,
                        pulls: seq<Pull>, globalPositions: seq<real>, globalFitnesses: seq<real>,
                        particlePositions: seq<seq<real>>, particleFitnesses: seq<seq<real>>)
    returns (globalBest': GlobalBest, globalPositions': seq<real>, globalFitnesses': seq<real>,
             particlePositions': seq<seq<real>>, particleFitnesses': seq<seq<real>>)
    requires Distinct(particles) && |states| == |pulls| == |particlePositions| == |particleFitnesses| == |particles|
    requires forall k :: 0 <= k < |particles| ==> particles[k].State() == states[k]
    modifies particles
    ensures var next := Iteration(eval, SwarmState(states, globalBest), pulls);
      (forall k :: 0 <= k < |particles| ==> particles[k].State() == next.particles[k]) &&
      globalBest' == next.global &&
      globalPositions' == globalPositions + [next.global.position] &&
      globalFitnesses' == globalFitnesses + [next.global.fitness] &&
      |particlePositions'| == |particleFitnesses'| == |particles| &&
      (forall k :: 0 <= k < |particles| ==>
        particlePositions'[k] == particlePositions[k] + [next.particles[k].position] &&
        particleFitnesses'[k] == particleFitnesses[k] + [eval(next.particles[k].position).confidence])
  {
    particlePositions', particleFitnesses' :=
      SweepParticles(eval, particles, globalBest.position, pulls, particlePositions, particleFitnesses);
    ghost var moved := Sweep(eval, states, globalBest.position, pulls);
    var position, fitness, prediction := ScanParticles(particles, moved, globalBest);
    globalBest' := GlobalBest(position, fitness, prediction);
    globalPositions' := globalPositions + [position];
    globalFitnesses' := globalFitnesses + [fitness];
  }

  /**
    particle_swarm_optimization: create the particles, take particle 0's best
    as the global best, then per iteration sweep, scan and record.
   */
  method ParticleSwarmOptimization(eval: real -> Score, numParticles: nat, maxIterations: nat,
                                   spawns: seq<Spawn>, pullss: seq<seq<Pull>>)
    returns (res: Result<Swarmed, Error>)
    requires |spawns| == numParticles && |pullss| == maxIterations && IterationDraws(pullss, numParticles)
    ensures res == Outcome(eval, numParticles, maxIterations, spawns, pullss)
  {
    var particles := CreateParticles(eval, spawns);
    if numParticles == 0 {
      // particles[0] raises IndexError
      return Err(NoParticles);
    }
    var globalBestPosition, globalBestFitness, globalPrediction :=
      particles[0].bestPosition, particles[0].bestFitness, particles[0].prediction;
    ghost var start := Initial(eval, spawns);
    var globalBestPositions: seq<real>, globalBestFitnesses: seq<real> := [], [];
    var particlePositions: seq<seq<real>> := seq(numParticles, _ => []);
    var particleFitnesses: seq<seq<real>> := seq(numParticles, _ => []);
    RecordingStart(eval, start, pullss);
    var globalBest := GlobalBest(globalBestPosition, globalBestFitness, globalPrediction);
    ghost var swarm := start;
    var i := 0;
    while i < maxIterations
      invariant 0 <= i <= maxIterations
      invariant |particles| == numParticles && Distinct(particles)
      invariant forall k :: 0 <= k < numParticles ==> fresh(particles[k])
      invariant swarm == Run(eval, start, pullss, i) && globalBest == swarm.global
      invariant forall k :: 0 <= k < numParticles ==> particles[k].State() == swarm.particles[k]
      invariant Recording(eval, start, pullss, i, globalBestPositions, globalBestFitnesses, particlePositions, particleFitnesses)
    {
      ghost var before := (globalBestPositions, globalBestFitnesses, particlePositions, particleFitnesses);
      globalBest, globalBestPositions, globalBestFitnesses, particlePositions, particleFitnesses :=
        SwarmIteration(eval, particles, swarm.particles, globalBest, pullss[i],
                       globalBestPositions, globalBestFitnesses, particlePositions, particleFitnesses);
      RunStep(eval, start, pullss, i);
      RecordingStep(eval, start, pullss, i, before.0, before.1, before.2, before.3, particlePositions, particleFitnesses);
      swarm := Run(eval, start, pullss, i + 1);
      i := i + 1;
    }
    OutcomeIs(eval, numParticles, maxIterations, spawns, pullss,
              globalBest, globalBestPositions, globalBestFitnesses, particlePositions, particleFitnesses);
    res := Ok(Swarmed(globalBest, globalBestPositions, globalBestFitnesses, particlePositions, particleFitnesses));
  }
}
