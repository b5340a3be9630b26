/**
  The genetic algorithm over the detector scale factor
  (code/genetic_algorithm.py, `genetic_algorithm`).

  The evaluator is the function parameter `eval`. The random numbers are
  explicit draws: `us` holds the `random.random()` draws behind the initial
  `random.uniform(1, 2)` values, and each offspring of each generation is bred
  from one `Breeding` record (two `random.choice` indices into the breeding
  pool, the `random.randint(0, 100)` value and the draw behind the mutation's
  `random.uniform(1, 2)`). Fitness values are whole (confidence, name) tuples,
  compared as Python compares tuples.
 */
module Genetic {
  import opened Scoring
  import opened Wrappers
  import opened Traces

  /** The exceptions that can end a run. */
  datatype Error =
    | EmptyPool        // random.choice on an empty breeding pool (fewer than two individuals)
    | EmptyPopulation  // max over an empty range of indices
    | UnboundScores    // fitness_scores read although no generation ran

  /** The draws consumed by one offspring. */
  datatype Breeding = Breeding(first: nat, second: nat, k: int, u: real)

  /** What the function returns: the chosen parameter and the fitness reported for it. */
  datatype Fittest = Fittest(param: real, fitness: Score)

  /**
    Draws that `random` can produce for a pool of `poolSize` members: choice
    indices below the pool size (when there is a pool), `randint(0, 100)`
    values and `random()` draws.
   */
  predicate ValidDraws(ds: seq<Breeding>, poolSize: nat)
  {
    forall i :: 0 <= i < |ds| ==>
      (poolSize > 0 ==> ds[i].first < poolSize && ds[i].second < poolSize) &&
      0 <= ds[i].k <= 100 && IsDraw(ds[i].u)
  }

  predicate InRange(population: seq<real>)
  {
    forall i :: 0 <= i < |population| ==> 1.0 <= population[i] <= 2.0
  }

  /** The initial population: one `random.uniform(1, 2)` per individual. */
  function InitialPopulation(us: seq<real>): (population: seq<real>)
    ensures |population| == |us|
    ensures forall i :: 0 <= i < |us| ==> population[i] == Uniform(1.0, 2.0, us[i])
    ensures AllDraws(us) ==> InRange(population)
  {
    seq(|us|, i requires 0 <= i < |us| => Uniform(1.0, 2.0, us[i]))
  }

  /** The fitness of every individual, in population order. */
  function Scores(eval: real -> Score, population: seq<real>): (scores: seq<Score>)
    ensures |scores| == |population|
    ensures forall i :: 0 <= i < |population| ==> scores[i] == eval(population[i])
  {
    seq(|population|, i requires 0 <= i < |population| => eval(population[i]))
  }

  /**
    The order of `sorted(range(n), key=score, reverse=True)`: a higher score
    first, and, the sort being stable, the lower index first among equal scores.
   */
  predicate Before(scores: seq<Score>, x: nat, y: nat)
    requires x < |scores| && y < |scores|
  {
    Less(scores[y], scores[x]) || (scores[x] == scores[y] && x < y)
  }

  lemma BeforeIrreflexive(scores: seq<Score>, x: nat)
    requires x < |scores|
    ensures !Before(scores, x, x)
  {
    LessIrreflexive(scores[x]);
  }

  lemma BeforeTransitive(scores: seq<Score>, x: nat, y: nat, z: nat)
    requires x < |scores| && y < |scores| && z < |scores|
    requires Before(scores, x, y) && Before(scores, y, z)
    ensures Before(scores, x, z)
  {
    if Less(scores[y], scores[x]) && Less(scores[z], scores[y]) {
      LessTransitive(scores[z], scores[y], scores[x]);
    }
  }

  lemma BeforeTotal(scores: seq<Score>, x: nat, y: nat)
    requires x < |scores| && y < |scores|
    ensures x == y || Before(scores, x, y) || Before(scores, y, x)
  {
    LessTotal(scores[x], scores[y]);
  }

  /** The indices in r are those of scores, listed in the order Before. */
  predicate Ordered(scores: seq<Score>, r: seq<nat>)
  {
    (forall a :: 0 <= a < |r| ==> r[a] < |scores|) &&
    (forall a, b :: 0 <= a < b < |r| ==> Before(scores, r[a], r[b]))
  }

  /** Insert index i into r after every index that comes before it. */
  function Insert(scores: seq<Score>, r: seq<nat>, i: nat): (r': seq<nat>)
    requires i < |scores| && forall a :: 0 <= a < |r| ==> r[a] < |scores|
    ensures multiset(r') == multiset(r) + multiset{i}
    ensures forall a :: 0 <= a < |r'| ==> r'[a] < |scores|
  {
    if r == [] then [i]
    else if Before(scores, i, r[0]) then [i] + r
    else
      assert r == [r[0]] + r[1..];
      [r[0]] + Insert(scores, r[1..], i)
  }

  /** In an ordered ranking the head comes before every later index. */
  lemma OrderedHeadFirst(scores: seq<Score>, r: seq<nat>, x: nat)
    requires Ordered(scores, r) && r != [] && x in r[1..]
    ensures r[0] < |scores| && x < |scores| && Before(scores, r[0], x)
  {
    var c :| 0 <= c < |r[1..]| && r[1..][c] == x;
    assert r[c + 1] == x;
  }

  /** Putting an index that comes before the head in front keeps the ranking ordered. */
  lemma InsertAtHead(scores: seq<Score>, r: seq<nat>, i: nat)
    requires i < |scores| && Ordered(scores, r) && r != [] && Before(scores, i, r[0])
    ensures Ordered(scores, [i] + r)
  {
    var r' := [i] + r;
    forall a, b | 0 <= a < b < |r'|
      ensures Before(scores, r'[a], r'[b])
    {
      if a == 0 && b > 1 {
        BeforeTransitive(scores, i, r[0], r[b - 1]);
      }
    }
  }

  /** Keeping the head in front of an ordered insertion into the tail keeps the ranking ordered. */
  lemma InsertAfterHead(scores: seq<Score>, r: seq<nat>, i: nat, rest: seq<nat>)
    requires i < |scores| && Ordered(scores, r) && r != [] && Before(scores, r[0], i)
    requires Ordered(scores, rest) && multiset(rest) == multiset(r[1..]) + multiset{i}
    ensures Ordered(scores, [r[0]] + rest)
  {
    var r' := [r[0]] + rest;
    forall a, b | 0 <= a < b < |r'|
      ensures Before(scores, r'[a], r'[b])
    {
      if a == 0 {
        var x := rest[b - 1];
        assert x in multiset(rest);
        if x != i {
          OrderedHeadFirst(scores, r, x);
        }
      }
    }
  }

  lemma {:induction false} InsertOrdered(scores: seq<Score>, r: seq<nat>, i: nat)
    requires i < |scores| && Ordered(scores, r) && i !in r
    ensures Ordered(scores, Insert(scores, r, i))
  {
    if r != [] {
      if Before(scores, i, r[0]) {
        InsertAtHead(scores, r, i);
      } else {
        InsertOrdered(scores, r[1..], i);
        BeforeTotal(scores, i, r[0]);
        InsertAfterHead(scores, r, i, Insert(scores, r[1..], i));
      }
    }
  }

  /** The indices 0 .. n - 1 in increasing order. */
  function Indices(n: nat): (r: seq<nat>)
    ensures |r| == n && forall a :: 0 <= a < n ==> r[a] == a
  {
    seq(n, a requires 0 <= a < n => a)
  }

  lemma IndicesExclude(n: nat)
    ensures n !in multiset(Indices(n))
  {
    var idx := Indices(n);
    assert forall a :: 0 <= a < n ==> idx[a] != n;
  }

  /** `sorted(range(n), key=lambda i: scores[i], reverse=True)` for the first n indices. */
  function RankPrefix(scores: seq<Score>, n: nat): (r: seq<nat>)
    requires n <= |scores|
    ensures multiset(r) == multiset(Indices(n))
    ensures forall a :: 0 <= a < |r| ==> r[a] < |scores|
  {
    if n == 0 then []
    else
      assert Indices(n) == Indices(n - 1) + [n - 1];
      Insert(scores, RankPrefix(scores, n - 1), n - 1)
  }

  function Ranking(scores: seq<Score>): (r: seq<nat>)
    ensures |r| == |scores|
  {
    var r := RankPrefix(scores, |scores|);
    assert |r| == |multiset(r)| == |Indices(|scores|)|;
    r
  }

  /** The index being inserted is not yet in the ranking of the indices before it. */
  lemma RankPrefixFresh(scores: seq<Score>, n: nat)
    requires n < |scores|
    ensures n !in RankPrefix(scores, n)
  {
    IndicesExclude(n);
    assert n !in multiset(RankPrefix(scores, n));
  }

  /** The ranking lists the indices best score first, and equal scores in index order. */
  lemma {:induction false} RankingSorts(scores: seq<Score>, n: nat)
    requires n <= |scores|
    ensures Ordered(scores, RankPrefix(scores, n))
  {
    if n > 0 {
      var prev := RankPrefix(scores, n - 1);
      RankingSorts(scores, n - 1);
      assert Ordered(scores, prev);
      RankPrefixFresh(scores, n - 1);
      assert n - 1 !in prev;
      InsertOrdered(scores, prev, n - 1);
    }
  }

  lemma RankingMembers(scores: seq<Score>, x: nat)
    ensures x in Ranking(scores) <==> x < |scores|
  {
    var idx := Indices(|scores|);
    assert x in Ranking(scores) <==> x in multiset(idx);
    if x < |scores| {
      assert idx[x] == x;
    }
  }

  /** The indices of the breeding pool: the first `int(n / 2)` of the ranking. */
  function FittestIndices(scores: seq<Score>): (r: seq<nat>)
    ensures |r| == |scores| / 2
    ensures forall a :: 0 <= a < |r| ==> r[a] < |scores|
  {
    Ranking(scores)[..|scores| / 2]
  }

  /** `[population[i] for i in fittest_indices]`. */
  function Pool(population: seq<real>, scores: seq<Score>): (pool: seq<real>)
    requires |scores| == |population|
    ensures |pool| == |population| / 2
    ensures forall a :: 0 <= a < |pool| ==> pool[a] == population[FittestIndices(scores)[a]]
  {
    var fittest := FittestIndices(scores);
    seq(|fittest|, a requires 0 <= a < |fittest| => population[fittest[a]])
  }

  /**
    Selection: every index in the pool comes before every index left out, so
    its fitness is at least theirs, and on equal fitness the lower index is
    the one kept.
   */
  lemma PoolSelection(scores: seq<Score>, x: nat, y: nat)
    requires x in FittestIndices(scores) && y < |scores| && y !in FittestIndices(scores)
    ensures Before(scores, x, y)
    ensures !Less(scores[x], scores[y])
  {
    var n := |scores|;
    var r := Ranking(scores);
    RankingSorts(scores, n);
    RankingMembers(scores, y);
    var a :| 0 <= a < n / 2 && r[a] == x;
    var b :| 0 <= b < n && r[b] == y;
    assert Before(scores, r[a], r[b]);
    if Less(scores[x], scores[y]) {
      LessAsymmetric(scores[x], scores[y]);
    }
  }

  /** The pool is empty exactly when there are fewer than two individuals. */
  lemma PoolEmptyIff(population: seq<real>, scores: seq<Score>)
    requires |scores| == |population|
    ensures Pool(population, scores) == [] <==> |population| < 2
  {
  }

  /** `mutation_rate > random.randint(0, 100) / 100`. */
  predicate Mutates(rate: real, k: int)
  {
    rate > (k as real) / 100.0
  }

  /**
    One offspring: the mean of two pool members, or, when it mutates, a fresh
    `random.uniform(1, 2)` in its place.
   */
  function Offspring(pool: seq<real>, d: Breeding, rate: real): (child: real)
    requires d.first < |pool| && d.second < |pool|
  {
    if Mutates(rate, d.k) then Uniform(1.0, 2.0, d.u)
    else (pool[d.first] + pool[d.second]) / 2.0
  }

  /** An offspring that does not mutate lies between its two parents; a mutated one in [1, 2]. */
  lemma OffspringBounds(pool: seq<real>, d: Breeding, rate: real)
    requires d.first < |pool| && d.second < |pool| && IsDraw(d.u)
    ensures var child := Offspring(pool, d, rate);
      var p1, p2 := pool[d.first], pool[d.second];
      (Mutates(rate, d.k) ==> child == Uniform(1.0, 2.0, d.u) && 1.0 <= child <= 2.0) &&
      (!Mutates(rate, d.k) ==> (p1 <= child <= p2 || p2 <= child <= p1))
  {
  }

  /** A rate of zero or below never mutates; a rate above one always does. */
  lemma MutationByRate(rate: real, k: int)
    requires 0 <= k <= 100
    ensures rate <= 0.0 ==> !Mutates(rate, k)
    ensures rate > 1.0 ==> Mutates(rate, k)
  {
  }

  /** A rate of exactly one does not mutate when `randint` draws 100. */
  lemma FullRateCanSkipMutation()
    ensures !Mutates(1.0, 100) && Mutates(1.0, 99)
  {
  }

  /**
    The next generation: as many offspring as individuals, bred from the pool
    of the current population, or the exception of choosing from an empty pool.
   */
  function NextGeneration(eval: real -> Score, population: seq<real>, ds: seq<Breeding>, rate: real): (res: Result<seq<real>, Error>)
    requires |ds| == |population| && ValidDraws(ds, |population| / 2)
    // the pool is empty exactly for a population of one (none is bred from an empty population)
    ensures res.Err? <==> |population| == 1
    ensures res.Err? ==> res.error == EmptyPool
    ensures res.Ok? ==> |res.value| == |population|
  {
    var pool := Pool(population, Scores(eval, population));
    if |population| == 0 then Ok([])
    else if pool == [] then Err(EmptyPool)
    else Ok(seq(|population|, i requires 0 <= i < |population| => Offspring(pool, ds[i], rate)))
  }

  /** Each offspring is a mutation or the mean of two members of the pool. */
  lemma NextGenerationFrom(eval: real -> Score, population: seq<real>, ds: seq<Breeding>, rate: real, i: nat)
    requires |ds| == |population| && ValidDraws(ds, |population| / 2)
    requires NextGeneration(eval, population, ds, rate).Ok? && i < |population|
    ensures var pool := Pool(population, Scores(eval, population));
      var child := NextGeneration(eval, population, ds, rate).value[i];
      (Mutates(rate, ds[i].k) && child == Uniform(1.0, 2.0, ds[i].u)) ||
      (!Mutates(rate, ds[i].k) && exists a, b :: 0 <= a < |pool| && 0 <= b < |pool| && child == (pool[a] + pool[b]) / 2.0)
  {
    var pool := Pool(population, Scores(eval, population));
    if !Mutates(rate, ds[i].k) {
      var a, b := ds[i].first, ds[i].second;
      assert NextGeneration(eval, population, ds, rate).value[i] == (pool[a] + pool[b]) / 2.0;
    }
  }

  /** A population in [1, 2] breeds a generation in [1, 2]. */
  lemma NextGenerationInRange(eval: real -> Score, population: seq<real>, ds: seq<Breeding>, rate: real)
    requires |ds| == |population| && ValidDraws(ds, |population| / 2)
    requires InRange(population) && NextGeneration(eval, population, ds, rate).Ok?
    ensures InRange(NextGeneration(eval, population, ds, rate).value)
  {
    var pool := Pool(population, Scores(eval, population));
    forall i | 0 <= i < |population|
      ensures 1.0 <= NextGeneration(eval, population, ds, rate).value[i] <= 2.0
    {
      OffspringBounds(pool, ds[i], rate);
    }
  }

  /** Draws for `g` generations of a population of `n` individuals. */
  predicate GenerationDraws(dss: seq<seq<Breeding>>, n: nat)
  {
    forall g :: 0 <= g < |dss| ==> |dss[g]| == n && ValidDraws(dss[g], n / 2)
  }

  /**
    One generation as a step on what the run has produced so far: an
    exception stays raised, a population breeds the next one.
   */
  function Breeder(eval: real -> Score, rate: real): (step: (Result<seq<real>, Error>, seq<Breeding>) -> Result<seq<real>, Error>)
  {
    (r: Result<seq<real>, Error>, ds: seq<Breeding>) =>
      if r.Ok? && |ds| == |r.value| && ValidDraws(ds, |r.value| / 2) then NextGeneration(eval, r.value, ds, rate) else r
  }

  /** The population after g generations, or the exception one of them raised. */
  function Evolve(eval: real -> Score, population: seq<real>, dss: seq<seq<Breeding>>, rate: real, g: nat): (res: Result<seq<real>, Error>)
    requires g <= |dss|
  {
    Trace(Breeder(eval, rate), Ok(population), dss)[g]
  }

  /** Generation g + 1 is one breeding step from generation g. */
  lemma EvolveStep(eval: real -> Score, population: seq<real>, dss: seq<seq<Breeding>>, rate: real, g: nat)
    requires g < |dss|
    ensures Evolve(eval, population, dss, rate, g + 1) == Breeder(eval, rate)(Evolve(eval, population, dss, rate, g), dss[g])
  {
    TraceAt(Breeder(eval, rate), Ok(population), dss, g);
  }

  /**
    Every generation keeps the population size, and only a population of one
    raises, in the first generation, because its pool is empty.
   */
  lemma {:induction false} EvolveFailsIff(eval: real -> Score, population: seq<real>, dss: seq<seq<Breeding>>, rate: real, g: nat)
    requires g <= |dss| && GenerationDraws(dss, |population|)
    ensures var res := Evolve(eval, population, dss, rate, g);
      (res.Err? <==> |population| == 1 && g > 0) &&
      (res.Err? ==> res.error == EmptyPool) &&
      (res.Ok? ==> |res.value| == |population|)
  {
    if g > 0 {
      EvolveFailsIff(eval, population, dss, rate, g - 1);
      EvolveStep(eval, population, dss, rate, g - 1);
    }
  }

  /** A generation that has not raised breeds the next one from its own population. */
  lemma EvolveNext(eval: real -> Score, population: seq<real>, dss: seq<seq<Breeding>>, rate: real, g: nat)
    requires g < |dss| && GenerationDraws(dss, |population|) && Evolve(eval, population, dss, rate, g).Ok?
    ensures |Evolve(eval, population, dss, rate, g).value| == |population|
    ensures Evolve(eval, population, dss, rate, g + 1) == NextGeneration(eval, Evolve(eval, population, dss, rate, g).value, dss[g], rate)
  {
    EvolveFailsIff(eval, population, dss, rate, g);
    EvolveStep(eval, population, dss, rate, g);
  }

  /** A population in [1, 2] stays in [1, 2] over any number of generations. */
  lemma {:induction false} EvolveInRange(eval: real -> Score, population: seq<real>, dss: seq<seq<Breeding>>, rate: real, g: nat)
    requires g <= |dss| && GenerationDraws(dss, |population|)
    requires InRange(population) && Evolve(eval, population, dss, rate, g).Ok?
    ensures InRange(Evolve(eval, population, dss, rate, g).value)
  {
    if g > 0 {
      EvolveFailsIff(eval, population, dss, rate, g);
      EvolveFailsIff(eval, population, dss, rate, g - 1);
      EvolveInRange(eval, population, dss, rate, g - 1);
      EvolveNext(eval, population, dss, rate, g - 1);
      var prev := Evolve(eval, population, dss, rate, g - 1).value;
      NextGenerationInRange(eval, prev, dss[g - 1], rate);
    }
  }

  /**
    `max(range(n), key=lambda i: scores[i])` over the first n indices: a
    maximal index, the first one among equal maxima.
   */
  function ArgMaxPrefix(scores: seq<Score>, n: nat): (m: nat)
    requires 0 < n <= |scores|
    ensures m < n
    ensures forall j :: 0 <= j < n ==> !Less(scores[m], scores[j])
    ensures forall j :: 0 <= j < m ==> Less(scores[j], scores[m])
  {
    if n == 1 then LessIrreflexive(scores[0]); 0
    else
      var m := ArgMaxPrefix(scores, n - 1);
      if Less(scores[m], scores[n - 1]) then
        ArgMaxStep(scores, n, m);
        n - 1
      else
        LessIrreflexive(scores[n - 1]);
        LessTotal(scores[m], scores[n - 1]);
        m
  }

  /** A strictly greater last score beats every earlier one. */
  lemma ArgMaxStep(scores: seq<Score>, n: nat, m: nat)
    requires 1 < n <= |scores| && m < n - 1 && Less(scores[m], scores[n - 1])
    requires forall j :: 0 <= j < n - 1 ==> !Less(scores[m], scores[j])
    ensures forall j :: 0 <= j < n ==> !Less(scores[n - 1], scores[j])
    ensures forall j :: 0 <= j < n - 1 ==> Less(scores[j], scores[n - 1])
  {
    LessIrreflexive(scores[n - 1]);
    forall j | 0 <= j < n - 1
      ensures Less(scores[j], scores[n - 1])
    {
      LessTotal(scores[m], scores[j]);
      if scores[j] != scores[m] {
        LessTransitive(scores[j], scores[m], scores[n - 1]);
      }
    }
    forall j | 0 <= j < n
      ensures !Less(scores[n - 1], scores[j])
    {
      if j < n - 1 {
        LessAsymmetric(scores[j], scores[n - 1]);
      }
    }
  }

  function ArgMax(scores: seq<Score>): (m: nat)
    requires scores != []
    ensures m < |scores|
    ensures forall j :: 0 <= j < |scores| ==> !Less(scores[m], scores[j])
    ensures forall j :: 0 <= j < m ==> Less(scores[j], scores[m])
  {
    ArgMaxPrefix(scores, |scores|)
  }

  /**
    The outcome of `genetic_algorithm` as written: the index of the best of
    the last computed scores, which are those of the population before the
    last replacement, picks the parameter from the replaced population.
   */
  function Outcome(eval: real -> Score, populationSize: nat, numGenerations: nat, rate: real,
                   us: seq<real>, dss: seq<seq<Breeding>>): (res: Result<Fittest, Error>)
    requires |us| == populationSize && |dss| == numGenerations && GenerationDraws(dss, populationSize)
    // a run returns exactly when there are at least two individuals and at least one generation
    ensures res.Ok? <==> populationSize >= 2 && numGenerations > 0
  {
    var initial := InitialPopulation(us);
    EvolveFailsIff(eval, initial, dss, rate, numGenerations);
    match Evolve(eval, initial, dss, rate, numGenerations)
    case Err(e) => Err(e)
    case Ok(population) =>
      if populationSize == 0 then Err(EmptyPopulation)
      else if numGenerations == 0 then Err(UnboundScores)
      else
        EvolveFailsIff(eval, initial, dss, rate, numGenerations - 1);
        EvolveFailsIff(eval, initial, dss, rate, numGenerations);
        var scores := Scores(eval, Evolve(eval, initial, dss, rate, numGenerations - 1).value);
        var index := ArgMax(scores);
        Ok(Fittest(population[index], scores[index]))
  }

  /** Which inputs raise, and with which exception. */
  lemma OutcomeErrors(eval: real -> Score, populationSize: nat, numGenerations: nat, rate: real,
                      us: seq<real>, dss: seq<seq<Breeding>>)
    requires |us| == populationSize && |dss| == numGenerations && GenerationDraws(dss, populationSize)
    ensures var res := Outcome(eval, populationSize, numGenerations, rate, us, dss);
      (res == Err(EmptyPopulation) <==> populationSize == 0) &&
      (res == Err(EmptyPool) <==> populationSize == 1 && numGenerations > 0) &&
      (res == Err(UnboundScores) <==> populationSize > 0 && numGenerations == 0) &&
      (res.Ok? <==> populationSize >= 2 && numGenerations > 0)
  {
    EvolveFailsIff(eval, InitialPopulation(us), dss, rate, numGenerations);
  }

  /**
    A successful run returns a parameter in [1, 2] from the final population,
    at the first index of the highest of the scores of the population before
    it, paired with that score.
   */
  lemma OutcomeFittest(eval: real -> Score, populationSize: nat, numGenerations: nat, rate: real,
                       us: seq<real>, dss: seq<seq<Breeding>>)
    requires |us| == populationSize && |dss| == numGenerations && GenerationDraws(dss, populationSize)
    requires AllDraws(us)
    ensures var res := Outcome(eval, populationSize, numGenerations, rate, us, dss);
      res.Ok? ==>
        var initial := InitialPopulation(us);
        var final := Evolve(eval, initial, dss, rate, numGenerations).value;
        var parents := Evolve(eval, initial, dss, rate, numGenerations - 1).value;
        |final| == |parents| == populationSize && 1.0 <= res.value.param <= 2.0 &&
        res.value.param == final[ArgMax(Scores(eval, parents))] &&
        res.value.fitness == eval(parents[ArgMax(Scores(eval, parents))]) &&
        (exists i :: 0 <= i < populationSize && res.value.param == final[i] && res.value.fitness == eval(parents[i])) &&
        (forall i :: 0 <= i < populationSize ==> !Less(res.value.fitness, eval(parents[i])))
  {
    var initial := InitialPopulation(us);
    if Outcome(eval, populationSize, numGenerations, rate, us, dss).Ok? {
      EvolveFailsIff(eval, initial, dss, rate, numGenerations);
      EvolveFailsIff(eval, initial, dss, rate, numGenerations - 1);
      EvolveInRange(eval, initial, dss, rate, numGenerations);
      var parents := Evolve(eval, initial, dss, rate, numGenerations - 1).value;
      var index := ArgMax(Scores(eval, parents));
      assert Outcome(eval, populationSize, numGenerations, rate, us, dss).value.fitness == eval(parents[index]);
    }
  }

  /** An evaluator whose confidence is the scale factor itself, always with the same name. */
  function Echo(x: real): Score
  {
    Score(x, "a")
  }

  /** With scores 1.0 and 1.5, the pool holds the better individual only. */
  lemma EchoPool()
    ensures Pool([1.0, 1.5], Scores(Echo, [1.0, 1.5])) == [1.5]
  {
    var scores := Scores(Echo, [1.0, 1.5]);
    assert Before(scores, 1, 0);
    assert RankPrefix(scores, 1) == [0];
    assert Ranking(scores) == [1, 0];
    assert FittestIndices(scores) == [1];
    var pool := Pool([1.0, 1.5], scores);
    assert |pool| == 1 && pool[0] == 1.5;
    assert pool == [pool[0]];
  }

  /** With rate 1, a draw of 100 keeps the mean of the parents and a draw of 0 mutates. */
  lemma EchoGeneration()
    ensures NextGeneration(Echo, [1.0, 1.5], [Breeding(0, 0, 100, 0.0), Breeding(0, 0, 0, 0.0)], 1.0) == Ok([1.5, 1.0])
  {
    EchoPool();
    var pool := [1.5];
    assert Offspring(pool, Breeding(0, 0, 100, 0.0), 1.0) == 1.5;
    assert Offspring(pool, Breeding(0, 0, 0, 0.0), 1.0) == 1.0;
    var next := NextGeneration(Echo, [1.0, 1.5], [Breeding(0, 0, 100, 0.0), Breeding(0, 0, 0, 0.0)], 1.0);
    assert next.Ok? && |next.value| == 2 && next.value[0] == 1.5 && next.value[1] == 1.0;
    assert next.value == [next.value[0], next.value[1]];
  }

  /**
    The returned fitness need not be that of the returned parameter: with a
    mutation in the last generation the parameter is new but its score is
    that of the individual it replaced.
   */
  lemma StaleFitness()
    ensures Outcome(Echo, 2, 1, 1.0, [0.0, 0.5], [[Breeding(0, 0, 100, 0.0), Breeding(0, 0, 0, 0.0)]])
      == Ok(Fittest(1.0, Score(1.5, "a")))
    ensures Echo(1.0) != Score(1.5, "a")
  {
    var initial := InitialPopulation([0.0, 0.5]);
    assert initial == [1.0, 1.5];
    var dss := [[Breeding(0, 0, 100, 0.0), Breeding(0, 0, 0, 0.0)]];
    EvolveNext(Echo, initial, dss, 1.0, 0);
    EchoGeneration();
    var scores := Scores(Echo, initial);
    assert ArgMax(scores) == 1;
  }

  /**
    The evidently intended outcome: the fittest individual of the final
    population, with its own fitness.
   */
  function FreshOutcome(eval: real -> Score, populationSize: nat, numGenerations: nat, rate: real,
                        us: seq<real>, dss: seq<seq<Breeding>>): (res: Result<Fittest, Error>)
    requires |us| == populationSize && |dss| == numGenerations && GenerationDraws(dss, populationSize)
    ensures res.Ok? ==> res.value.fitness == eval(res.value.param)
  {
    match Evolve(eval, InitialPopulation(us), dss, rate, numGenerations)
    case Err(e) => Err(e)
    case Ok(population) =>
      if populationSize == 0 then Err(EmptyPopulation)
      else
        EvolveFailsIff(eval, InitialPopulation(us), dss, rate, numGenerations);
        var scores := Scores(eval, population);
        var index := ArgMax(scores);
        Ok(Fittest(population[index], scores[index]))
  }

  /** The intended result is the best individual of the final population. */
  lemma FreshOutcomeFittest(eval: real -> Score, populationSize: nat, numGenerations: nat, rate: real,
                            us: seq<real>, dss: seq<seq<Breeding>>)
    requires |us| == populationSize && |dss| == numGenerations && GenerationDraws(dss, populationSize)
    requires AllDraws(us)
    ensures var res := FreshOutcome(eval, populationSize, numGenerations, rate, us, dss);
      res.Ok? ==>
        var final := Evolve(eval, InitialPopulation(us), dss, rate, numGenerations).value;
        |final| == populationSize && 1.0 <= res.value.param <= 2.0 && res.value.param in final &&
        (forall i :: 0 <= i < populationSize ==> !Less(res.value.fitness, eval(final[i])))
  {
    var initial := InitialPopulation(us);
    if FreshOutcome(eval, populationSize, numGenerations, rate, us, dss).Ok? {
      EvolveFailsIff(eval, initial, dss, rate, numGenerations);
      EvolveInRange(eval, initial, dss, rate, numGenerations);
    }
  }

  /**
    The body of the generation loop after scoring: take the pool, then breed
    one offspring per individual, appending each to the next generation.
   */
  method Breed(eval: real -> Score, population: seq<real>, fitnessScores: seq<Score>, ds: seq<Breeding>, rate: real)
    returns (res: Result<seq<real>, Error>)
    requires fitnessScores == Scores(eval, population)
    requires |ds| == |population| && ValidDraws(ds, |population| / 2)
    ensures res == NextGeneration(eval, population, ds, rate)
  {
    var fittestPopulation := Pool(population, fitnessScores);
    var nextGeneration := [];
    var i := 0;
    while i < |population|
      invariant 0 <= i <= |population| && |nextGeneration| == i
      invariant i == 0 || fittestPopulation != []
      invariant forall j :: 0 <= j < i ==> nextGeneration[j] == Offspring(fittestPopulation, ds[j], rate)
    {
      if fittestPopulation == [] {
        // random.choice raises on an empty sequence
        return Err(EmptyPool);
      }
      var parent1 := fittestPopulation[ds[i].first];
      var parent2 := fittestPopulation[ds[i].second];
      var offspring := (parent1 + parent2) / 2.0;
      if rate > (ds[i].k as real) / 100.0 {
        offspring := Uniform(1.0, 2.0, ds[i].u);
      }
      assert offspring == Offspring(fittestPopulation, ds[i], rate);
      nextGeneration := nextGeneration + [offspring];
      i := i + 1;
    }
    if population != [] {
      assert nextGeneration == seq(|population|, j requires 0 <= j < |population| => Offspring(fittestPopulation, ds[j], rate));
    }
    res := Ok(nextGeneration);
  }

  /**
    The state of the generation loop after g generations: the population is the
    g-th generation, and the fitness scores are those of generation g - 1 (none
    before the first generation).
   */
  ghost predicate Generations(eval: real -> Score, initial: seq<real>, dss: seq<seq<Breeding>>, rate: real,
                              g: nat, population: seq<real>, fitnessScores: Option<seq<Score>>)
  {
    g <= |dss| && GenerationDraws(dss, |initial|) &&
    Evolve(eval, initial, dss, rate, g) == Ok(population) && |population| == |initial| &&
    (g == 0 <==> fitnessScores.None?) &&
    (g > 0 ==> Evolve(eval, initial, dss, rate, g - 1).Ok? &&
                fitnessScores == Some(Scores(eval, Evolve(eval, initial, dss, rate, g - 1).value)))
  }

  /** One more generation bred without error keeps the loop state. */
  lemma GenerationsStep(eval: real -> Score, initial: seq<real>, dss: seq<seq<Breeding>>, rate: real,
                        g: nat, population: seq<real>, fitnessScores: Option<seq<Score>>, next: seq<real>)
    requires Generations(eval, initial, dss, rate, g, population, fitnessScores) && g < |dss|
    requires NextGeneration(eval, population, dss[g], rate) == Ok(next)
    ensures Generations(eval, initial, dss, rate, g + 1, next, Some(Scores(eval, population)))
  {
    EvolveNext(eval, initial, dss, rate, g);
  }

  /** A generation that raises makes the whole run raise the same error. */
  lemma GenerationsFail(eval: real -> Score, us: seq<real>, dss: seq<seq<Breeding>>, rate: real,
                        g: nat, population: seq<real>, fitnessScores: Option<seq<Score>>)
    requires GenerationDraws(dss, |us|)
    requires Generations(eval, InitialPopulation(us), dss, rate, g, population, fitnessScores) && g < |dss|
    requires NextGeneration(eval, population, dss[g], rate).Err?
    ensures Outcome(eval, |us|, |dss|, rate, us, dss) == Err(EmptyPool)
  {
    var initial := InitialPopulation(us);
    EvolveNext(eval, initial, dss, rate, g);
    EvolveFailsIff(eval, initial, dss, rate, g + 1);
    EvolveFailsIff(eval, initial, dss, rate, |dss|);
  }

  /** After the last generation the loop state determines what is returned. */
  lemma GenerationsOutcome(eval: real -> Score, us: seq<real>, dss: seq<seq<Breeding>>, rate: real,
                           population: seq<real>, fitnessScores: Option<seq<Score>>)
    requires GenerationDraws(dss, |us|)
    requires Generations(eval, InitialPopulation(us), dss, rate, |dss|, population, fitnessScores)
    ensures |population| == |us|
    ensures fitnessScores.Some? ==> |fitnessScores.value| == |us|
    ensures Outcome(eval, |us|, |dss|, rate, us, dss) ==
      if |us| == 0 then Err(EmptyPopulation)
      else if fitnessScores.None? then Err(UnboundScores)
      else Ok(Fittest(population[ArgMax(fitnessScores.value)], fitnessScores.value[ArgMax(fitnessScores.value)]))
  {
    if |dss| > 0 {
      EvolveFailsIff(eval, InitialPopulation(us), dss, rate, |dss| - 1);
    }
  }

  /**
    The generation loop of genetic_algorithm: score the population, breed the
    next one, and keep the scores of the generation that was bred from.
   */
  method Generate(eval: real -> Score, us: seq<real>, dss: seq<seq<Breeding>>, mutationRate: real)
    returns (res: Result<seq<real>, Error>, fitnessScores: Option<seq<Score>>)
    requires GenerationDraws(dss, |us|)
    ensures res.Err? ==> Outcome(eval, |us|, |dss|, mutationRate, us, dss) == Err(res.error)
    ensures res.Ok? ==> Generations(eval, InitialPopulation(us), dss, mutationRate, |dss|, res.value, fitnessScores)
  {
    var population := InitialPopulation(us);
    ghost var initial := population;
    fitnessScores := None;
    var generation := 0;
    while generation < |dss|
      invariant Generations(eval, initial, dss, mutationRate, generation, population, fitnessScores)
    {
      ghost var previousScores := fitnessScores;
      var scores := Scores(eval, population);
      fitnessScores := Some(scores);
      var next := Breed(eval, population, scores, dss[generation], mutationRate);
      if next.Err? {
        GenerationsFail(eval, us, dss, mutationRate, generation, population, previousScores);
        return next, fitnessScores;
      }
      GenerationsStep(eval, initial, dss, mutationRate, generation, population, previousScores, next.value);
      population := next.value;
      generation := generation + 1;
    }
    res := Ok(population);
  }

  /**
    genetic_algorithm: draw the initial population, run the generations, then
    return the individual at the index of the best last-computed score.
   */
  method GeneticAlgorithm(eval: real -> Score, populationSize: nat, numGenerations: nat, mutationRate: real,
                          us: seq<real>, dss: seq<seq<Breeding>>)
    returns (res: Result<Fittest, Error>)
    requires |us| == populationSize && |dss| == numGenerations && GenerationDraws(dss, populationSize)
    ensures res == Outcome(eval, populationSize, numGenerations, mutationRate, us, dss)
  {
    var generated, fitnessScores := Generate(eval, us, dss, mutationRate);
    if generated.Err? {
      return Err(generated.error);
    }
    var population := generated.value;
    GenerationsOutcome(eval, us, dss, mutationRate, population, fitnessScores);
    if populationSize == 0 {
      // max() over an empty range
      return Err(EmptyPopulation);
    }
    if fitnessScores.None? {
      // fitness_scores was never assigned
      return Err(UnboundScores);
    }
    var fittestIndex := ArgMax(fitnessScores.value);
    res := Ok(Fittest(population[fittestIndex], fitnessScores.value[fittestIndex]));
  }
}
