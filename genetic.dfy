/** GeneticAlgorithm: a population of parameter sets, scored on the current
    flock, ranked, cut to the better half and refilled by crossover and
    occasional mutation, generation after generation. */
module Genetic {
  import opened Options
  import opened Vectors
  import opened Parameters
  import opened Boids
  import opened Fitness

  /** random.random() < MutationChance decides whether a child is mutated. */
  const MutationChance: real := 0.1

  // ---------------------------------------------------------------------
  // Ranking: list.sort(key=score, reverse=True), which is stable

  /** Index a is placed before index b: a higher score, or an equal score
      and an earlier position in the unsorted list. */
  predicate Before(scores: seq<real>, a: nat, b: nat)
    requires a < |scores| && b < |scores|
  {
    scores[a] > scores[b] || (scores[a] == scores[b] && a < b)
  }

  /** `order` lists indices of `scores` in strictly Before order. */
  ghost predicate Ranked(scores: seq<real>, order: seq<nat>)
  {
    (forall k :: 0 <= k < |order| ==> order[k] < |scores|) &&
    (forall x, y :: 0 <= x < y < |order| ==> Before(scores, order[x], order[y]))
  }

  /** `order` is every index of `scores` exactly once, best score first and
      ties in their original order: the result of a stable descending sort. */
  ghost predicate IsRanking(scores: seq<real>, order: seq<nat>)
  {
    |order| == |scores| &&
    (forall j :: 0 <= j < |scores| ==> j in order) &&
    Ranked(scores, order)
  }

  /** Places index i (later than every index in `order`) behind every entry
      whose score is at least its own. */
  function Insert(scores: seq<real>, order: seq<nat>, i: nat): (r: seq<nat>)
    requires i < |scores| && forall k :: 0 <= k < |order| ==> order[k] < |scores|
    ensures |r| == |order| + 1
    ensures forall x: int :: x in r <==> x in order || x == i
    ensures forall k :: 0 <= k < |r| ==> r[k] < |scores|
    decreases |order|
  {
    if order == [] then [i]
    else if scores[order[0]] < scores[i] then [i] + order
    else
      assert forall x: int :: x in order <==> x == order[0] || x in order[1..] by {
        assert order == [order[0]] + order[1..];
      }
      [order[0]] + Insert(scores, order[1..], i)
  }

  /** The first n indices of `scores`, ranked by insertion. */
  function Ranking(scores: seq<real>, n: nat): (r: seq<nat>)
    requires n <= |scores|
    ensures |r| == n
    ensures forall j: int :: j in r <==> 0 <= j < n
    ensures forall k :: 0 <= k < |r| ==> r[k] < n
  {
    if n == 0 then []
    else
      var r := Insert(scores, Ranking(scores, n - 1), n - 1);
      assert forall k :: 0 <= k < |r| ==> r[k] in r;
      r
  }

  lemma {:induction false} InsertKeepsRanked(scores: seq<real>, order: seq<nat>, i: nat)
    requires i < |scores| && Ranked(scores, order)
    requires forall k :: 0 <= k < |order| ==> order[k] < i
    ensures Ranked(scores, Insert(scores, order, i))
    decreases |order|
  {
    if order == [] {
    } else if scores[order[0]] < scores[i] {
      var r := [i] + order;
      assert r == Insert(scores, order, i);
      forall x, y | 0 <= x < y < |r|
        ensures Before(scores, r[x], r[y])
      {
        if x == 0 {
          if y > 1 {
            assert Before(scores, order[0], order[y - 1]);
          }
        } else {
          assert Before(scores, order[x - 1], order[y - 1]);
        }
      }
    } else {
      var rest := order[1..];
      assert Ranked(scores, rest) by {
        forall x, y | 0 <= x < y < |rest| ensures Before(scores, rest[x], rest[y]) {
          assert Before(scores, order[x + 1], order[y + 1]);
        }
      }
      InsertKeepsRanked(scores, rest, i);
      var tail := Insert(scores, rest, i);
      var r := [order[0]] + tail;
      assert r == Insert(scores, order, i);
      forall x, y | 0 <= x < y < |r|
        ensures Before(scores, r[x], r[y])
      {
        if x == 0 {
          var e := tail[y - 1];
          assert e in tail;
          if e != i {
            var m :| 0 <= m < |rest| && rest[m] == e;
            assert Before(scores, order[0], order[m + 1]);
          }
        } else {
          assert r[x] == tail[x - 1] && r[y] == tail[y - 1];
        }
      }
    }
  }

  lemma {:induction false} RankingIsRanked(scores: seq<real>, n: nat)
    requires n <= |scores|
    ensures Ranked(scores, Ranking(scores, n))
  {
    if n > 0 {
      RankingIsRanked(scores, n - 1);
      RankingStep(scores, n);
    }
  }

  lemma RankingStep(scores: seq<real>, n: nat)
    requires 0 < n <= |scores| && Ranked(scores, Ranking(scores, n - 1))
    ensures Ranked(scores, Ranking(scores, n))
  {
    assert Ranking(scores, n) == Insert(scores, Ranking(scores, n - 1), n - 1);
    InsertKeepsRanked(scores, Ranking(scores, n - 1), n - 1);
  }

  /** Ranking(scores, |scores|) is the stable descending order of the scores:
      every index once, in Before order. */
  lemma RankingIsStableDescending(scores: seq<real>)
    ensures IsRanking(scores, Ranking(scores, |scores|))
  {
    var r := Ranking(scores, |scores|);
    RankingIsRanked(scores, |scores|);
  }

  /** Every member of a Before-ordered list is its head or comes after it. */
  lemma RankedHeadComesFirst(scores: seq<real>, order: seq<nat>, x: nat)
    requires Ranked(scores, order) && x in order
    ensures x < |scores|
    ensures x == order[0] || Before(scores, order[0], x)
  {
    var k :| 0 <= k < |order| && order[k] == x;
    if k > 0 {
      assert Before(scores, order[0], order[k]);
    }
  }

  lemma RankedRest(scores: seq<real>, order: seq<nat>)
    requires Ranked(scores, order) && order != []
    ensures Ranked(scores, order[1..])
    ensures forall x :: x in order[1..] <==> x in order && x != order[0]
  {
    var rest := order[1..];
    forall x, y | 0 <= x < y < |rest| ensures Before(scores, rest[x], rest[y]) {
      assert Before(scores, order[x + 1], order[y + 1]);
    }
    forall x ensures x in rest <==> x in order && x != order[0] {
      if x in rest {
        var k :| 0 <= k < |rest| && rest[k] == x;
        assert Before(scores, order[0], order[k + 1]);
      }
      if x in order && x != order[0] {
        var k :| 0 <= k < |order| && order[k] == x;
        assert rest[k - 1] == x;
      }
    }
  }

  /** Two Before-ordered lists of the same indices are the same list. */
  lemma {:induction false} RankedUnique(scores: seq<real>, a: seq<nat>, b: seq<nat>)
    requires Ranked(scores, a) && Ranked(scores, b)
    requires forall x :: x in a <==> x in b
    ensures a == b
    decreases |a|
  {
    assert a != [] ==> a[0] in b;
    assert b != [] ==> b[0] in a;
    if a != [] && b != [] {
      assert a[0] == b[0] by {
        RankedHeadComesFirst(scores, b, a[0]);
        RankedHeadComesFirst(scores, a, b[0]);
      }
      RankedRest(scores, a);
      RankedRest(scores, b);
      RankedUnique(scores, a[1..], b[1..]);
      assert a == [a[0]] + a[1..] && b == [b[0]] + b[1..];
    }
  }

  /** A stable descending sort has exactly one possible result, so any
      order meeting IsRanking is the one Ranking builds. */
  lemma RankingIsUnique(scores: seq<real>, order: seq<nat>)
    requires IsRanking(scores, order)
    ensures order == Ranking(scores, |scores|)
  {
    var r := Ranking(scores, |scores|);
    RankingIsStableDescending(scores);
    forall x ensures x in order <==> x in r {
      if x in order {
        var k :| 0 <= k < |order| && order[k] == x;
      }
      if x in r {
        var k :| 0 <= k < |r| && r[k] == x;
      }
    }
    RankedUnique(scores, order, r);
  }

  /** The first index of a ranking holds the highest score. */
  lemma RankingTopIsMaximum(scores: seq<real>)
    requires |scores| > 0
    ensures forall i :: 0 <= i < |scores| ==> scores[i] <= scores[Ranking(scores, |scores|)[0]]
  {
    var order := Ranking(scores, |scores|);
    RankingIsStableDescending(scores);
    forall i | 0 <= i < |scores| ensures scores[i] <= scores[order[0]] {
      assert i in order;
      var m :| 0 <= m < |order| && order[m] == i;
      if m > 0 {
        assert Before(scores, order[0], order[m]);
      }
    }
  }

  // ---------------------------------------------------------------------
  // Breeding

  /** The random outcomes behind one bred child: the two random.choice
      indices into the survivors, the three coins of crossover, the
      random.random() roll, and the three offsets mutate would add. */
  datatype ChildDraw = ChildDraw(parent1: nat, parent2: nat, coins: Coins, roll: real, offsets: Offsets)

  /** The ranges of those outcomes; a choice from an empty list has none. */
  predicate ValidDraw(d: ChildDraw, survivors: nat)
  {
    (survivors > 0 ==> d.parent1 < survivors && d.parent2 < survivors) &&
    0.0 <= d.roll < 1.0 &&
    ValidOffsets(d.offsets)
  }

  /** One generation's draws: one per child needed to refill the population. */
  predicate DrawsFor(draws: seq<ChildDraw>, size: nat)
  {
    |draws| == size - size / 2 &&
    forall k :: 0 <= k < |draws| ==> ValidDraw(draws[k], size / 2)
  }

  /** One pass of the refill loop: cross two survivors, then mutate the
      child when the roll falls below MutationChance. */
  function Child(survivors: seq<Params>, d: ChildDraw): (c: Params)
    requires |survivors| > 0 && ValidDraw(d, |survivors|)
    ensures FromParents(c, survivors[d.parent1], survivors[d.parent2], MutationRate)
    ensures d.roll >= MutationChance ==> FromParents(c, survivors[d.parent1], survivors[d.parent2], 0.0)
  {
    var c := Crossover(survivors[d.parent1], survivors[d.parent2], d.coins);
    BredChildFromParents(survivors[d.parent1], survivors[d.parent2], d.coins, d.roll < MutationChance, d.offsets);
    if d.roll < MutationChance then Mutate(c, d.offsets) else c
  }

  /** Every weight of `c` is within MutationRate of the corresponding weight
      of one of two survivors. */
  ghost predicate BredFrom(c: Params, survivors: seq<Params>)
  {
    exists i, j :: 0 <= i < |survivors| && 0 <= j < |survivors| &&
      FromParents(c, survivors[i], survivors[j], MutationRate)
  }

  // ---------------------------------------------------------------------
  // Generations

  /** The fields of a GeneticAlgorithm other than the fixed population size. */
  datatype GaState = GaState(population: seq<Params>, generation: int,
                             bestFitness: real, bestParameters: Option<Params>)

  /** What the fields always satisfy: the population has its configured
      size, the best score is never negative, and the best parameters are
      None exactly while the best score is still the initial 0. */
  ghost predicate Consistent(s: GaState, size: nat)
  {
    |s.population| == size &&
    s.bestFitness >= 0.0 &&
    (s.bestParameters.None? <==> s.bestFitness == 0.0)
  }

  /** The state after a generation, and whether it raised IndexError. */
  datatype Outcome = Outcome(state: GaState, raised: bool)

  /** The fitness of every parameter set of the population, in order. */
  function Scores(mag: Vec -> real, flock: seq<Kin>, population: seq<Params>): (scores: seq<real>)
    requires IsMagnitude(mag)
    ensures |scores| == |population|
    ensures forall i :: 0 <= i < |population| ==> scores[i] == Fitness.Fitness(mag, flock, population[i])
  {
    seq(|population|, i requires 0 <= i < |population| => Fitness.Fitness(mag, flock, population[i]))
  }

  /** The top population_size // 2 parameter sets in ranked order. */
  function Survivors(population: seq<Params>, order: seq<nat>, half: nat): (survivors: seq<Params>)
    requires half <= |order| && forall k :: 0 <= k < |order| ==> order[k] < |population|
    ensures |survivors| == half
    ensures forall k :: 0 <= k < half ==> survivors[k] == population[order[k]]
  {
    seq(half, k requires 0 <= k < half => population[order[k]])
  }

  /** The best-so-far after comparing it with the score at index `top`;
      only a strictly higher score replaces it. */
  function UpdateBest(s: GaState, scores: seq<real>, top: nat): (r: GaState)
    requires top < |scores| && top < |s.population|
    ensures r.population == s.population && r.generation == s.generation
    ensures r.bestFitness == (if scores[top] > s.bestFitness then scores[top] else s.bestFitness)
    ensures r.bestParameters == (if scores[top] > s.bestFitness then Some(s.population[top]) else s.bestParameters)
  {
    if scores[top] > s.bestFitness
    then s.(bestFitness := scores[top], bestParameters := Some(s.population[top]))
    else s
  }

  /** The children bred from the survivors, one per draw. */
  function Children(survivors: seq<Params>, draws: seq<ChildDraw>): (children: seq<Params>)
    requires |survivors| > 0 && forall k :: 0 <= k < |draws| ==> ValidDraw(draws[k], |survivors|)
    ensures |children| == |draws|
    ensures forall k :: 0 <= k < |draws| ==> children[k] == Child(survivors, draws[k])
  {
    seq(|draws|, k requires 0 <= k < |draws| => Child(survivors, draws[k]))
  }

  /** One pass of evolve's generation loop once every member has been
      scored: `scores[i]` is the fitness of `s.population[i]`. An empty
      population raises at fitness_scores[0]; a population of one keeps no
      survivor and raises at random.choice, after the best-so-far has been
      updated. */
  function Generation(size: nat, s: GaState, scores: seq<real>, draws: seq<ChildDraw>): (r: Outcome)
    requires |s.population| == size && |scores| == size && DrawsFor(draws, size)
    ensures |r.state.population| == size
  {
    if size == 0 then Outcome(s, true)
    else
      var order := Ranking(scores, size);
      var best := UpdateBest(s, scores, order[0]);
      if size / 2 == 0 then Outcome(best, true)
      else
        var survivors := Survivors(s.population, order, size / 2);
        Outcome(best.(population := survivors + Children(survivors, draws), generation := s.generation + 1), false)
  }

  /** One pass of evolve's generation loop on the flock `flock`. */
  function NextGeneration(mag: Vec -> real, flock: seq<Kin>, size: nat, s: GaState, draws: seq<ChildDraw>): (r: Outcome)
    requires IsMagnitude(mag) && |s.population| == size && DrawsFor(draws, size)
    ensures |r.state.population| == size
  {
    Generation(size, s, Scores(mag, flock, s.population), draws)
  }

  /** evolve's loop over num_generations, one draw list per generation;
      once a generation raises, the call ends there. */
  function Run(mag: Vec -> real, flock: seq<Kin>, size: nat, s: GaState, draws: seq<seq<ChildDraw>>): (r: Outcome)
    requires IsMagnitude(mag) && |s.population| == size
    requires forall g :: 0 <= g < |draws| ==> DrawsFor(draws[g], size)
    ensures |r.state.population| == size
    decreases |draws|
  {
    if |draws| == 0 then Outcome(s, false)
    else
      var before := Run(mag, flock, size, s, draws[..|draws| - 1]);
      if before.raised then before
      else NextGeneration(mag, flock, size, before.state, draws[|draws| - 1])
  }

  lemma RunStep(mag: Vec -> real, flock: seq<Kin>, size: nat, s: GaState, draws: seq<seq<ChildDraw>>, g: nat)
    requires IsMagnitude(mag) && |s.population| == size
    requires forall h :: 0 <= h < |draws| ==> DrawsFor(draws[h], size)
    requires g < |draws|
    ensures var before := Run(mag, flock, size, s, draws[..g]);
            Run(mag, flock, size, s, draws[..g + 1]) ==
              if before.raised then before else NextGeneration(mag, flock, size, before.state, draws[g])
  {
    assert draws[..g + 1][..g] == draws[..g];
  }

  // ---------------------------------------------------------------------
  // Properties of one generation

  /** A generation fails exactly when the population has fewer than two
      members; the population keeps its size either way, and the
      generation counter moves by one exactly when it succeeds. */
  lemma GenerationSize(size: nat, s: GaState, scores: seq<real>, draws: seq<ChildDraw>)
    requires |s.population| == size && |scores| == size && DrawsFor(draws, size)
    ensures var r := Generation(size, s, scores, draws);
            (r.raised <==> size < 2) &&
            |r.state.population| == size &&
            r.state.generation == (if r.raised then s.generation else s.generation + 1) &&
            (r.raised ==> r.state.population == s.population)
  {
  }

  /** The best-so-far never decreases. It changes exactly when some member
      scored strictly higher, and then becomes the highest score together
      with a member reaching it. */
  lemma GenerationBest(size: nat, s: GaState, scores: seq<real>, draws: seq<ChildDraw>)
    requires |s.population| == size && |scores| == size && DrawsFor(draws, size)
    ensures var r := Generation(size, s, scores, draws).state;
            r.bestFitness >= s.bestFitness &&
            ((exists i :: 0 <= i < size && scores[i] > s.bestFitness) <==> r.bestFitness > s.bestFitness) &&
            (r.bestFitness == s.bestFitness ==> r.bestParameters == s.bestParameters) &&
            (r.bestFitness > s.bestFitness ==>
               (forall i :: 0 <= i < size ==> scores[i] <= r.bestFitness) &&
               exists i :: 0 <= i < size && scores[i] == r.bestFitness && r.bestParameters == Some(s.population[i]))
  {
    if size > 0 {
      var top := Ranking(scores, size)[0];
      var best := UpdateBest(s, scores, top);
      assert Generation(size, s, scores, draws).state.bestFitness == best.bestFitness;
      assert Generation(size, s, scores, draws).state.bestParameters == best.bestParameters;
      RankingTopIsMaximum(scores);
    }
  }

  /** The first population_size // 2 members after a generation are the
      population's members in stable descending order of score, and none of
      the others scored higher than any of them. */
  lemma GenerationSurvivors(size: nat, s: GaState, scores: seq<real>, draws: seq<ChildDraw>)
    requires |s.population| == size && |scores| == size && DrawsFor(draws, size)
    requires !Generation(size, s, scores, draws).raised
    ensures var next := Generation(size, s, scores, draws).state.population;
            var order := Ranking(scores, size);
            IsRanking(scores, order) &&
            (forall k :: 0 <= k < size / 2 ==> next[k] == s.population[order[k]]) &&
            (forall k, j :: 0 <= k < size / 2 && 0 <= j < size && j !in order[..size / 2] ==>
               scores[order[k]] >= scores[j])
  {
    var order := Ranking(scores, size);
    RankingIsStableDescending(scores);
    forall k, j | 0 <= k < size / 2 && 0 <= j < size && j !in order[..size / 2]
      ensures scores[order[k]] >= scores[j]
    {
      assert j in order;
      var m :| 0 <= m < |order| && order[m] == j;
      assert Before(scores, order[k], order[m]);
    }
  }

  /** Every bred member after a generation takes each weight from one of two
      survivors, up to MutationRate when it was mutated and exactly when it
      was not. */
  lemma GenerationChildren(size: nat, s: GaState, scores: seq<real>, draws: seq<ChildDraw>)
    requires |s.population| == size && |scores| == size && DrawsFor(draws, size)
    requires !Generation(size, s, scores, draws).raised
    ensures var next := Generation(size, s, scores, draws).state.population;
            var survivors, children := next[..size / 2], next[size / 2..];
            |children| == |draws| &&
            forall k :: 0 <= k < |children| ==>
              BredFrom(children[k], survivors) &&
              (draws[k].roll >= MutationChance ==>
                 FromParents(children[k], survivors[draws[k].parent1], survivors[draws[k].parent2], 0.0))
  {
    var survivors := Survivors(s.population, Ranking(scores, size), size / 2);
    var next := Generation(size, s, scores, draws).state.population;
    assert next == survivors + Children(survivors, draws);
    assert next[..size / 2] == survivors;
    assert next[size / 2..] == Children(survivors, draws);
    ChildrenBredFrom(survivors, draws);
  }

  /** Each child takes each weight from one of two survivors, up to
      MutationRate, and exactly from one of its two drawn parents when the
      roll spared it from mutation. */
  lemma ChildrenBredFrom(survivors: seq<Params>, draws: seq<ChildDraw>)
    requires |survivors| > 0 && forall k :: 0 <= k < |draws| ==> ValidDraw(draws[k], |survivors|)
    ensures var children := Children(survivors, draws);
            forall k :: 0 <= k < |draws| ==>
              BredFrom(children[k], survivors) &&
              (draws[k].roll >= MutationChance ==>
                 FromParents(children[k], survivors[draws[k].parent1], survivors[draws[k].parent2], 0.0))
  {
    var children := Children(survivors, draws);
    forall k | 0 <= k < |draws| ensures BredFrom(children[k], survivors) {
      var d := draws[k];
      assert FromParents(children[k], survivors[d.parent1], survivors[d.parent2], MutationRate);
    }
  }

  /** A generation keeps the fields consistent. */
  lemma GenerationConsistent(size: nat, s: GaState, scores: seq<real>, draws: seq<ChildDraw>)
    requires Consistent(s, size) && |scores| == size && DrawsFor(draws, size)
    ensures Consistent(Generation(size, s, scores, draws).state, size)
  {
    GenerationBest(size, s, scores, draws);
  }

  /** On the flock: a new best-so-far is the fitness of the best parameters,
      and no member of the population is fitter. */
  lemma NextGenerationBest(mag: Vec -> real, flock: seq<Kin>, size: nat, s: GaState, draws: seq<ChildDraw>)
    requires IsMagnitude(mag) && |s.population| == size && DrawsFor(draws, size)
    ensures var r := NextGeneration(mag, flock, size, s, draws).state;
            r.bestFitness > s.bestFitness ==>
              r.bestParameters.Some? &&
              r.bestParameters.value in s.population &&
              r.bestFitness == Fitness.Fitness(mag, flock, r.bestParameters.value) &&
              forall i :: 0 <= i < size ==> Fitness.Fitness(mag, flock, s.population[i]) <= r.bestFitness
  {
    var scores := Scores(mag, flock, s.population);
    GenerationBest(size, s, scores, draws);
  }

  // ---------------------------------------------------------------------
  // Properties of a whole evolve call

  /** After a generation has raised, the call's outcome is that generation's. */
  lemma {:induction false} RaisedIsFinal(mag: Vec -> real, flock: seq<Kin>, size: nat, s: GaState,
                                         draws: seq<seq<ChildDraw>>, k: nat)
    requires IsMagnitude(mag) && |s.population| == size
    requires forall g :: 0 <= g < |draws| ==> DrawsFor(draws[g], size)
    requires k <= |draws| && Run(mag, flock, size, s, draws[..k]).raised
    ensures Run(mag, flock, size, s, draws) == Run(mag, flock, size, s, draws[..k])
    decreases |draws|
  {
    if k < |draws| {
      var front := draws[..|draws| - 1];
      assert front[..k] == draws[..k];
      RaisedIsFinal(mag, flock, size, s, front, k);
    } else {
      assert draws[..k] == draws;
    }
  }

  /** Over a whole evolve call: the population keeps its size, the
      best-so-far never decreases, the fields stay consistent, and the call
      fails exactly when it runs a generation on fewer than two members;
      otherwise the generation counter grows by exactly num_generations. */
  lemma {:induction false} RunProperties(mag: Vec -> real, flock: seq<Kin>, size: nat, s: GaState, draws: seq<seq<ChildDraw>>)
    requires IsMagnitude(mag) && Consistent(s, size)
    requires forall g :: 0 <= g < |draws| ==> DrawsFor(draws[g], size)
    ensures var r := Run(mag, flock, size, s, draws);
            Consistent(r.state, size) &&
            r.state.bestFitness >= s.bestFitness &&
            (r.raised <==> |draws| > 0 && size < 2) &&
            (!r.raised ==> r.state.generation == s.generation + |draws|)
    decreases |draws|
  {
    if |draws| > 0 {
      var front := draws[..|draws| - 1];
      RunProperties(mag, flock, size, s, front);
      var before := Run(mag, flock, size, s, front);
      if !before.raised {
        var scores := Scores(mag, flock, before.state.population);
        GenerationSize(size, before.state, scores, draws[|draws| - 1]);
        GenerationBest(size, before.state, scores, draws[|draws| - 1]);
        GenerationConsistent(size, before.state, scores, draws[|draws| - 1]);
      }
    }
  }

  // ---------------------------------------------------------------------
  // The object

  /** What evolve returns, or the IndexError it raises. */
  datatype EvolveResult = Best(parameters: Option<Params>) | IndexError

  class GeneticAlgorithm {
    const populationSize: nat
    var population: seq<Params>
    var generation: int
    var bestFitness: real
    var bestParameters: Option<Params>

    function State(): GaState
      reads this
    {
      GaState(population, generation, bestFitness, bestParameters)
    }

    ghost predicate Valid()
      reads this
    {
      Consistent(State(), populationSize)
    }

    /** A population of default parameter sets (ten unless another size is
        given), generation 0, best 0 and None. */
    constructor (populationSize: nat := 10)
      ensures Valid()
      ensures this.populationSize == populationSize
      ensures population == seq(populationSize, _ => Default)
      ensures generation == 0 && bestFitness == 0.0 && bestParameters == None
    {
      this.populationSize := populationSize;
      population := seq(populationSize, _ => Default);
      generation := 0;
      bestFitness := 0.0;
      bestParameters := None;
    }

    /** evolve: one generation unless another count is given; `draws[g]`
        holds the random outcomes of generation g (passed by name). */
    method Evolve(mag: Vec -> real, boids: seq<Kin>, numGenerations: nat := 1, draws: seq<seq<ChildDraw>>)
      returns (result: EvolveResult)
      requires IsMagnitude(mag) && Valid()
      requires |draws| == numGenerations
      requires forall g :: 0 <= g < |draws| ==> DrawsFor(draws[g], populationSize)
      modifies this
      ensures Valid()
      ensures Outcome(State(), result == IndexError) == Run(mag, boids, populationSize, old(State()), draws)
      ensures result.Best? ==> result.parameters == bestParameters
      ensures bestFitness >= old(bestFitness)
      ensures result.Best? ==> generation == old(generation) + numGenerations
    {
      ghost var start := State();
      RunProperties(mag, boids, populationSize, start, draws);
      for g := 0 to numGenerations
        invariant Valid()
        invariant Run(mag, boids, populationSize, start, draws[..g]) == Outcome(State(), false)
      {
        RunStep(mag, boids, populationSize, start, draws, g);
        var raised := NextGenerationStep(mag, boids, draws[g]);
        if raised {
          RaisedIsFinal(mag, boids, populationSize, start, draws, g + 1);
          return IndexError;
        }
      }
      assert draws[..numGenerations] == draws;
      return Best(bestParameters);
    }

    /** One pass of evolve's generation loop: score every member on the
        flock, then select and breed. */
    method NextGenerationStep(mag: Vec -> real, boids: seq<Kin>, draws: seq<ChildDraw>) returns (raised: bool)
      requires IsMagnitude(mag) && Valid() && DrawsFor(draws, populationSize)
      modifies this
      ensures Valid()
      ensures Outcome(State(), raised) == NextGeneration(mag, boids, populationSize, old(State()), draws)
    {
      var fitnessScores := ScorePopulation(mag, boids, population);
      raised := SelectAndBreed(fitnessScores, draws);
    }

    /** The rest of the loop body, given `fitnessScores[i]` for
        `population[i]`: sort by score, update the best-so-far, keep the top
        half and refill it. */
    method SelectAndBreed(fitnessScores: seq<real>, draws: seq<ChildDraw>) returns (raised: bool)
      requires Valid() && |fitnessScores| == populationSize && DrawsFor(draws, populationSize)
      modifies this
      ensures Valid()
      ensures Outcome(State(), raised) == Generation(populationSize, old(State()), fitnessScores, draws)
    {
      ghost var start := State();
      GenerationConsistent(populationSize, start, fitnessScores, draws);
      if |fitnessScores| == 0 {
        return true;
      }
      var current := population;
      var order := Ranking(fitnessScores, |fitnessScores|);
      var ranked := seq(|order|, k requires 0 <= k < |order| => current[order[k]]);

      if fitnessScores[order[0]] > bestFitness {
        bestFitness := fitnessScores[order[0]];
        bestParameters := Some(ranked[0]);
      }
      ghost var best := UpdateBest(start, fitnessScores, order[0]);
      assert bestFitness == best.bestFitness && bestParameters == best.bestParameters;

      var topPerformers := ranked[..populationSize / 2];
      assert topPerformers == Survivors(current, order, populationSize / 2);
      var newPopulation;
      newPopulation, raised := Breed(topPerformers, draws, populationSize);
      if !raised {
        population := newPopulation;
        generation := generation + 1;
        assert State() == best.(population := topPerformers + Children(topPerformers, draws), generation := start.generation + 1);
      } else {
        assert State() == best;
      }
    }
  }

  /** The fitness of each parameter set on the flock, one calculate_fitness
      call per member. */
  method ScorePopulation(mag: Vec -> real, boids: seq<Kin>, population: seq<Params>) returns (scores: seq<real>)
    requires IsMagnitude(mag)
    ensures scores == Scores(mag, boids, population)
  {
    scores := [];
    for i := 0 to |population|
      invariant |scores| == i
      invariant forall k :: 0 <= k < i ==> scores[k] == Fitness.Fitness(mag, boids, population[k])
    {
      var fitness := CalculateFitness(mag, boids, population[i]);
      scores := scores + [fitness];
    }
  }

  /** The refill loop: keep the survivors and append bred children until
      the population has `size` members. With no survivor, the first
      random.choice raises IndexError. */
  method Breed(topPerformers: seq<Params>, draws: seq<ChildDraw>, size: nat) returns (newPopulation: seq<Params>, raised: bool)
    requires |topPerformers| == size / 2 && DrawsFor(draws, size)
    ensures raised <==> size == 1
    ensures !raised ==> |topPerformers| > 0 || size == 0
    ensures !raised && |topPerformers| > 0 ==> newPopulation == topPerformers + Children(topPerformers, draws)
    ensures !raised && size == 0 ==> newPopulation == []
  {
    newPopulation := topPerformers;
    while |newPopulation| < size
      invariant |topPerformers| <= |newPopulation| <= size
      invariant newPopulation[..|topPerformers|] == topPerformers
      invariant |topPerformers| == 0 ==> |newPopulation| == 0
      invariant forall k :: |topPerformers| <= k < |newPopulation| ==>
                  |topPerformers| > 0 && newPopulation[k] == Child(topPerformers, draws[k - |topPerformers|])
      decreases size - |newPopulation|
    {
      if |topPerformers| == 0 {
        return newPopulation, true;
      }
      var d := draws[|newPopulation| - |topPerformers|];
      var parent1 := topPerformers[d.parent1];
      var parent2 := topPerformers[d.parent2];
      var child := Crossover(parent1, parent2, d.coins);
      if d.roll < MutationChance {
        child := Mutate(child, d.offsets);
      }
      newPopulation := newPopulation + [child];
    }
    if |topPerformers| > 0 {
      assert newPopulation == topPerformers + Children(topPerformers, draws);
    }
    return newPopulation, false;
  }
}
