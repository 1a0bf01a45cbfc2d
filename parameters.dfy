/** FlockParameters: the three steering weights, and the two ways the
    genetic search makes new ones (mutation and crossover). The class is never
    changed after construction, so it is modelled as a value. */
module Parameters {

  datatype Params = Params(separationWeight: real, alignmentWeight: real, cohesionWeight: real)

  /** The weights a FlockParameters() gets when none are given. */
  const Default: Params := Params(1.0, 1.0, 1.0)

  /** Bound of each random.uniform offset that mutate adds. */
  const MutationRate: real := 0.1

  /** The three outcomes of random.uniform(-MutationRate, MutationRate) in one mutate call. */
  datatype Offsets = Offsets(separation: real, alignment: real, cohesion: real)

  predicate InRate(d: real) { -MutationRate <= d <= MutationRate }

  predicate ValidOffsets(o: Offsets)
  {
    InRate(o.separation) && InRate(o.alignment) && InRate(o.cohesion)
  }

  /** The three outcomes of random.choice([first, second]) in one crossover
      call: true picks the first parent's weight. */
  datatype Coins = Coins(separationFromFirst: bool, alignmentFromFirst: bool, cohesionFromFirst: bool)

  function Abs(x: real): real { if x < 0.0 then -x else x }

  /** Each weight of `c` lies within `tolerance` of the corresponding weight of `p`. */
  predicate Near(c: Params, p: Params, tolerance: real)
  {
    Abs(c.separationWeight - p.separationWeight) <= tolerance &&
    Abs(c.alignmentWeight - p.alignmentWeight) <= tolerance &&
    Abs(c.cohesionWeight - p.cohesionWeight) <= tolerance
  }

  predicate NearOneOf(x: real, a: real, b: real, tolerance: real)
  {
    Abs(x - a) <= tolerance || Abs(x - b) <= tolerance
  }

  /** Each weight of `c` lies within `tolerance` of the corresponding weight
      of `p1` or of `p2` (tolerance 0 means: equals one of them). */
  predicate FromParents(c: Params, p1: Params, p2: Params, tolerance: real)
  {
    NearOneOf(c.separationWeight, p1.separationWeight, p2.separationWeight, tolerance) &&
    NearOneOf(c.alignmentWeight, p1.alignmentWeight, p2.alignmentWeight, tolerance) &&
    NearOneOf(c.cohesionWeight, p1.cohesionWeight, p2.cohesionWeight, tolerance)
  }

  /** FlockParameters.mutate: a new parameter set, every weight shifted by
      its own offset of at most MutationRate; the receiver is a value and
      stays as it was. */
  function Mutate(p: Params, o: Offsets): (r: Params)
    requires ValidOffsets(o)
    ensures Near(r, p, MutationRate)
    ensures o == Offsets(0.0, 0.0, 0.0) ==> r == p
  {
    Params(p.separationWeight + o.separation,
           p.alignmentWeight + o.alignment,
           p.cohesionWeight + o.cohesion)
  }

  /** FlockParameters.crossover: every weight is copied from one parent or
      the other, never blended. */
  function Crossover(parent1: Params, parent2: Params, coins: Coins): (r: Params)
    ensures r.separationWeight == parent1.separationWeight || r.separationWeight == parent2.separationWeight
    ensures r.alignmentWeight == parent1.alignmentWeight || r.alignmentWeight == parent2.alignmentWeight
    ensures r.cohesionWeight == parent1.cohesionWeight || r.cohesionWeight == parent2.cohesionWeight
    ensures parent1 == parent2 ==> r == parent1
  {
    Params(if coins.separationFromFirst then parent1.separationWeight else parent2.separationWeight,
           if coins.alignmentFromFirst then parent1.alignmentWeight else parent2.alignmentWeight,
           if coins.cohesionFromFirst then parent1.cohesionWeight else parent2.cohesionWeight)
  }

  /** Every combination of parental weights is some crossover outcome: the
      child `c` whose weights each come from a parent is produced by the
      coins that pick them. */
  lemma CrossoverReachesEveryMix(parent1: Params, parent2: Params, c: Params)
    requires FromParents(c, parent1, parent2, 0.0)
    ensures Crossover(parent1, parent2, Coins(c.separationWeight == parent1.separationWeight,
                                              c.alignmentWeight == parent1.alignmentWeight,
                                              c.cohesionWeight == parent1.cohesionWeight)) == c
  {
  }

  /** A crossover child, mutated or not, keeps each weight within
      MutationRate of one of its parents; unmutated, it equals one. */
  lemma {:induction false} BredChildFromParents(parent1: Params, parent2: Params, coins: Coins, mutated: bool, o: Offsets)
    requires ValidOffsets(o)
    ensures var c := Crossover(parent1, parent2, coins);
            FromParents(c, parent1, parent2, 0.0) &&
            FromParents(if mutated then Mutate(c, o) else c, parent1, parent2, MutationRate)
  {
    var c := Crossover(parent1, parent2, coins);
    var m := Mutate(c, o);
    assert Near(m, c, MutationRate);
  }
}
