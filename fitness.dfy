/** calculate_fitness: how well a flock snapshot scores under a parameter
    set, as the weighted sum of three sub-scores of the form 1/(1 + mean). */
module Fitness {
  import opened Vectors
  import opened Parameters
  import opened Boids

  /** A float accumulator that may hold infinity (min_distance starts at
      float('inf') and stays there when a boid has no other boid). */
  datatype Extended = Finite(value: real) | Infinity

  /** min(running, d) with min(inf, d) == d. */
  function MinWith(running: Extended, d: real): (r: Extended)
    ensures r.Finite?
    ensures r.value <= d && (running.Finite? ==> r.value <= running.value)
    ensures r.value == d || (running.Finite? && r.value == running.value)
  {
    match running
    case Infinity => Finite(d)
    case Finite(m) => if d < m then Finite(d) else Finite(m)
  }

  /** running + d, where anything added to infinity stays infinity. */
  function Plus(running: Extended, d: Extended): (r: Extended)
    ensures r.Finite? <==> running.Finite? && d.Finite?
  {
    if running.Finite? && d.Finite? then Finite(running.value + d.value) else Infinity
  }

  /** 1 / (1 + total / n): the shape every sub-score is normalised to. */
  function Inverted(total: real, n: nat): (r: real)
    requires total >= 0.0 && n > 0
    ensures 0.0 < r <= 1.0
    ensures total == 0.0 <==> r == 1.0
  {
    1.0 / (1.0 + total / n as real)
  }

  function SumPositions(flock: seq<Kin>): Vec
  {
    if |flock| == 0 then Zero else Add(SumPositions(flock[..|flock| - 1]), flock[|flock| - 1].position)
  }

  function SumVelocities(flock: seq<Kin>): Vec
  {
    if |flock| == 0 then Zero else Add(SumVelocities(flock[..|flock| - 1]), flock[|flock| - 1].velocity)
  }

  /** The sum of the boids' distances from `center`. */
  function SpreadAbout(mag: Vec -> real, flock: seq<Kin>, center: Vec): (r: real)
    requires IsMagnitude(mag)
    ensures r >= 0.0
    ensures r == 0.0 <==> forall i :: 0 <= i < |flock| ==> flock[i].position == center
  {
    if |flock| == 0 then 0.0
    else SpreadAbout(mag, flock[..|flock| - 1], center) + mag(Sub(flock[|flock| - 1].position, center))
  }

  /** Cohesion: 1/(1 + mean distance from the centre of mass). */
  function CohesionScore(mag: Vec -> real, flock: seq<Kin>): (r: real)
    requires IsMagnitude(mag) && |flock| > 0
    ensures 0.0 < r <= 1.0
  {
    var center := Div(SumPositions(flock), |flock| as real);
    Inverted(SpreadAbout(mag, flock, center), |flock|)
  }

  /** The distance from boid i to the nearest boid among the first m other
      than itself, or infinity when there is none. */
  function NearestDistance(mag: Vec -> real, flock: seq<Kin>, i: nat, m: nat): (r: Extended)
    requires IsMagnitude(mag) && i < |flock| && m <= |flock|
    ensures r.Finite? <==> m >= 2 || (m == 1 && i != 0)
    ensures r.Finite? ==> r.value >= 0.0
  {
    if m == 0 then Infinity
    else
      var running := NearestDistance(mag, flock, i, m - 1);
      if m - 1 != i then MinWith(running, mag(Sub(flock[i].position, flock[m - 1].position))) else running
  }

  /** The nearest distance is the least distance from boid i to another
      boid, and it is attained by one of them. */
  lemma {:induction false} NearestIsMinimum(mag: Vec -> real, flock: seq<Kin>, i: nat, m: nat)
    requires IsMagnitude(mag) && i < |flock| && m <= |flock|
    ensures var r := NearestDistance(mag, flock, i, m);
            r.Finite? ==>
              (forall j :: 0 <= j < m && j != i ==> r.value <= mag(Sub(flock[i].position, flock[j].position))) &&
              (exists j :: 0 <= j < m && j != i && r.value == mag(Sub(flock[i].position, flock[j].position)))
  {
    if m > 0 {
      NearestIsMinimum(mag, flock, i, m - 1);
    }
  }

  /** The sum, over the first m boids, of each one's nearest distance. */
  function NearestSum(mag: Vec -> real, flock: seq<Kin>, m: nat): (r: Extended)
    requires IsMagnitude(mag) && m <= |flock|
    ensures r.Finite? <==> m == 0 || |flock| >= 2
    ensures r.Finite? ==> r.value >= 0.0
  {
    if m == 0 then Finite(0.0)
    else Plus(NearestSum(mag, flock, m - 1), NearestDistance(mag, flock, m - 1, |flock|))
  }

  /** Separation: 1/(1 + mean nearest distance); for a single boid the mean
      is infinite and the score 0. */
  function SeparationScore(mag: Vec -> real, flock: seq<Kin>): (r: real)
    requires IsMagnitude(mag) && |flock| > 0
    ensures |flock| >= 2 ==> 0.0 < r <= 1.0
    ensures |flock| == 1 ==> r == 0.0
  {
    match NearestSum(mag, flock, |flock|)
    case Infinity => 0.0
    case Finite(total) => Inverted(total, |flock|)
  }

  /** The sum of the distances between each boid's heading and `heading`. */
  function HeadingSpread(mag: Vec -> real, flock: seq<Kin>, heading: Vec): (r: real)
    requires IsMagnitude(mag)
    ensures r >= 0.0
  {
    if |flock| == 0 then 0.0
    else HeadingSpread(mag, flock[..|flock| - 1], heading) + mag(Sub(Normalize(mag, flock[|flock| - 1].velocity), heading))
  }

  /** Alignment: 1/(1 + mean distance of each heading from the mean heading). */
  function AlignmentScore(mag: Vec -> real, flock: seq<Kin>): (r: real)
    requires IsMagnitude(mag) && |flock| > 0
    ensures 0.0 < r <= 1.0
  {
    var heading := Normalize(mag, Div(SumVelocities(flock), |flock| as real));
    Inverted(HeadingSpread(mag, flock, heading), |flock|)
  }

  /** calculate_fitness: 0 for an empty flock, otherwise the weighted sum of
      the three sub-scores. */
  function Fitness(mag: Vec -> real, flock: seq<Kin>, p: Params): (r: real)
    requires IsMagnitude(mag)
    ensures |flock| == 0 ==> r == 0.0
  {
    if |flock| == 0 then 0.0
    else Weighted(p, SeparationScore(mag, flock), AlignmentScore(mag, flock), CohesionScore(mag, flock))
  }

  /** The combination step: each sub-score times its weight, summed. */
  function Weighted(p: Params, separation: real, alignment: real, cohesion: real): real
  {
    p.separationWeight * separation + p.alignmentWeight * alignment + p.cohesionWeight * cohesion
  }

  predicate NonNegative(p: Params)
  {
    p.separationWeight >= 0.0 && p.alignmentWeight >= 0.0 && p.cohesionWeight >= 0.0
  }

  /** With non-negative weights the fitness is non-negative and at most the
      sum of the weights; with positive weights and at least two boids it
      is positive. */
  lemma FitnessBounds(mag: Vec -> real, flock: seq<Kin>, p: Params)
    requires IsMagnitude(mag) && NonNegative(p)
    ensures 0.0 <= Fitness(mag, flock, p) <= p.separationWeight + p.alignmentWeight + p.cohesionWeight
    ensures |flock| >= 2 && p.separationWeight > 0.0 && p.alignmentWeight > 0.0 && p.cohesionWeight > 0.0
            ==> Fitness(mag, flock, p) > 0.0
  {
    if |flock| > 0 {
      var separation, alignment, cohesion := SeparationScore(mag, flock), AlignmentScore(mag, flock), CohesionScore(mag, flock);
      WeightedBounds(p, separation, alignment, cohesion);
      if |flock| >= 2 && p.separationWeight > 0.0 && p.alignmentWeight > 0.0 && p.cohesionWeight > 0.0 {
        WeightedPositive(p, separation, alignment, cohesion);
      }
    }
  }

  lemma WeightedBounds(p: Params, separation: real, alignment: real, cohesion: real)
    requires NonNegative(p)
    requires 0.0 <= separation <= 1.0 && 0.0 <= alignment <= 1.0 && 0.0 <= cohesion <= 1.0
    ensures 0.0 <= Weighted(p, separation, alignment, cohesion) <= p.separationWeight + p.alignmentWeight + p.cohesionWeight
  {
    var s := WeightedScore(p.separationWeight, separation);
    var a := WeightedScore(p.alignmentWeight, alignment);
    var c := WeightedScore(p.cohesionWeight, cohesion);
    assert Weighted(p, separation, alignment, cohesion) == s + a + c;
    SumWithin(s, a, c, p.separationWeight, p.alignmentWeight, p.cohesionWeight);
  }

  lemma SumWithin(s: real, a: real, c: real, ws: real, wa: real, wc: real)
    requires 0.0 <= s <= ws && 0.0 <= a <= wa && 0.0 <= c <= wc
    ensures 0.0 <= s + a + c <= ws + wa + wc
  {
  }

  lemma WeightedPositive(p: Params, separation: real, alignment: real, cohesion: real)
    requires p.separationWeight > 0.0 && p.alignmentWeight > 0.0 && p.cohesionWeight > 0.0
    requires 0.0 < separation <= 1.0 && 0.0 < alignment <= 1.0 && 0.0 < cohesion <= 1.0
    ensures Weighted(p, separation, alignment, cohesion) > 0.0
  {
    var s := WeightedScore(p.separationWeight, separation);
    var a := WeightedScore(p.alignmentWeight, alignment);
    var c := WeightedScore(p.cohesionWeight, cohesion);
    assert Weighted(p, separation, alignment, cohesion) == s + a + c;
  }

  /** One weighted term: a score in [0, 1] scaled by a non-negative weight
      stays between 0 and the weight, and is positive when both are. */
  lemma WeightedScore(w: real, score: real) returns (r: real)
    requires w >= 0.0 && 0.0 <= score <= 1.0
    ensures r == w * score
    ensures 0.0 <= r <= w
    ensures score > 0.0 && w > 0.0 ==> r > 0.0
  {
    r := w * score;
  }

  /** calculate_fitness as its loops compute it. */
  method CalculateFitness(mag: Vec -> real, boids: seq<Kin>, parameters: Params) returns (totalFitness: real)
    requires IsMagnitude(mag)
    ensures totalFitness == Fitness(mag, boids, parameters)
  {
    if |boids| == 0 {
      return 0.0;
    }
    var cohesionScore := ComputeCohesion(mag, boids);
    var separationScore := ComputeSeparation(mag, boids);
    var alignmentScore := ComputeAlignment(mag, boids);
    totalFitness := Weighted(parameters, separationScore, alignmentScore, cohesionScore);
  }

  /** The centre-of-mass and cohesion loops of calculate_fitness. */
  method ComputeCohesion(mag: Vec -> real, boids: seq<Kin>) returns (cohesionScore: real)
    requires IsMagnitude(mag) && |boids| > 0
    ensures cohesionScore == CohesionScore(mag, boids)
  {
    var n := |boids|;
    var centerOfMass := Zero;
    for i := 0 to n
      invariant centerOfMass == SumPositions(boids[..i])
    {
      assert boids[..i + 1][..i] == boids[..i];
      centerOfMass := Add(centerOfMass, boids[i].position);
    }
    assert boids[..n] == boids;
    centerOfMass := Div(centerOfMass, n as real);

    var total := 0.0;
    for i := 0 to n
      invariant total == SpreadAbout(mag, boids[..i], centerOfMass)
    {
      assert boids[..i + 1][..i] == boids[..i];
      total := total + mag(Sub(boids[i].position, centerOfMass));
    }
    assert boids[..n] == boids;
    cohesionScore := Inverted(total, n);
  }

  /** The nearest-neighbour loops of calculate_fitness. */
  method ComputeSeparation(mag: Vec -> real, boids: seq<Kin>) returns (separationScore: real)
    requires IsMagnitude(mag) && |boids| > 0
    ensures separationScore == SeparationScore(mag, boids)
  {
    var n := |boids|;
    var total := Finite(0.0);
    for i := 0 to n
      invariant total == NearestSum(mag, boids, i)
    {
      var minDistance := Infinity;
      for j := 0 to n
        invariant minDistance == NearestDistance(mag, boids, i, j)
      {
        if j != i {
          var distance := mag(Sub(boids[i].position, boids[j].position));
          minDistance := MinWith(minDistance, distance);
        }
      }
      total := Plus(total, minDistance);
    }
    separationScore := if total.Finite? then Inverted(total.value, n) else 0.0;
  }

  /** The average-heading and alignment loops of calculate_fitness. */
  method ComputeAlignment(mag: Vec -> real, boids: seq<Kin>) returns (alignmentScore: real)
    requires IsMagnitude(mag) && |boids| > 0
    ensures alignmentScore == AlignmentScore(mag, boids)
  {
    var n := |boids|;
    var averageVelocity := Zero;
    for i := 0 to n
      invariant averageVelocity == SumVelocities(boids[..i])
    {
      assert boids[..i + 1][..i] == boids[..i];
      averageVelocity := Add(averageVelocity, boids[i].velocity);
    }
    assert boids[..n] == boids;
    averageVelocity := Normalize(mag, Div(averageVelocity, n as real));

    var total := 0.0;
    for i := 0 to n
      invariant total == HeadingSpread(mag, boids[..i], averageVelocity)
    {
      assert boids[..i + 1][..i] == boids[..i];
      total := total + mag(Sub(Normalize(mag, boids[i].velocity), averageVelocity));
    }
    assert boids[..n] == boids;
    alignmentScore := Inverted(total, n);
  }
}
