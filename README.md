# Boids with a genetic weight search, modelled in Dafny

This project models the core of a Python flocking simulation. It has two parts.

**The boids** (`boid.py`). A `Boid` holds a position, a velocity, an
acceleration and a set of three steering weights. `apply_force` and `flock`
only add into the acceleration. `flock` adds the separation, alignment and
cohesion forces, each scaled by the boid's own weight. `update` adds the
acceleration to the velocity and clamps the speed to `MAX_SPEED`. It then
moves the position by the new velocity and resets the acceleration.
`edges` wraps each coordinate of the position around the cube
`[NEGATIVE_LIMIT, POSITIVE_LIMIT]`. Each steering rule scans the whole flock
and decides by distance which boids are neighbours:

- `separate` counts boids with `0 < d < NEIGHBOURHOOD_RADIUS`, so it never
  counts the boid itself;
- `align` and `cohere` count boids with `d < NEIGHBOURHOOD_RADIUS`, so they
  do count the boid itself.

Each rule steers towards full speed, subtracts the current velocity and
clamps the result to `MAX_FORCE`.

**The genetic search** (`genetic_algorithm.py`). A `FlockParameters` holds
three weights. `crossover` copies each weight from one parent or the other.
`mutate` shifts each weight by at most 0.1. `calculate_fitness` scores a
flock under a weight set. The score is the weighted sum of three sub-scores
of the form `1 / (1 + mean)`:

- the mean distance from the centre of mass (cohesion);
- the mean distance to the nearest other boid (separation);
- the mean distance of each heading from the mean heading (alignment).

`GeneticAlgorithm.evolve` repeats one generation `num_generations` times:

1. score every parameter set;
2. sort stably by descending score;
3. replace the best-so-far only on a strictly higher score;
4. keep the top `population_size // 2`;
5. refill the population with crossover children, mutating one in ten;
6. advance the generation counter.

## Modules

- `Vectors` (`vectors.dfy`). Real 3-vectors. The magnitude is passed in as
  a function value and is constrained by `IsMagnitude`: it is never
  negative, it is zero only for the zero vector, and it scales with a
  non-negative factor. `Normalize` and `ClampMagnitude` are built on it.
- `Parameters` (`parameters.dfy`). `FlockParameters` as the value type
  `Params`, with `Mutate` and `Crossover`. The random outcomes they use are
  arguments: `Offsets` for the three `random.uniform` calls, `Coins` for
  the three `random.choice` calls.
- `Boids` (`boids.dfy`). The class `Boid` with its methods, and the
  steering rules as functions over a snapshot of the flock.
  - `Env` carries the constants of the simulation and the magnitude.
  - `NeighbourTally` is what a rule's accumulator loop computes: the sum
    and the count of the qualifying boids.
  - The three rule methods are proved equal to the rule functions.
- `Fitness` (`fitness.dfy`). `calculate_fitness` twice:
  - as specification functions (`Fitness` and one function per
    sub-score);
  - as methods with the source's accumulator loops, proved equal to those
    functions.

  `float('inf')`, the starting value of `min_distance`, is the
  `Infinity` case of `Extended`. A one-boid flock therefore has separation
  score 0, as in the source, where `1 / (1 + inf)` is 0.
- `Genetic` (`genetic.dfy`). One generation as the function `Generation`.
  - `Ranking` is the stable descending sort. It is proved to be the only
    ordering that lists every index once, best first, with ties in their
    original order.
  - `Run` is a whole `evolve` call.
  - The class `GeneticAlgorithm` holds the mutable fields. Its methods are
    proved against `Run` and `Generation`.
  - The random outcomes of each bred child are a `ChildDraw`: two parent
    indices, the crossover coins, the mutation roll and the mutation
    offsets.

  An empty population raises `IndexError` at `fitness_scores[0]`. A
  population of one raises it at `random.choice([])`, after the
  best-so-far has been updated. In both cases the outcome is flagged
  `raised` and the fields are left as the source leaves them.

The fitness follows the code exactly: three weights and a plain weighted
sum of three sub-scores. Separation uses the mean nearest distance, with no
safe-distance threshold and no penalty factor.

## Model

| member | source | states |
|---|---|---|
| Vectors.Normalize | boid.py:114-121 | The zero vector maps to zero; any other vector is divided by its magnitude and the result has magnitude 1. |
| Vectors.ScaledUnitMagnitude | boid.py:23 | The unit vector of a non-zero vector, scaled by s >= 0, has magnitude exactly s (the speed and force limits are reached, not approximated). |
| Vectors.ClampMagnitude | boid.py:22-23 | The result never exceeds the limit; a vector within the limit is unchanged; a longer one becomes the vector of exactly the limit's length in the same direction. |
| Parameters.Mutate | genetic_algorithm.py:10-17 | Every weight of the new parameter set is within MutationRate = 0.1 of the original's; zero offsets give back the original. |
| Parameters.Crossover | genetic_algorithm.py:19-25 | Each weight equals the corresponding weight of one parent or the other, never a blend; two equal parents give that parent. |
| Parameters.CrossoverReachesEveryMix | genetic_algorithm.py:20-25 | Conversely, every child whose weights each come from a parent is produced by the coins that pick them. |
| Parameters.BredChildFromParents | genetic_algorithm.py:107-109 | A crossover child takes each weight exactly from a parent; after mutation each weight is within 0.1 of a parent's. |
| Boids.Contribution | boid.py:53-58 | A boid counts for separation iff 0 < distance < radius, and for alignment and cohesion iff distance < radius. |
| Boids.NeighbourTally | boid.py:50-58 | The count never exceeds the flock size, and with no boid counted the steering sum is the zero vector. |
| Boids.SeparateForce | boid.py:49-70 | The separation force has magnitude at most MAX_FORCE, and is zero when no boid qualifies. |
| Boids.AlignForce | boid.py:72-90 | The alignment force has magnitude at most MAX_FORCE, and is zero when no boid is in range. |
| Boids.CohereForce | boid.py:92-111 | The cohesion force has magnitude at most MAX_FORCE, and is zero when no boid is in range. |
| Boids.TallyInsert | boid.py:53-58 | Inserting a boid anywhere in the flock changes a rule's sum and count by exactly that boid's own contribution. |
| Boids.TallyOfNoNeighbours | boid.py:50-58 | When no boid qualifies, the accumulators end as they started: zero sum and zero count. |
| Boids.NoNeighboursNoSteering | boid.py:49-111 | If every boid is at least the radius away, all three rules return the zero vector. |
| Boids.SeparateIgnoresSelf | boid.py:55 | Adding the boid itself to the flock, at any place, leaves the separation force unchanged. |
| Boids.AloneButSelf | boid.py:76-109 | With only the boid itself in range: separation is zero, alignment is full speed along the velocity minus the velocity, clamped, and cohesion is minus the velocity, clamped. |
| Boids.AloneButSelfSteersUnlessSettled | boid.py:82-109 | With only the boid itself in range, cohesion is zero exactly for a boid at rest. Alignment is zero exactly for a boid at rest or already at MAX_SPEED. |
| Boids.WrapAxis | boid.py:31-32 | A value strictly below the range becomes the upper limit and one strictly above it the lower limit; values in the range (limits included) stay; the result is always within the range. |
| Boids.Boid.constructor | boid.py:9-14 | Acceleration starts at zero; absent parameters default to weights (1, 1, 1); position and velocity are the given initial values. |
| Boids.Boid.ApplyForce | boid.py:16-17 | Only the acceleration changes, by adding the force. |
| Boids.Boid.Update | boid.py:19-27 | The new velocity is the old velocity plus the acceleration, clamped to MAX_SPEED (so its magnitude is at most MAX_SPEED); the position moves by the new velocity; the acceleration is reset to zero. |
| Boids.Boid.Edges | boid.py:29-38 | Each coordinate is wrapped independently by WrapAxis; velocity and acceleration are untouched; afterwards the position lies in the cube. |
| Boids.Boid.Flock | boid.py:40-47 | The acceleration grows by the three rule forces, each scaled by this boid's weight, computed on the flock as it was; position and velocity are unchanged. |
| Boids.Boid.Separate | boid.py:49-70 | The accumulator loop computes SeparateForce on the positions and velocities of the list. |
| Boids.Boid.Align | boid.py:72-90 | The accumulator loop computes AlignForce on the positions and velocities of the list. |
| Boids.Boid.Cohere | boid.py:92-111 | The accumulator loop computes CohereForce on the positions and velocities of the list. |
| Fitness.MinWith | genetic_algorithm.py:55 | min with an infinite running value gives the distance; the result is finite, at most the distance and at most the running value, and equals one of them. |
| Fitness.Plus | genetic_algorithm.py:56 | A sum stays finite exactly when both operands are finite. |
| Fitness.Inverted | genetic_algorithm.py:46 | 1/(1 + total/n) lies in (0, 1], and is 1 exactly when the total is 0. |
| Fitness.SpreadAbout | genetic_algorithm.py:43-45 | The summed distances from the centre are non-negative and zero exactly when every boid sits at the centre. |
| Fitness.CohesionScore | genetic_algorithm.py:37-46 | The cohesion sub-score lies in (0, 1]. |
| Fitness.NearestDistance | genetic_algorithm.py:50-55 | The running minimum stays infinite until another boid has been seen, and is never negative. |
| Fitness.NearestIsMinimum | genetic_algorithm.py:51-55 | A finite nearest distance is at most the distance to every other boid and equals the distance to one of them. |
| Fitness.NearestSum | genetic_algorithm.py:49-56 | The sum of nearest distances is finite iff the flock has at least two boids (or nothing has been summed), and is never negative. |
| Fitness.SeparationScore | genetic_algorithm.py:48-57 | With two or more boids the separation sub-score lies in (0, 1]; a single boid scores 0. |
| Fitness.HeadingSpread | genetic_algorithm.py:65-67 | The summed heading deviations are non-negative. |
| Fitness.AlignmentScore | genetic_algorithm.py:59-68 | The alignment sub-score lies in (0, 1]. |
| Fitness.Fitness | genetic_algorithm.py:27-77 | The fitness of an empty flock is 0. |
| Fitness.FitnessBounds | genetic_algorithm.py:71-77 | With non-negative weights the fitness lies between 0 and the sum of the weights; with positive weights and two or more boids it is strictly positive. |
| Fitness.WeightedBounds | genetic_algorithm.py:71-75 | Sub-scores in [0, 1] and non-negative weights give a weighted sum between 0 and the sum of the weights. |
| Fitness.WeightedPositive | genetic_algorithm.py:71-75 | Positive sub-scores and positive weights give a positive weighted sum. |
| Fitness.CalculateFitness | genetic_algorithm.py:27-77 | The method returns the fitness the specification function defines, 0 for no boids. |
| Fitness.ComputeCohesion | genetic_algorithm.py:37-46 | The centre-of-mass and distance loops compute CohesionScore. |
| Fitness.ComputeSeparation | genetic_algorithm.py:48-57 | The nested nearest-distance loops compute SeparationScore, including the infinite case. |
| Fitness.ComputeAlignment | genetic_algorithm.py:59-68 | The average-heading and deviation loops compute AlignmentScore. |
| Genetic.Insert | genetic_algorithm.py:92 | Inserting an index adds exactly that index to the order and keeps every entry a valid index. |
| Genetic.Ranking | genetic_algorithm.py:92 | The ranking of the first n indices holds exactly the indices 0..n-1, n entries. |
| Genetic.InsertKeepsRanked | genetic_algorithm.py:92 | Inserting a later index into a list in best-first, ties-by-position order keeps that order. |
| Genetic.RankingIsStableDescending | genetic_algorithm.py:90-92 | The ranking lists every index once, higher scores first, equal scores in their original order. |
| Genetic.RankedUnique | genetic_algorithm.py:92 | Two lists of the same indices, both in that order, are equal. |
| Genetic.RankingIsUnique | genetic_algorithm.py:92 | Any ordering meeting the stable-descending property is the ranking, so the sort's outcome is fully determined. |
| Genetic.RankingTopIsMaximum | genetic_algorithm.py:92-95 | The first ranked index holds the highest score. |
| Genetic.Child | genetic_algorithm.py:105-110 | A bred child's weights are each within 0.1 of a drawn parent's, and exactly a drawn parent's when the roll skips mutation. |
| Genetic.Scores | genetic_algorithm.py:90 | One score per member of the population, each its fitness on the flock. |
| Genetic.Survivors | genetic_algorithm.py:100 | The survivors are the first population_size // 2 members in ranked order. |
| Genetic.UpdateBest | genetic_algorithm.py:95-97 | The best-so-far is replaced by the top score and its parameters only when that score is strictly higher; population and counter are unchanged. |
| Genetic.Children | genetic_algorithm.py:104-110 | One child per draw, each bred by Child. |
| Genetic.ChildrenBredFrom | genetic_algorithm.py:104-110 | Every child takes each weight from some pair of survivors, within 0.1, and exactly from its drawn parents when not mutated. |
| Genetic.Generation | genetic_algorithm.py:89-113 | One generation keeps the population size. |
| Genetic.NextGeneration | genetic_algorithm.py:89-113 | One generation on the flock keeps the population size. |
| Genetic.Run | genetic_algorithm.py:88-113 | A whole call keeps the population size. |
| Genetic.GenerationSize | genetic_algorithm.py:95-113 | A generation raises exactly when the population has fewer than two members. The size is kept either way. The counter advances by one exactly on success. A failed generation leaves the population as it was. |
| Genetic.GenerationBest | genetic_algorithm.py:95-97 | The best-so-far never decreases. It changes exactly when some member scored strictly higher. It then becomes the highest score, held by a member whose parameters become the best parameters. |
| Genetic.GenerationSurvivors | genetic_algorithm.py:90-103 | The first population_size // 2 members of the new population are the old members in stable descending order of score. No member left out scored higher than any survivor. |
| Genetic.GenerationChildren | genetic_algorithm.py:103-110 | The rest of the new population, one child per draw, is bred from the survivors that form its prefix. |
| Genetic.GenerationConsistent | genetic_algorithm.py:95-97 | A generation keeps the fields consistent. The size is fixed, the best score is non-negative, and the best parameters are None exactly while the best score is 0. |
| Genetic.NextGenerationBest | genetic_algorithm.py:90-97 | A new best-so-far is the fitness of the new best parameters. Those parameters are a member of the population, and no member is fitter. |
| Genetic.RaisedIsFinal | genetic_algorithm.py:88-113 | Once a generation raises, the outcome of the call is that generation's. |
| Genetic.RunProperties | genetic_algorithm.py:87-115 | Over a call: the fields stay consistent and the best score never decreases. The call raises exactly when it runs a generation on fewer than two members. Otherwise the counter grows by exactly num_generations. |
| Genetic.GeneticAlgorithm.constructor | genetic_algorithm.py:80-85 | population_size defaults to 10. The population is population_size default parameter sets, the counter is 0, the best score 0 and the best parameters None. |
| Genetic.GeneticAlgorithm.Evolve | genetic_algorithm.py:87-115 | num_generations defaults to 1. The fields end as Run prescribes, and the call fails exactly when Run raises. On success it returns the best parameters and the counter grew by num_generations. The best score never decreases. |
| Genetic.GeneticAlgorithm.NextGenerationStep | genetic_algorithm.py:89-113 | One pass of the loop leaves the fields as NextGeneration prescribes and keeps them consistent. |
| Genetic.GeneticAlgorithm.SelectAndBreed | genetic_algorithm.py:92-113 | Sorting, the best-so-far update, selection and refill leave the fields as Generation prescribes for the given scores. |
| Genetic.ScorePopulation | genetic_algorithm.py:90 | The scoring loop computes Scores: the fitness of each member, in order. |
| Genetic.Breed | genetic_algorithm.py:103-110 | The refill loop raises exactly for a population size of 1. Otherwise it returns the survivors followed by one child per draw. |

## Left out

- `main.py` is not part of this model: the rendering loop, the canvas and
  the order in which the driver calls `flock` and `update`.
- The vpython `cone` of each boid and its updates (boid.py:13, 25-26) are
  rendering only.
- The random starting position and velocity of a boid (boid.py:10-11).
  `Boids.Boid.constructor` takes them as arguments.
- `constants.py` is not part of this model. `NEGATIVE_LIMIT`,
  `POSITIVE_LIMIT`, `MAX_SPEED`, `MAX_FORCE` and `NEIGHBOURHOOD_RADIUS` are
  fields of `Env`, with the lower limit at most the upper and with positive
  speed, force and radius.
- Floating point: all arithmetic is on exact reals.
  - `mag` is an abstract function with the three laws of `IsMagnitude`
    rather than a rounded square root.
  - NaN, overflow and rounding are not captured.
  - Infinity is captured only where the source creates it, as the
    starting minimum distance.
- The distributions of `random.uniform`, `random.choice` and
  `random.random` are not modelled. Their outcomes are arguments, restricted
  to their ranges.
- The algorithm of `list.sort` is not modelled. Only its result is: the
  unique stable descending order.
- Aliasing. A `FlockParameters` object shared between boids or population
  members is a value. The boids' list is read through a snapshot of
  positions and velocities.
- Identity comparison `other != boid` (genetic_algorithm.py:53) is
  modelled as comparison of list positions. A list that holds the same boid
  object twice is treated as two boids at the same place.
- Negative `population_size` or `num_generations` are not modelled. Both
  are natural numbers here.
- Genetic.GeneticAlgorithm.Evolve: the exception is modelled as the
  `IndexError` result with the fields left as they are at the raise, not
  as a Python exception unwinding the caller.
