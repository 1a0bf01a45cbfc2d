/** One boid's kinematic state and its three steering rules
    (separation, alignment, cohesion), integration and toroidal wrap. */
module Boids {
  import opened Vectors
  import opened Options
  import opened Parameters

  /** The values the simulation takes from its constants module, and the
      magnitude function of the vector library. */
  datatype Env = Env(mag: Vec -> real,
                     negativeLimit: real, positiveLimit: real,
                     maxSpeed: real, maxForce: real, radius: real)
  {
    ghost predicate Valid()
    {
      IsMagnitude(mag) &&
      negativeLimit <= positiveLimit &&
      maxSpeed > 0.0 && maxForce > 0.0 && radius > 0.0
    }
  }

  /** What another boid's steering rules read of a boid. */
  datatype Kin = Kin(position: Vec, velocity: Vec)

  /** The three rules, each of which scans the whole flock. */
  datatype Rule = Separation | Alignment | Cohesion

  /** The running accumulators `steering` and `total` of a rule's loop. */
  datatype Tally = Tally(sum: Vec, count: nat)

  /** What boid `b` adds to the steering sum of the boid at `me` under `rule`,
      or None when it is not a neighbour for that rule. Separation needs
      0 < distance < radius, so the boid itself and any boid at the same
      spot are skipped; alignment and cohesion need only distance < radius,
      so they count the boid itself. */
  function Contribution(env: Env, rule: Rule, me: Vec, b: Kin): (r: Option<Vec>)
    requires env.Valid()
    ensures r.Some? <==> (if rule == Separation then 0.0 < env.mag(Sub(me, b.position)) < env.radius
                          else env.mag(Sub(me, b.position)) < env.radius)
  {
    var distance := env.mag(Sub(me, b.position));
    match rule
    case Separation =>
      if env.radius > distance > 0.0 then Some(Div(Normalize(env.mag, Sub(me, b.position)), distance)) else None
    case Alignment =>
      if distance < env.radius then Some(b.velocity) else None
    case Cohesion =>
      if distance < env.radius then Some(b.position) else None
  }

  /** The accumulators after a rule's loop has scanned `flock` in order. */
  function NeighbourTally(env: Env, rule: Rule, me: Vec, flock: seq<Kin>): (t: Tally)
    requires env.Valid()
    ensures t.count <= |flock|
    ensures t.count == 0 ==> t.sum == Zero
  {
    if |flock| == 0 then Tally(Zero, 0)
    else Count(NeighbourTally(env, rule, me, flock[..|flock| - 1]), Contribution(env, rule, me, flock[|flock| - 1]))
  }

  /** One pass of a rule's loop body: a qualifying boid is added to the sum
      and counted. */
  function Count(t: Tally, contribution: Option<Vec>): Tally
  {
    match contribution
    case None => t
    case Some(c) => Tally(Add(t.sum, c), t.count + 1)
  }

  /** Boid.separate on a snapshot: the mean of the weighted unit vectors away
      from each neighbour, steered towards full speed, minus the current
      velocity, clamped to the force limit; zero when no boid qualifies. */
  function SeparateForce(env: Env, me: Kin, flock: seq<Kin>): (r: Vec)
    requires env.Valid()
    ensures env.mag(r) <= env.maxForce
    ensures NeighbourTally(env, Separation, me.position, flock).count == 0 ==> r == Zero
  {
    var t := NeighbourTally(env, Separation, me.position, flock);
    var steering := if t.count > 0 then Div(t.sum, t.count as real) else t.sum;
    if env.mag(steering) > 0.0 then
      ClampMagnitude(env.mag, Sub(Scale(Normalize(env.mag, steering), env.maxSpeed), me.velocity), env.maxForce)
    else
      steering
  }

  /** Boid.align on a snapshot: the mean velocity of the neighbours, steered
      towards full speed, minus the current velocity, clamped. */
  function AlignForce(env: Env, me: Kin, flock: seq<Kin>): (r: Vec)
    requires env.Valid()
    ensures env.mag(r) <= env.maxForce
    ensures NeighbourTally(env, Alignment, me.position, flock).count == 0 ==> r == Zero
  {
    var t := NeighbourTally(env, Alignment, me.position, flock);
    if t.count > 0 then
      var mean := Div(t.sum, t.count as real);
      ClampMagnitude(env.mag, Sub(Scale(Normalize(env.mag, mean), env.maxSpeed), me.velocity), env.maxForce)
    else
      t.sum
  }

  /** Boid.cohere on a snapshot: the direction from the boid to the mean
      position of its neighbours, steered towards full speed, minus the
      current velocity, clamped. */
  function CohereForce(env: Env, me: Kin, flock: seq<Kin>): (r: Vec)
    requires env.Valid()
    ensures env.mag(r) <= env.maxForce
    ensures NeighbourTally(env, Cohesion, me.position, flock).count == 0 ==> r == Zero
  {
    var t := NeighbourTally(env, Cohesion, me.position, flock);
    if t.count > 0 then
      var towards := Sub(Div(t.sum, t.count as real), me.position);
      ClampMagnitude(env.mag, Sub(Scale(Normalize(env.mag, towards), env.maxSpeed), me.velocity), env.maxForce)
    else
      t.sum
  }

  /** The accumulators after counting a list of contributions in order. */
  function Scan(cs: seq<Option<Vec>>): Tally
  {
    if |cs| == 0 then Tally(Zero, 0) else Count(Scan(cs[..|cs| - 1]), cs[|cs| - 1])
  }

  /** The contribution of every boid of `flock`, in order. */
  function Contributions(env: Env, rule: Rule, me: Vec, flock: seq<Kin>): (cs: seq<Option<Vec>>)
    requires env.Valid()
    ensures |cs| == |flock|
    ensures forall i :: 0 <= i < |flock| ==> cs[i] == Contribution(env, rule, me, flock[i])
  {
    seq(|flock|, i requires 0 <= i < |flock| => Contribution(env, rule, me, flock[i]))
  }

  /** A rule's tally is the scan of its boids' contributions. */
  lemma {:induction false} TallyIsScan(env: Env, rule: Rule, me: Vec, flock: seq<Kin>)
    requires env.Valid()
    ensures NeighbourTally(env, rule, me, flock) == Scan(Contributions(env, rule, me, flock))
  {
    if |flock| > 0 {
      var front := flock[..|flock| - 1];
      TallyIsScan(env, rule, me, front);
      var cs := Contributions(env, rule, me, flock);
      assert cs[..|cs| - 1] == Contributions(env, rule, me, front);
    }
  }

  /** Scanning `a` and then `b` adds up what each scan adds. */
  lemma {:induction false} ScanConcat(a: seq<Option<Vec>>, b: seq<Option<Vec>>)
    ensures Scan(a + b) == Tally(Add(Scan(a).sum, Scan(b).sum), Scan(a).count + Scan(b).count)
    decreases |b|
  {
    if |b| == 0 {
      assert a + b == a;
      AddZero(Scan(a).sum);
    } else {
      var front, last := b[..|b| - 1], b[|b| - 1];
      assert b == front + [last];
      assert a + b == (a + front) + [last];
      ScanConcat(a, front);
      ScanSnoc(a + front, last);
      ScanSnoc(front, last);
      CountAfterSum(Scan(a), Scan(front), last);
    }
  }

  lemma ScanSnoc(s: seq<Option<Vec>>, c: Option<Vec>)
    ensures Scan(s + [c]) == Count(Scan(s), c)
  {
    assert (s + [c])[..|s|] == s;
  }

  lemma AddZero(v: Vec)
    ensures Add(v, Zero) == v
  {
  }

  lemma CountAfterSum(t: Tally, u: Tally, c: Option<Vec>)
    ensures Count(Tally(Add(t.sum, u.sum), t.count + u.count), c) ==
            Tally(Add(t.sum, Count(u, c).sum), t.count + Count(u, c).count)
  {
  }

  /** Inserting boid `x` anywhere into the scanned list changes the tally
      by exactly `x`'s own contribution, wherever it is inserted. */
  lemma TallyInsert(env: Env, rule: Rule, me: Vec, flock: seq<Kin>, k: nat, x: Kin)
    requires env.Valid() && k <= |flock|
    ensures var t := NeighbourTally(env, rule, me, flock);
            NeighbourTally(env, rule, me, flock[..k] + [x] + flock[k..]) == Count(t, Contribution(env, rule, me, x))
  {
    var cs := Contributions(env, rule, me, flock);
    var c := Contribution(env, rule, me, x);
    ContributionsInsert(env, rule, me, flock, k, x);
    InsertIntoScan(cs[..k], cs[k..], c);
    TallyIsScan(env, rule, me, flock);
    TallyIsScan(env, rule, me, flock[..k] + [x] + flock[k..]);
  }

  lemma ContributionsInsert(env: Env, rule: Rule, me: Vec, flock: seq<Kin>, k: nat, x: Kin)
    requires env.Valid() && k <= |flock|
    ensures var cs := Contributions(env, rule, me, flock);
            Contributions(env, rule, me, flock[..k] + [x] + flock[k..]) == cs[..k] + [Contribution(env, rule, me, x)] + cs[k..] &&
            cs[..k] + cs[k..] == cs
  {
  }

  /** Counting an extra contribution in the middle of a scan is the same as
      counting it at the end. */
  lemma InsertIntoScan(a: seq<Option<Vec>>, b: seq<Option<Vec>>, c: Option<Vec>)
    ensures Scan(a + [c] + b) == Count(Scan(a + b), c)
  {
    assert [c][..0] == [];
    ScanConcat(a, [c]);
    ScanConcat(a + [c], b);
    ScanConcat(a, b);
  }

  /** A rule none of whose boids qualifies leaves its accumulators at zero. */
  lemma {:induction false} TallyOfNoNeighbours(env: Env, rule: Rule, me: Vec, flock: seq<Kin>)
    requires env.Valid()
    requires forall i :: 0 <= i < |flock| ==> Contribution(env, rule, me, flock[i]).None?
    ensures NeighbourTally(env, rule, me, flock) == Tally(Zero, 0)
  {
    if |flock| > 0 {
      TallyOfNoNeighbours(env, rule, me, flock[..|flock| - 1]);
    }
  }

  /** Boids that are all at least the neighbourhood radius away produce no
      steering from any of the three rules. */
  lemma NoNeighboursNoSteering(env: Env, me: Kin, flock: seq<Kin>)
    requires env.Valid()
    requires forall i :: 0 <= i < |flock| ==> env.mag(Sub(me.position, flock[i].position)) >= env.radius
    ensures SeparateForce(env, me, flock) == Zero
    ensures AlignForce(env, me, flock) == Zero
    ensures CohereForce(env, me, flock) == Zero
  {
    TallyOfNoNeighbours(env, Separation, me.position, flock);
    TallyOfNoNeighbours(env, Alignment, me.position, flock);
    TallyOfNoNeighbours(env, Cohesion, me.position, flock);
  }

  /** Separation never counts the boid itself: adding it to the list, at
      any place, leaves the separation force as it was. */
  lemma SeparateIgnoresSelf(env: Env, me: Kin, flock: seq<Kin>, k: nat)
    requires env.Valid() && k <= |flock|
    ensures SeparateForce(env, me, flock[..k] + [me] + flock[k..]) == SeparateForce(env, me, flock)
  {
    assert Sub(me.position, me.position) == Zero;
    TallyInsert(env, Separation, me.position, flock, k, me);
  }

  /** Alignment and cohesion do count the boid itself: with no other boid
      in range, cohesion steers by minus the velocity and alignment by full
      speed along the velocity minus the velocity, both clamped; separation
      gives zero. */
  lemma AloneButSelf(env: Env, me: Kin, flock: seq<Kin>, k: nat)
    requires env.Valid() && k <= |flock|
    requires forall i :: 0 <= i < |flock| ==> env.mag(Sub(me.position, flock[i].position)) >= env.radius
    ensures var withSelf := flock[..k] + [me] + flock[k..];
            SeparateForce(env, me, withSelf) == Zero &&
            AlignForce(env, me, withSelf) ==
              ClampMagnitude(env.mag, Sub(Scale(Normalize(env.mag, me.velocity), env.maxSpeed), me.velocity), env.maxForce) &&
            CohereForce(env, me, withSelf) == ClampMagnitude(env.mag, Sub(Zero, me.velocity), env.maxForce)
  {
    assert Sub(me.position, me.position) == Zero;
    NoNeighboursNoSteering(env, me, flock);
    SeparateIgnoresSelf(env, me, flock, k);
    TallyOfNoNeighbours(env, Alignment, me.position, flock);
    TallyOfNoNeighbours(env, Cohesion, me.position, flock);
    TallyInsert(env, Alignment, me.position, flock, k, me);
    TallyInsert(env, Cohesion, me.position, flock, k, me);
    assert Div(Add(Zero, me.velocity), 1.0) == me.velocity;
    assert Sub(Div(Add(Zero, me.position), 1.0), me.position) == Zero;
    assert Scale(Zero, env.maxSpeed) == Zero;
  }

  /** When the boid itself is its only neighbour, cohesion is zero exactly
      for a boid at rest, and alignment is zero exactly for a boid at rest
      or already at full speed. */
  lemma AloneButSelfSteersUnlessSettled(env: Env, me: Kin, flock: seq<Kin>, k: nat)
    requires env.Valid() && k <= |flock|
    requires forall i :: 0 <= i < |flock| ==> env.mag(Sub(me.position, flock[i].position)) >= env.radius
    ensures var withSelf := flock[..k] + [me] + flock[k..];
            (CohereForce(env, me, withSelf) == Zero <==> me.velocity == Zero) &&
            (AlignForce(env, me, withSelf) == Zero <==> me.velocity == Zero || env.mag(me.velocity) == env.maxSpeed)
  {
    AloneButSelf(env, me, flock, k);
    var towardsSpeed := Sub(Scale(Normalize(env.mag, me.velocity), env.maxSpeed), me.velocity);
    ClampIsZeroIff(env.mag, towardsSpeed, env.maxForce);
    ClampIsZeroIff(env.mag, Sub(Zero, me.velocity), env.maxForce);
    FullSpeedIff(env.mag, me.velocity, env.maxSpeed);
    assert Sub(Zero, me.velocity) == Zero <==> me.velocity == Zero;
  }

  /** Clamping to a positive limit yields zero exactly for the zero vector. */
  lemma ClampIsZeroIff(mag: Vec -> real, v: Vec, limit: real)
    requires IsMagnitude(mag) && limit > 0.0
    ensures ClampMagnitude(mag, v, limit) == Zero <==> v == Zero
  {
    var r := ClampMagnitude(mag, v, limit);
    if v == Zero {
      assert mag(v) == 0.0;
    } else if mag(v) > limit {
      assert mag(r) == limit;
      assert mag(Zero) == 0.0;
    }
  }

  /** Full speed along v minus v is zero exactly when v is zero or already
      has magnitude s. */
  lemma FullSpeedIff(mag: Vec -> real, v: Vec, s: real)
    requires IsMagnitude(mag) && s > 0.0
    ensures Sub(Scale(Normalize(mag, v), s), v) == Zero <==> v == Zero || mag(v) == s
  {
    var n := Normalize(mag, v);
    if v == Zero {
      assert Scale(n, s) == Zero;
    } else {
      var m := mag(v);
      if m == s {
        var f := 1.0 / m;
        assert f * s == 1.0;
        assert Scale(n, s) == Vec(v.x * f * s, v.y * f * s, v.z * f * s);
        assert v.x * f * s == v.x * (f * s);
        assert v.y * f * s == v.y * (f * s);
        assert v.z * f * s == v.z * (f * s);
      }
      if Sub(Scale(n, s), v) == Zero {
        assert Scale(n, s) == v;
        ScaledUnitMagnitude(mag, v, s);
      }
    }
  }

  /** One axis of Boid.edges: below the range wraps to the upper limit,
      above it to the lower limit; values on a limit stay. */
  function WrapAxis(low: real, high: real, c: real): (r: real)
    ensures low <= c <= high ==> r == c
    ensures c < low ==> r == high
    ensures low <= c && c > high ==> r == low
    ensures low <= high ==> low <= r <= high
  {
    if c < low then high else if c > high then low else c
  }

  predicate InBounds(env: Env, p: Vec)
  {
    env.negativeLimit <= p.x <= env.positiveLimit &&
    env.negativeLimit <= p.y <= env.positiveLimit &&
    env.negativeLimit <= p.z <= env.positiveLimit
  }

  class Boid {
    var position: Vec
    var velocity: Vec
    var acceleration: Vec
    var parameters: Params

    /** The random starting position and velocity are given by the caller. */
    constructor (position: Vec, velocity: Vec, parameters: Option<Params>)
      ensures this.position == position && this.velocity == velocity
      ensures acceleration == Zero
      ensures this.parameters == if parameters.Some? then parameters.value else Default
    {
      this.position := position;
      this.velocity := velocity;
      acceleration := Zero;
      this.parameters := if parameters.Some? then parameters.value else Default;
    }

    function Kinematics(): Kin
      reads this
    {
      Kin(position, velocity)
    }

    method ApplyForce(force: Vec)
      modifies this`acceleration
      ensures acceleration == Add(old(acceleration), force)
    {
      acceleration := Add(acceleration, force);
    }

    method Update(env: Env)
      requires env.Valid()
      modifies this`velocity, this`position, this`acceleration
      ensures velocity == ClampMagnitude(env.mag, Add(old(velocity), old(acceleration)), env.maxSpeed)
      ensures env.mag(velocity) <= env.maxSpeed
      ensures position == Add(old(position), velocity)
      ensures acceleration == Zero
    {
      velocity := Add(velocity, acceleration);
      if env.mag(velocity) > env.maxSpeed {
        velocity := Scale(Normalize(env.mag, velocity), env.maxSpeed);
      }
      position := Add(position, velocity);
      acceleration := Zero;
    }

    method Edges(env: Env)
      modifies this`position
      ensures position == Vec(WrapAxis(env.negativeLimit, env.positiveLimit, old(position.x)),
                              WrapAxis(env.negativeLimit, env.positiveLimit, old(position.y)),
                              WrapAxis(env.negativeLimit, env.positiveLimit, old(position.z)))
      ensures env.negativeLimit <= env.positiveLimit ==> InBounds(env, position)
    {
      if position.x < env.negativeLimit { position := position.(x := env.positiveLimit); }
      if position.x > env.positiveLimit { position := position.(x := env.negativeLimit); }

      if position.y < env.negativeLimit { position := position.(y := env.positiveLimit); }
      if position.y > env.positiveLimit { position := position.(y := env.negativeLimit); }

      if position.z < env.negativeLimit { position := position.(z := env.positiveLimit); }
      if position.z > env.positiveLimit { position := position.(z := env.negativeLimit); }
    }

    method Flock(boids: seq<Boid>, env: Env)
      requires env.Valid()
      modifies this`acceleration
      ensures acceleration ==
        Add(Add(Add(old(acceleration),
                    Scale(SeparateForce(env, old(Kinematics()), old(Snapshot(boids))), parameters.separationWeight)),
                Scale(AlignForce(env, old(Kinematics()), old(Snapshot(boids))), parameters.alignmentWeight)),
            Scale(CohereForce(env, old(Kinematics()), old(Snapshot(boids))), parameters.cohesionWeight))
      ensures position == old(position) && velocity == old(velocity)
    {
      var separation := Separate(boids, env);
      var alignment := Align(boids, env);
      var cohesion := Cohere(boids, env);

      ApplyForce(Scale(separation, parameters.separationWeight));
      ApplyForce(Scale(alignment, parameters.alignmentWeight));
      ApplyForce(Scale(cohesion, parameters.cohesionWeight));
    }

    method Separate(boids: seq<Boid>, env: Env) returns (steering: Vec)
      requires env.Valid()
      ensures steering == SeparateForce(env, Kinematics(), Snapshot(boids))
    {
      ghost var flock := Snapshot(boids);
      steering := Zero;
      var total := 0;
      for i := 0 to |boids|
        invariant Tally(steering, total) == NeighbourTally(env, Separation, position, flock[..i])
      {
        assert flock[..i + 1][..i] == flock[..i];
        var bird := boids[i];
        var distance := env.mag(Sub(position, bird.position));
        if env.radius > distance > 0.0 {
          var diff := Div(Normalize(env.mag, Sub(position, bird.position)), distance);
          steering := Add(steering, diff);
          total := total + 1;
        }
      }
      assert flock[..|boids|] == flock;

      if total > 0 {
        steering := Div(steering, total as real);
      }

      if env.mag(steering) > 0.0 {
        steering := Scale(Normalize(env.mag, steering), env.maxSpeed);
        steering := Sub(steering, velocity);

        if env.mag(steering) > env.maxForce {
          steering := Scale(Normalize(env.mag, steering), env.maxForce);
        }
      }
    }

    method Align(boids: seq<Boid>, env: Env) returns (steering: Vec)
      requires env.Valid()
      ensures steering == AlignForce(env, Kinematics(), Snapshot(boids))
    {
      ghost var flock := Snapshot(boids);
      steering := Zero;
      var total := 0;
      for i := 0 to |boids|
        invariant Tally(steering, total) == NeighbourTally(env, Alignment, position, flock[..i])
      {
        assert flock[..i + 1][..i] == flock[..i];
        var bird := boids[i];
        var distance := env.mag(Sub(position, bird.position));
        if distance < env.radius {
          steering := Add(steering, bird.velocity);
          total := total + 1;
        }
      }
      assert flock[..|boids|] == flock;

      if total > 0 {
        steering := Div(steering, total as real);
        steering := Scale(Normalize(env.mag, steering), env.maxSpeed);
        steering := Sub(steering, velocity);

        if env.mag(steering) > env.maxForce {
          steering := Scale(Normalize(env.mag, steering), env.maxForce);
        }
      }
    }

    method Cohere(boids: seq<Boid>, env: Env) returns (steering: Vec)
      requires env.Valid()
      ensures steering == CohereForce(env, Kinematics(), Snapshot(boids))
    {
      ghost var flock := Snapshot(boids);
      steering := Zero;
      var total := 0;
      for i := 0 to |boids|
        invariant Tally(steering, total) == NeighbourTally(env, Cohesion, position, flock[..i])
      {
        assert flock[..i + 1][..i] == flock[..i];
        var bird := boids[i];
        var distance := env.mag(Sub(position, bird.position));
        if distance < env.radius {
          steering := Add(steering, bird.position);
          total := total + 1;
        }
      }
      assert flock[..|boids|] == flock;

      if total > 0 {
        steering := Div(steering, total as real);
        steering := Sub(steering, position);
        steering := Scale(Normalize(env.mag, steering), env.maxSpeed);
        steering := Sub(steering, velocity);

        if env.mag(steering) > env.maxForce {
          steering := Scale(Normalize(env.mag, steering), env.maxForce);
        }
      }
    }
  }

  /** The positions and velocities of a list of boids, in list order. */
  function Snapshot(boids: seq<Boid>): (flock: seq<Kin>)
    reads boids
    ensures |flock| == |boids|
    ensures forall i :: 0 <= i < |boids| ==> flock[i] == boids[i].Kinematics()
  {
    seq(|boids|, i requires 0 <= i < |boids| reads boids => boids[i].Kinematics())
  }
}
