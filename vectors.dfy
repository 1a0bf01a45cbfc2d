/** Three-component real vectors, as the flock uses them, and the magnitude,
    normalisation and clamping operations built on an abstract magnitude. */
module Vectors {

  datatype Vec = Vec(x: real, y: real, z: real)

  const Zero: Vec := Vec(0.0, 0.0, 0.0)

  function Add(a: Vec, b: Vec): Vec { Vec(a.x + b.x, a.y + b.y, a.z + b.z) }

  function Sub(a: Vec, b: Vec): Vec { Vec(a.x - b.x, a.y - b.y, a.z - b.z) }

  function Scale(v: Vec, s: real): Vec { Vec(v.x * s, v.y * s, v.z * s) }

  function Div(v: Vec, s: real): Vec
    requires s != 0.0
  {
    Vec(v.x / s, v.y / s, v.z / s)
  }

  /** The laws the Euclidean magnitude obeys and that the model relies on:
      it is never negative, it is zero exactly for the zero vector, and
      scaling by a non-negative factor scales it by that factor. */
  ghost predicate IsMagnitude(mag: Vec -> real)
  {
    (forall v :: mag(v) >= 0.0) &&
    (forall v :: mag(v) == 0.0 <==> v == Zero) &&
    (forall v, s :: s >= 0.0 ==> mag(Scale(v, s)) == s * mag(v))
  }

  lemma DivIsScale(v: Vec, s: real)
    requires s != 0.0
    ensures Div(v, s) == Scale(v, 1.0 / s)
  {
  }

  /** Boid._normalize (and vpython's norm): the zero vector stays zero, any
      other vector is divided by its magnitude, which gives a unit vector
      pointing the same way. */
  function Normalize(mag: Vec -> real, v: Vec): (r: Vec)
    requires IsMagnitude(mag)
    ensures v == Zero ==> r == Zero
    ensures v != Zero ==> mag(v) > 0.0 && r == Scale(v, 1.0 / mag(v)) && mag(r) == 1.0
  {
    var m := mag(v);
    if m > 0.0 then
      DivIsScale(v, m);
      Div(v, m)
    else
      Zero
  }

  /** Scaling a normalised non-zero vector by s gives a vector of magnitude s. */
  lemma ScaledUnitMagnitude(mag: Vec -> real, v: Vec, s: real)
    requires IsMagnitude(mag) && v != Zero && s >= 0.0
    ensures mag(Scale(Normalize(mag, v), s)) == s
  {
    var n := Normalize(mag, v);
    assert mag(Scale(n, s)) == s * mag(n);
  }

  /** The clamp used for the speed limit and for every steering force: a
      vector longer than `limit` is replaced by the vector of length `limit`
      pointing the same way; any other vector is kept. */
  function ClampMagnitude(mag: Vec -> real, v: Vec, limit: real): (r: Vec)
    requires IsMagnitude(mag) && limit >= 0.0
    ensures mag(r) <= limit
    ensures mag(v) <= limit ==> r == v
    ensures mag(v) > limit ==> mag(r) == limit && r == Scale(v, limit / mag(v))
  {
    if mag(v) > limit then
      ScaledUnitMagnitude(mag, v, limit);
      Scale(Normalize(mag, v), limit)
    else
      v
  }
}
