/**
 Vectors, boxes and rigid transforms of the 3D engine. Coordinates are exact
 reals (the engine's 32-bit floats are not modelled), and the engine's
 quaternion algebra is replaced by a free term algebra: two rotations are equal
 only when they were built by the same compositions, so nothing here depends
 on what a quaternion product actually computes.
 */
module Geometry {

  /** The three coordinate axes; the bounding-box editor calls them width (X),
      height (Y) and depth (Z). */
  datatype Axis = X | Y | Z

  /** One value per axis (SIMD3 in the engine). */
  datatype Triple<T> = Triple(x: T, y: T, z: T) {

    function Get(a: Axis): T {
      match a
      case X => x
      case Y => y
      case Z => z
    }

    /** The triple with axis `a` replaced by `v` and the other two kept. */
    function With(a: Axis, v: T): (r: Triple<T>)
      ensures r.Get(a) == v
      ensures forall b: Axis :: b != a ==> r.Get(b) == Get(b)
    {
      match a
      case X => this.(x := v)
      case Y => this.(y := v)
      case Z => this.(z := v)
    }
  }

  type Vec3 = Triple<real>

  const Origin: Vec3 := Triple(0.0, 0.0, 0.0)
  const Ones: Vec3 := Triple(1.0, 1.0, 1.0)

  /** Two triples that agree on every axis are equal. */
  lemma TripleExt<T>(u: Triple<T>, v: Triple<T>)
    requires forall a: Axis :: u.Get(a) == v.Get(a)
    ensures u == v
  {
    assert u.Get(X) == v.Get(X) && u.Get(Y) == v.Get(Y) && u.Get(Z) == v.Get(Z);
  }

  /** An axis-aligned box given by its centre and its extents (full sizes). */
  datatype Box = Box(center: Vec3, extents: Vec3)

  /** A rotation, as a term: the identity, a rotation by `angle` radians about
      one coordinate axis, or the product `lhs * rhs` of two rotations. */
  datatype Rotation =
    | Identity
    | AxisAngle(axis: Axis, angle: real)
    | Product(lhs: Rotation, rhs: Rotation)

  /** An entity's transform relative to its parent. */
  datatype Transform = Transform(scale: Vec3, rotation: Rotation, translation: Vec3)

  /** The identity transform: unit scale, no rotation, positioned at the origin. */
  const IdentityTransform: Transform := Transform(Ones, Identity, Origin)
}
