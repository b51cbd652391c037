/** Exact-real model of the vec3 and quat values a Frame is built from.
    A quaternion stores its vector part in x, y, z and its scalar part in w;
    a unit quaternion represents a rotation. */
module Geometry {

  datatype Vec3 = Vec3(x: real, y: real, z: real)

  const Zero := Vec3(0.0, 0.0, 0.0)

  function Add(a: Vec3, b: Vec3): Vec3 { Vec3(a.x + b.x, a.y + b.y, a.z + b.z) }

  function Sub(a: Vec3, b: Vec3): Vec3 { Vec3(a.x - b.x, a.y - b.y, a.z - b.z) }

  function Neg(a: Vec3): Vec3 { Vec3(-a.x, -a.y, -a.z) }

  /** Squared Euclidean length. */
  function SqNorm(v: Vec3): real { v.x * v.x + v.y * v.y + v.z * v.z }

  datatype Quat = Quat(x: real, y: real, z: real, w: real)

  /** The null rotation, quat() in the source. */
  const Identity := Quat(0.0, 0.0, 0.0, 1.0)

  /** Hamilton product: rotating by Mul(a, b) is rotating by b, then by a. */
  function Mul(a: Quat, b: Quat): Quat {
    Quat(a.w * b.x + b.w * a.x + a.y * b.z - a.z * b.y,
         a.w * b.y + b.w * a.y + a.z * b.x - a.x * b.z,
         a.w * b.z + b.w * a.z + a.x * b.y - a.y * b.x,
         a.w * b.w - b.x * a.x - a.y * b.y - a.z * b.z)
  }

  /** quat::inverse(): the conjugate, which is the inverse of a unit quaternion. */
  function Inverse(q: Quat): Quat { Quat(-q.x, -q.y, -q.z, q.w) }

  function QSqNorm(q: Quat): real { q.x * q.x + q.y * q.y + q.z * q.z + q.w * q.w }

  predicate IsUnit(q: Quat) { QSqNorm(q) == 1.0 }

  /** The quaternion (v, 0) that a vector is embedded as. */
  function Pure(v: Vec3): Quat { Quat(v.x, v.y, v.z, 0.0) }

  function VecOf(q: Quat): Vec3 { Vec3(q.x, q.y, q.z) }

  /** quat::rotate(v): the vector part of q (v, 0) q^-1. For a unit q this is the
      rotation matrix of q applied to v. */
  function Rotate(q: Quat, v: Vec3): Vec3 { VecOf(Mul(Mul(q, Pure(v)), Inverse(q))) }

  /** quat::inverse_rotate(v): rotation by the inverse of q. */
  function InverseRotate(q: Quat, v: Vec3): Vec3 { Rotate(Inverse(q), v) }
}
