/** The quaternion and rotation facts the frame model relies on: the Hamilton
    product is associative, the conjugate inverts unit quaternions, rotation
    composes, is linear, keeps lengths, and is undone by inverse_rotate. */
module QuatAlgebra {
  import opened Geometry
  import opened Expansions

  lemma MulAssoc(a: Quat, b: Quat, c: Quat)
    ensures Mul(Mul(a, b), c) == Mul(a, Mul(b, c))
  {
    AssocLeft(a, b, c);
    AssocRight(a, b, c);
  }

  lemma MulIdentity(q: Quat)
    ensures Mul(q, Identity) == q && Mul(Identity, q) == q
  {
    IdentityRight(q);
    IdentityLeft(q);
  }

  /** q q^-1 and q^-1 q are the real quaternion |q|^2. */
  lemma MulInverse(q: Quat)
    ensures Mul(q, Inverse(q)) == Quat(0.0, 0.0, 0.0, QSqNorm(q))
    ensures Mul(Inverse(q), q) == Quat(0.0, 0.0, 0.0, QSqNorm(q))
  {
    ConjugateRight(q);
    ConjugateLeft(q);
    QSqNormParts(q);
  }

  /** For a unit quaternion the conjugate is a two-sided inverse. */
  lemma UnitMulInverse(q: Quat)
    requires IsUnit(q)
    ensures Mul(q, Inverse(q)) == Identity && Mul(Inverse(q), q) == Identity
  {
    MulInverse(q);
  }

  lemma InverseOfProduct(a: Quat, b: Quat)
    ensures Inverse(Mul(a, b)) == Mul(Inverse(b), Inverse(a))
  {
    InverseProductLeft(a, b);
    InverseProductRight(a, b);
  }

  /** The norm is multiplicative (Euler's four-square identity). */
  lemma NormOfProduct(a: Quat, b: Quat)
    ensures QSqNorm(Mul(a, b)) == QSqNorm(a) * QSqNorm(b)
  {
    NormProductLeft(a, b);
    NormProductRight(a, b);
  }

  lemma UnitProduct(a: Quat, b: Quat)
    requires IsUnit(a) && IsUnit(b)
    ensures IsUnit(Mul(a, b))
  {
    NormOfProduct(a, b);
  }

  lemma UnitInverse(q: Quat)
    ensures IsUnit(Inverse(q)) == IsUnit(q)
  {
  }

  /** The sandwich q (v, 0) q^-1 has no scalar part, so it is the embedding of
      the rotated vector. */
  lemma SandwichIsPure(q: Quat, v: Vec3)
    ensures Mul(Mul(q, Pure(v)), Inverse(q)) == Pure(Rotate(q, v))
  {
    Sandwich(q, v);
  }

  lemma RotateIdentity(v: Vec3)
    ensures Rotate(Identity, v) == v
  {
    RotateByIdentity(v);
  }

  /** Rotating by a product is rotating by its factors in turn; this holds for
      every pair of quaternions, unit or not. */
  lemma RotateMul(a: Quat, b: Quat, v: Vec3)
    ensures Rotate(Mul(a, b), v) == Rotate(a, Rotate(b, v))
  {
    var p := Pure(v);
    SandwichIsPure(b, v);
    InverseOfProduct(a, b);
    calc {
      Mul(Mul(Mul(a, b), p), Inverse(Mul(a, b)));
      Mul(Mul(Mul(a, b), p), Mul(Inverse(b), Inverse(a)));
      { MulAssoc(Mul(Mul(a, b), p), Inverse(b), Inverse(a)); }
      Mul(Mul(Mul(Mul(a, b), p), Inverse(b)), Inverse(a));
      { MulAssoc(a, b, p); }
      Mul(Mul(Mul(a, Mul(b, p)), Inverse(b)), Inverse(a));
      { MulAssoc(a, Mul(b, p), Inverse(b)); }
      Mul(Mul(a, Mul(Mul(b, p), Inverse(b))), Inverse(a));
      Mul(Mul(a, Pure(Rotate(b, v))), Inverse(a));
    }
  }

  /** inverse_rotate undoes rotate, and rotate undoes inverse_rotate. */
  lemma RotateRoundTrip(q: Quat, v: Vec3)
    requires IsUnit(q)
    ensures InverseRotate(q, Rotate(q, v)) == v
    ensures Rotate(q, InverseRotate(q, v)) == v
  {
    UnitMulInverse(q);
    RotateMul(Inverse(q), q, v);
    RotateMul(q, Inverse(q), v);
    RotateIdentity(v);
  }

  /** A rotation by a unit quaternion keeps the length of every vector. */
  lemma RotateLength(q: Quat, v: Vec3)
    requires IsUnit(q)
    ensures SqNorm(Rotate(q, v)) == SqNorm(v)
    ensures SqNorm(InverseRotate(q, v)) == SqNorm(v)
  {
    UnitInverse(q);
    SandwichLength(q, v);
    SandwichLength(Inverse(q), v);
  }

  lemma SandwichLength(q: Quat, v: Vec3)
    requires IsUnit(q)
    ensures SqNorm(Rotate(q, v)) == SqNorm(v)
  {
    var p := Mul(q, Pure(v));
    NormOfProduct(q, Pure(v));
    NormOfProduct(p, Inverse(q));
    SandwichIsPure(q, v);
    UnitInverse(q);
    PureNorm(v);
    PureNorm(Rotate(q, v));
    QSqNormParts(Pure(v));
    assert QSqNorm(p) == QSqNorm(Pure(v));
    calc {
      QSqNorm(Pure(Rotate(q, v)));
      QSqNorm(Mul(p, Inverse(q)));
      QSqNorm(p) * QSqNorm(Inverse(q));
      QSqNorm(Pure(v));
    }
  }

  lemma RotateAdd(q: Quat, u: Vec3, v: Vec3)
    ensures Rotate(q, Add(u, v)) == Add(Rotate(q, u), Rotate(q, v))
  {
    RotateSumLeft(q, u, v);
    RotateSumRight(q, u, v);
  }

  lemma RotateNeg(q: Quat, v: Vec3)
    ensures Rotate(q, Neg(v)) == Neg(Rotate(q, v))
  {
    RotateNegLeft(q, v);
    RotateNegRight(q, v);
  }

  lemma RotateZero(q: Quat)
    ensures Rotate(q, Zero) == Zero
  {
    RotateOfZero(q);
  }
}
