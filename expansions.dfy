/** Component-wise expansions of quaternion and vector expressions.

    Each `...Parts` lemma unfolds one operation of Geometry into the polynomial
    of its definition. Each `...Step...` lemma is a closed polynomial identity:
    given the components of the operands as polynomials in the atoms, one
    component of the result equals a polynomial in the atoms, written in a
    fixed canonical form (monomials sorted, factors sorted). Each remaining
    lemma chains these steps to state every component of a nested expression in
    that canonical form, so two expressions are equal exactly when their
    canonical forms agree. The algebra in QuatAlgebra is built on them. */
module Expansions {
  import opened Geometry

  lemma MulParts(a: Quat, b: Quat)
    ensures Mul(a, b).x == a.w * b.x + b.w * a.x + a.y * b.z - a.z * b.y
    ensures Mul(a, b).y == a.w * b.y + b.w * a.y + a.z * b.x - a.x * b.z
    ensures Mul(a, b).z == a.w * b.z + b.w * a.z + a.x * b.y - a.y * b.x
    ensures Mul(a, b).w == a.w * b.w - b.x * a.x - a.y * b.y - a.z * b.z
  {
  }

  lemma AssocLeftArg0StepX(a: Quat, b: Quat)
    ensures a.w * b.x + b.w * a.x + a.y * b.z - a.z * b.y
         == a.w * b.x + a.x * b.w + a.y * b.z - a.z * b.y
  {
  }

  lemma AssocLeftArg0StepY(a: Quat, b: Quat)
    ensures a.w * b.y + b.w * a.y + a.z * b.x - a.x * b.z
         == a.w * b.y - a.x * b.z + a.y * b.w + a.z * b.x
  {
  }

  lemma AssocLeftArg0StepZ(a: Quat, b: Quat)
    ensures a.w * b.z + b.w * a.z + a.x * b.y - a.y * b.x
         == a.w * b.z + a.x * b.y - a.y * b.x + a.z * b.w
  {
  }

  lemma AssocLeftArg0StepW(a: Quat, b: Quat)
    ensures a.w * b.w - b.x * a.x - a.y * b.y - a.z * b.z
         == a.w * b.w - a.x * b.x - a.y * b.y - a.z * b.z
  {
  }

  lemma AssocLeftArg0(a: Quat, b: Quat)
    ensures Mul(a, b).x
         == a.w * b.x + a.x * b.w + a.y * b.z - a.z * b.y
    ensures Mul(a, b).y
         == a.w * b.y - a.x * b.z + a.y * b.w + a.z * b.x
    ensures Mul(a, b).z
         == a.w * b.z + a.x * b.y - a.y * b.x + a.z * b.w
    ensures Mul(a, b).w
         == a.w * b.w - a.x * b.x - a.y * b.y - a.z * b.z
  {
    MulParts(a, b);
    AssocLeftArg0StepX(a, b);
    AssocLeftArg0StepY(a, b);
    AssocLeftArg0StepZ(a, b);
    AssocLeftArg0StepW(a, b);
  }

  lemma AssocLeftStepX(a: Quat, b: Quat, c: Quat, s0: Quat)
    requires s0.x == a.w * b.x + a.x * b.w + a.y * b.z - a.z * b.y
    requires s0.y == a.w * b.y - a.x * b.z + a.y * b.w + a.z * b.x
    requires s0.z == a.w * b.z + a.x * b.y - a.y * b.x + a.z * b.w
    requires s0.w == a.w * b.w - a.x * b.x - a.y * b.y - a.z * b.z
    ensures s0.w * c.x + c.w * s0.x + s0.y * c.z - s0.z * c.y
         == a.w * b.w * c.x + a.w * b.x * c.w + a.w * b.y * c.z - a.w * b.z * c.y + a.x * b.w * c.w - a.x * b.x * c.x - a.x * b.y * c.y - a.x * b.z * c.z + a.y * b.w * c.z + a.y * b.x * c.y - a.y * b.y * c.x + a.y * b.z * c.w - a.z * b.w * c.y + a.z * b.x * c.z - a.z * b.y * c.w - a.z * b.z * c.x
  {
  }

  lemma AssocLeftStepY(a: Quat, b: Quat, c: Quat, s0: Quat)
    requires s0.x == a.w * b.x + a.x * b.w + a.y * b.z - a.z * b.y
    requires s0.y == a.w * b.y - a.x * b.z + a.y * b.w + a.z * b.x
    requires s0.z == a.w * b.z + a.x * b.y - a.y * b.x + a.z * b.w
    requires s0.w == a.w * b.w - a.x * b.x - a.y * b.y - a.z * b.z
    ensures s0.w * c.y + c.w * s0.y + s0.z * c.x - s0.x * c.z
         == a.w * b.w * c.y - a.w * b.x * c.z + a.w * b.y * c.w + a.w * b.z * c.x - a.x * b.w * c.z - a.x * b.x * c.y + a.x * b.y * c.x - a.x * b.z * c.w + a.y * b.w * c.w - a.y * b.x * c.x - a.y * b.y * c.y - a.y * b.z * c.z + a.z * b.w * c.x + a.z * b.x * c.w + a.z * b.y * c.z - a.z * b.z * c.y
  {
  }

  lemma AssocLeftStepZ(a: Quat, b: Quat, c: Quat, s0: Quat)
    requires s0.x == a.w * b.x + a.x * b.w + a.y * b.z - a.z * b.y
    requires s0.y == a.w * b.y - a.x * b.z + a.y * b.w + a.z * b.x
    requires s0.z == a.w * b.z + a.x * b.y - a.y * b.x + a.z * b.w
    requires s0.w == a.w * b.w - a.x * b.x - a.y * b.y - a.z * b.z
    ensures s0.w * c.z + c.w * s0.z + s0.x * c.y - s0.y * c.x
         == a.w * b.w * c.z + a.w * b.x * c.y - a.w * b.y * c.x + a.w * b.z * c.w + a.x * b.w * c.y - a.x * b.x * c.z + a.x * b.y * c.w + a.x * b.z * c.x - a.y * b.w * c.x - a.y * b.x * c.w - a.y * b.y * c.z + a.y * b.z * c.y + a.z * b.w * c.w - a.z * b.x * c.x - a.z * b.y * c.y - a.z * b.z * c.z
  {
  }

  lemma AssocLeftStepW(a: Quat, b: Quat, c: Quat, s0: Quat)
    requires s0.x == a.w * b.x + a.x * b.w + a.y * b.z - a.z * b.y
    requires s0.y == a.w * b.y - a.x * b.z + a.y * b.w + a.z * b.x
    requires s0.z == a.w * b.z + a.x * b.y - a.y * b.x + a.z * b.w
    requires s0.w == a.w * b.w - a.x * b.x - a.y * b.y - a.z * b.z
    ensures s0.w * c.w - c.x * s0.x - s0.y * c.y - s0.z * c.z
         == a.w * b.w * c.w - a.w * b.x * c.x - a.w * b.y * c.y - a.w * b.z * c.z - a.x * b.w * c.x - a.x * b.x * c.w - a.x * b.y * c.z + a.x * b.z * c.y - a.y * b.w * c.y + a.y * b.x * c.z - a.y * b.y * c.w - a.y * b.z * c.x - a.z * b.w * c.z - a.z * b.x * c.y + a.z * b.y * c.x - a.z * b.z * c.w
  {
  }

  lemma AssocLeft(a: Quat, b: Quat, c: Quat)
    ensures Mul(Mul(a, b), c).x
         == a.w * b.w * c.x + a.w * b.x * c.w + a.w * b.y * c.z - a.w * b.z * c.y + a.x * b.w * c.w - a.x * b.x * c.x - a.x * b.y * c.y - a.x * b.z * c.z + a.y * b.w * c.z + a.y * b.x * c.y - a.y * b.y * c.x + a.y * b.z * c.w - a.z * b.w * c.y + a.z * b.x * c.z - a.z * b.y * c.w - a.z * b.z * c.x
    ensures Mul(Mul(a, b), c).y
         == a.w * b.w * c.y - a.w * b.x * c.z + a.w * b.y * c.w + a.w * b.z * c.x - a.x * b.w * c.z - a.x * b.x * c.y + a.x * b.y * c.x - a.x * b.z * c.w + a.y * b.w * c.w - a.y * b.x * c.x - a.y * b.y * c.y - a.y * b.z * c.z + a.z * b.w * c.x + a.z * b.x * c.w + a.z * b.y * c.z - a.z * b.z * c.y
    ensures Mul(Mul(a, b), c).z
         == a.w * b.w * c.z + a.w * b.x * c.y - a.w * b.y * c.x + a.w * b.z * c.w + a.x * b.w * c.y - a.x * b.x * c.z + a.x * b.y * c.w + a.x * b.z * c.x - a.y * b.w * c.x - a.y * b.x * c.w - a.y * b.y * c.z + a.y * b.z * c.y + a.z * b.w * c.w - a.z * b.x * c.x - a.z * b.y * c.y - a.z * b.z * c.z
    ensures Mul(Mul(a, b), c).w
         == a.w * b.w * c.w - a.w * b.x * c.x - a.w * b.y * c.y - a.w * b.z * c.z - a.x * b.w * c.x - a.x * b.x * c.w - a.x * b.y * c.z + a.x * b.z * c.y - a.y * b.w * c.y + a.y * b.x * c.z - a.y * b.y * c.w - a.y * b.z * c.x - a.z * b.w * c.z - a.z * b.x * c.y + a.z * b.y * c.x - a.z * b.z * c.w
  {
    AssocLeftArg0(a, b);
    var s0 := Mul(a, b);
    MulParts(s0, c);
    AssocLeftStepX(a, b, c, s0);
    AssocLeftStepY(a, b, c, s0);
    AssocLeftStepZ(a, b, c, s0);
    AssocLeftStepW(a, b, c, s0);
  }

  lemma AssocRightArg1StepX(b: Quat, c: Quat)
    ensures b.w * c.x + c.w * b.x + b.y * c.z - b.z * c.y
         == b.w * c.x + b.x * c.w + b.y * c.z - b.z * c.y
  {
  }

  lemma AssocRightArg1StepY(b: Quat, c: Quat)
    ensures b.w * c.y + c.w * b.y + b.z * c.x - b.x * c.z
         == b.w * c.y - b.x * c.z + b.y * c.w + b.z * c.x
  {
  }

  lemma AssocRightArg1StepZ(b: Quat, c: Quat)
    ensures b.w * c.z + c.w * b.z + b.x * c.y - b.y * c.x
         == b.w * c.z + b.x * c.y - b.y * c.x + b.z * c.w
  {
  }

  lemma AssocRightArg1StepW(b: Quat, c: Quat)
    ensures b.w * c.w - c.x * b.x - b.y * c.y - b.z * c.z
         == b.w * c.w - b.x * c.x - b.y * c.y - b.z * c.z
  {
  }

  lemma AssocRightArg1(b: Quat, c: Quat)
    ensures Mul(b, c).x
         == b.w * c.x + b.x * c.w + b.y * c.z - b.z * c.y
    ensures Mul(b, c).y
         == b.w * c.y - b.x * c.z + b.y * c.w + b.z * c.x
    ensures Mul(b, c).z
         == b.w * c.z + b.x * c.y - b.y * c.x + b.z * c.w
    ensures Mul(b, c).w
         == b.w * c.w - b.x * c.x - b.y * c.y - b.z * c.z
  {
    MulParts(b, c);
    AssocRightArg1StepX(b, c);
    AssocRightArg1StepY(b, c);
    AssocRightArg1StepZ(b, c);
    AssocRightArg1StepW(b, c);
  }

  lemma AssocRightStepX(a: Quat, b: Quat, c: Quat, s1: Quat)
    requires s1.x == b.w * c.x + b.x * c.w + b.y * c.z - b.z * c.y
    requires s1.y == b.w * c.y - b.x * c.z + b.y * c.w + b.z * c.x
    requires s1.z == b.w * c.z + b.x * c.y - b.y * c.x + b.z * c.w
    requires s1.w == b.w * c.w - b.x * c.x - b.y * c.y - b.z * c.z
    ensures a.w * s1.x + s1.w * a.x + a.y * s1.z - a.z * s1.y
         == a.w * b.w * c.x + a.w * b.x * c.w + a.w * b.y * c.z - a.w * b.z * c.y + a.x * b.w * c.w - a.x * b.x * c.x - a.x * b.y * c.y - a.x * b.z * c.z + a.y * b.w * c.z + a.y * b.x * c.y - a.y * b.y * c.x + a.y * b.z * c.w - a.z * b.w * c.y + a.z * b.x * c.z - a.z * b.y * c.w - a.z * b.z * c.x
  {
  }

  lemma AssocRightStepY(a: Quat, b: Quat, c: Quat, s1: Quat)
    requires s1.x == b.w * c.x + b.x * c.w + b.y * c.z - b.z * c.y
    requires s1.y == b.w * c.y - b.x * c.z + b.y * c.w + b.z * c.x
    requires s1.z == b.w * c.z + b.x * c.y - b.y * c.x + b.z * c.w
    requires s1.w == b.w * c.w - b.x * c.x - b.y * c.y - b.z * c.z
    ensures a.w * s1.y + s1.w * a.y + a.z * s1.x - a.x * s1.z
         == a.w * b.w * c.y - a.w * b.x * c.z + a.w * b.y * c.w + a.w * b.z * c.x - a.x * b.w * c.z - a.x * b.x * c.y + a.x * b.y * c.x - a.x * b.z * c.w + a.y * b.w * c.w - a.y * b.x * c.x - a.y * b.y * c.y - a.y * b.z * c.z + a.z * b.w * c.x + a.z * b.x * c.w + a.z * b.y * c.z - a.z * b.z * c.y
  {
  }

  lemma AssocRightStepZ(a: Quat, b: Quat, c: Quat, s1: Quat)
    requires s1.x == b.w * c.x + b.x * c.w + b.y * c.z - b.z * c.y
    requires s1.y == b.w * c.y - b.x * c.z + b.y * c.w + b.z * c.x
    requires s1.z == b.w * c.z + b.x * c.y - b.y * c.x + b.z * c.w
    requires s1.w == b.w * c.w - b.x * c.x - b.y * c.y - b.z * c.z
    ensures a.w * s1.z + s1.w * a.z + a.x * s1.y - a.y * s1.x
         == a.w * b.w * c.z + a.w * b.x * c.y - a.w * b.y * c.x + a.w * b.z * c.w + a.x * b.w * c.y - a.x * b.x * c.z + a.x * b.y * c.w + a.x * b.z * c.x - a.y * b.w * c.x - a.y * b.x * c.w - a.y * b.y * c.z + a.y * b.z * c.y + a.z * b.w * c.w - a.z * b.x * c.x - a.z * b.y * c.y - a.z * b.z * c.z
  {
  }

  lemma AssocRightStepW(a: Quat, b: Quat, c: Quat, s1: Quat)
    requires s1.x == b.w * c.x + b.x * c.w + b.y * c.z - b.z * c.y
    requires s1.y == b.w * c.y - b.x * c.z + b.y * c.w + b.z * c.x
    requires s1.z == b.w * c.z + b.x * c.y - b.y * c.x + b.z * c.w
    requires s1.w == b.w * c.w - b.x * c.x - b.y * c.y - b.z * c.z
    ensures a.w * s1.w - s1.x * a.x - a.y * s1.y - a.z * s1.z
         == a.w * b.w * c.w - a.w * b.x * c.x - a.w * b.y * c.y - a.w * b.z * c.z - a.x * b.w * c.x - a.x * b.x * c.w - a.x * b.y * c.z + a.x * b.z * c.y - a.y * b.w * c.y + a.y * b.x * c.z - a.y * b.y * c.w - a.y * b.z * c.x - a.z * b.w * c.z - a.z * b.x * c.y + a.z * b.y * c.x - a.z * b.z * c.w
  {
  }

  lemma AssocRight(a: Quat, b: Quat, c: Quat)
    ensures Mul(a, Mul(b, c)).x
         == a.w * b.w * c.x + a.w * b.x * c.w + a.w * b.y * c.z - a.w * b.z * c.y + a.x * b.w * c.w - a.x * b.x * c.x - a.x * b.y * c.y - a.x * b.z * c.z + a.y * b.w * c.z + a.y * b.x * c.y - a.y * b.y * c.x + a.y * b.z * c.w - a.z * b.w * c.y + a.z * b.x * c.z - a.z * b.y * c.w - a.z * b.z * c.x
    ensures Mul(a, Mul(b, c)).y
         == a.w * b.w * c.y - a.w * b.x * c.z + a.w * b.y * c.w + a.w * b.z * c.x - a.x * b.w * c.z - a.x * b.x * c.y + a.x * b.y * c.x - a.x * b.z * c.w + a.y * b.w * c.w - a.y * b.x * c.x - a.y * b.y * c.y - a.y * b.z * c.z + a.z * b.w * c.x + a.z * b.x * c.w + a.z * b.y * c.z - a.z * b.z * c.y
    ensures Mul(a, Mul(b, c)).z
         == a.w * b.w * c.z + a.w * b.x * c.y - a.w * b.y * c.x + a.w * b.z * c.w + a.x * b.w * c.y - a.x * b.x * c.z + a.x * b.y * c.w + a.x * b.z * c.x - a.y * b.w * c.x - a.y * b.x * c.w - a.y * b.y * c.z + a.y * b.z * c.y + a.z * b.w * c.w - a.z * b.x * c.x - a.z * b.y * c.y - a.z * b.z * c.z
    ensures Mul(a, Mul(b, c)).w
         == a.w * b.w * c.w - a.w * b.x * c.x - a.w * b.y * c.y - a.w * b.z * c.z - a.x * b.w * c.x - a.x * b.x * c.w - a.x * b.y * c.z + a.x * b.z * c.y - a.y * b.w * c.y + a.y * b.x * c.z - a.y * b.y * c.w - a.y * b.z * c.x - a.z * b.w * c.z - a.z * b.x * c.y + a.z * b.y * c.x - a.z * b.z * c.w
  {
    AssocRightArg1(b, c);
    var s1 := Mul(b, c);
    MulParts(a, s1);
    AssocRightStepX(a, b, c, s1);
    AssocRightStepY(a, b, c, s1);
    AssocRightStepZ(a, b, c, s1);
    AssocRightStepW(a, b, c, s1);
  }

  lemma IdentityParts()
    ensures Identity.x == 0.0
    ensures Identity.y == 0.0
    ensures Identity.z == 0.0
    ensures Identity.w == 1.0
  {
  }

  lemma IdentityRightArg1StepX()
    ensures 0.0
         == 0.0
  {
  }

  lemma IdentityRightArg1StepY()
    ensures 0.0
         == 0.0
  {
  }

  lemma IdentityRightArg1StepZ()
    ensures 0.0
         == 0.0
  {
  }

  lemma IdentityRightArg1StepW()
    ensures 1.0
         == 1.0
  {
  }

  lemma IdentityRightArg1()
    ensures Identity.x
         == 0.0
    ensures Identity.y
         == 0.0
    ensures Identity.z
         == 0.0
    ensures Identity.w
         == 1.0
  {
    IdentityParts();
    IdentityRightArg1StepX();
    IdentityRightArg1StepY();
    IdentityRightArg1StepZ();
    IdentityRightArg1StepW();
  }

  lemma IdentityRightStepX(q: Quat, s1: Quat)
    requires s1.x == 0.0
    requires s1.y == 0.0
    requires s1.z == 0.0
    requires s1.w == 1.0
    ensures q.w * s1.x + s1.w * q.x + q.y * s1.z - q.z * s1.y
         == q.x
  {
  }

  lemma IdentityRightStepY(q: Quat, s1: Quat)
    requires s1.x == 0.0
    requires s1.y == 0.0
    requires s1.z == 0.0
    requires s1.w == 1.0
    ensures q.w * s1.y + s1.w * q.y + q.z * s1.x - q.x * s1.z
         == q.y
  {
  }

  lemma IdentityRightStepZ(q: Quat, s1: Quat)
    requires s1.x == 0.0
    requires s1.y == 0.0
    requires s1.z == 0.0
    requires s1.w == 1.0
    ensures q.w * s1.z + s1.w * q.z + q.x * s1.y - q.y * s1.x
         == q.z
  {
  }

  lemma IdentityRightStepW(q: Quat, s1: Quat)
    requires s1.x == 0.0
    requires s1.y == 0.0
    requires s1.z == 0.0
    requires s1.w == 1.0
    ensures q.w * s1.w - s1.x * q.x - q.y * s1.y - q.z * s1.z
         == q.w
  {
  }

  lemma IdentityRight(q: Quat)
    ensures Mul(q, Identity).x
         == q.x
    ensures Mul(q, Identity).y
         == q.y
    ensures Mul(q, Identity).z
         == q.z
    ensures Mul(q, Identity).w
         == q.w
  {
    IdentityRightArg1();
    var s1 := Identity;
    MulParts(q, s1);
    IdentityRightStepX(q, s1);
    IdentityRightStepY(q, s1);
    IdentityRightStepZ(q, s1);
    IdentityRightStepW(q, s1);
  }

  lemma IdentityLeftStepX(q: Quat, s0: Quat)
    requires s0.x == 0.0
    requires s0.y == 0.0
    requires s0.z == 0.0
    requires s0.w == 1.0
    ensures s0.w * q.x + q.w * s0.x + s0.y * q.z - s0.z * q.y
         == q.x
  {
  }

  lemma IdentityLeftStepY(q: Quat, s0: Quat)
    requires s0.x == 0.0
    requires s0.y == 0.0
    requires s0.z == 0.0
    requires s0.w == 1.0
    ensures s0.w * q.y + q.w * s0.y + s0.z * q.x - s0.x * q.z
         == q.y
  {
  }

  lemma IdentityLeftStepZ(q: Quat, s0: Quat)
    requires s0.x == 0.0
    requires s0.y == 0.0
    requires s0.z == 0.0
    requires s0.w == 1.0
    ensures s0.w * q.z + q.w * s0.z + s0.x * q.y - s0.y * q.x
         == q.z
  {
  }

  lemma IdentityLeftStepW(q: Quat, s0: Quat)
    requires s0.x == 0.0
    requires s0.y == 0.0
    requires s0.z == 0.0
    requires s0.w == 1.0
    ensures s0.w * q.w - q.x * s0.x - s0.y * q.y - s0.z * q.z
         == q.w
  {
  }

  lemma IdentityLeft(q: Quat)
    ensures Mul(Identity, q).x
         == q.x
    ensures Mul(Identity, q).y
         == q.y
    ensures Mul(Identity, q).z
         == q.z
    ensures Mul(Identity, q).w
         == q.w
  {
    IdentityRightArg1();
    var s0 := Identity;
    MulParts(s0, q);
    IdentityLeftStepX(q, s0);
    IdentityLeftStepY(q, s0);
    IdentityLeftStepZ(q, s0);
    IdentityLeftStepW(q, s0);
  }

  lemma InverseParts(a: Quat)
    ensures Inverse(a).x == -a.x
    ensures Inverse(a).y == -a.y
    ensures Inverse(a).z == -a.z
    ensures Inverse(a).w == a.w
  {
  }

  lemma ConjugateRightArg1StepX(q: Quat)
    ensures -q.x
         == -(q.x)
  {
  }

  lemma ConjugateRightArg1StepY(q: Quat)
    ensures -q.y
         == -(q.y)
  {
  }

  lemma ConjugateRightArg1StepZ(q: Quat)
    ensures -q.z
         == -(q.z)
  {
  }

  lemma ConjugateRightArg1StepW(q: Quat)
    ensures q.w
         == q.w
  {
  }

  lemma ConjugateRightArg1(q: Quat)
    ensures Inverse(q).x
         == -(q.x)
    ensures Inverse(q).y
         == -(q.y)
    ensures Inverse(q).z
         == -(q.z)
    ensures Inverse(q).w
         == q.w
  {
    InverseParts(q);
    ConjugateRightArg1StepX(q);
    ConjugateRightArg1StepY(q);
    ConjugateRightArg1StepZ(q);
    ConjugateRightArg1StepW(q);
  }

  lemma ConjugateRightStepX(q: Quat, s1: Quat)
    requires s1.x == -(q.x)
    requires s1.y == -(q.y)
    requires s1.z == -(q.z)
    requires s1.w == q.w
    ensures q.w * s1.x + s1.w * q.x + q.y * s1.z - q.z * s1.y
         == 0.0
  {
  }

  lemma ConjugateRightStepY(q: Quat, s1: Quat)
    requires s1.x == -(q.x)
    requires s1.y == -(q.y)
    requires s1.z == -(q.z)
    requires s1.w == q.w
    ensures q.w * s1.y + s1.w * q.y + q.z * s1.x - q.x * s1.z
         == 0.0
  {
  }

  lemma ConjugateRightStepZ(q: Quat, s1: Quat)
    requires s1.x == -(q.x)
    requires s1.y == -(q.y)
    requires s1.z == -(q.z)
    requires s1.w == q.w
    ensures q.w * s1.z + s1.w * q.z + q.x * s1.y - q.y * s1.x
         == 0.0
  {
  }

  lemma ConjugateRightStepW(q: Quat, s1: Quat)
    requires s1.x == -(q.x)
    requires s1.y == -(q.y)
    requires s1.z == -(q.z)
    requires s1.w == q.w
    ensures q.w * s1.w - s1.x * q.x - q.y * s1.y - q.z * s1.z
         == q.w * q.w + q.x * q.x + q.y * q.y + q.z * q.z
  {
  }

  lemma ConjugateRight(q: Quat)
    ensures Mul(q, Inverse(q)).x
         == 0.0
    ensures Mul(q, Inverse(q)).y
         == 0.0
    ensures Mul(q, Inverse(q)).z
         == 0.0
    ensures Mul(q, Inverse(q)).w
         == q.w * q.w + q.x * q.x + q.y * q.y + q.z * q.z
  {
    ConjugateRightArg1(q);
    var s1 := Inverse(q);
    MulParts(q, s1);
    ConjugateRightStepX(q, s1);
    ConjugateRightStepY(q, s1);
    ConjugateRightStepZ(q, s1);
    ConjugateRightStepW(q, s1);
  }

  lemma ConjugateLeftStepX(q: Quat, s0: Quat)
    requires s0.x == -(q.x)
    requires s0.y == -(q.y)
    requires s0.z == -(q.z)
    requires s0.w == q.w
    ensures s0.w * q.x + q.w * s0.x + s0.y * q.z - s0.z * q.y
         == 0.0
  {
  }

  lemma ConjugateLeftStepY(q: Quat, s0: Quat)
    requires s0.x == -(q.x)
    requires s0.y == -(q.y)
    requires s0.z == -(q.z)
    requires s0.w == q.w
    ensures s0.w * q.y + q.w * s0.y + s0.z * q.x - s0.x * q.z
         == 0.0
  {
  }

  lemma ConjugateLeftStepZ(q: Quat, s0: Quat)
    requires s0.x == -(q.x)
    requires s0.y == -(q.y)
    requires s0.z == -(q.z)
    requires s0.w == q.w
    ensures s0.w * q.z + q.w * s0.z + s0.x * q.y - s0.y * q.x
         == 0.0
  {
  }

  lemma ConjugateLeftStepW(q: Quat, s0: Quat)
    requires s0.x == -(q.x)
    requires s0.y == -(q.y)
    requires s0.z == -(q.z)
    requires s0.w == q.w
    ensures s0.w * q.w - q.x * s0.x - s0.y * q.y - s0.z * q.z
         == q.w * q.w + q.x * q.x + q.y * q.y + q.z * q.z
  {
  }

  lemma ConjugateLeft(q: Quat)
    ensures Mul(Inverse(q), q).x
         == 0.0
    ensures Mul(Inverse(q), q).y
         == 0.0
    ensures Mul(Inverse(q), q).z
         == 0.0
    ensures Mul(Inverse(q), q).w
         == q.w * q.w + q.x * q.x + q.y * q.y + q.z * q.z
  {
    ConjugateRightArg1(q);
    var s0 := Inverse(q);
    MulParts(s0, q);
    ConjugateLeftStepX(q, s0);
    ConjugateLeftStepY(q, s0);
    ConjugateLeftStepZ(q, s0);
    ConjugateLeftStepW(q, s0);
  }

  lemma InverseProductLeftStepX(a: Quat, b: Quat, s0: Quat)
    requires s0.x == a.w * b.x + a.x * b.w + a.y * b.z - a.z * b.y
    requires s0.y == a.w * b.y - a.x * b.z + a.y * b.w + a.z * b.x
    requires s0.z == a.w * b.z + a.x * b.y - a.y * b.x + a.z * b.w
    requires s0.w == a.w * b.w - a.x * b.x - a.y * b.y - a.z * b.z
    ensures -s0.x
         == -(a.w * b.x) - a.x * b.w - a.y * b.z + a.z * b.y
  {
  }

  lemma InverseProductLeftStepY(a: Quat, b: Quat, s0: Quat)
    requires s0.x == a.w * b.x + a.x * b.w + a.y * b.z - a.z * b.y
    requires s0.y == a.w * b.y - a.x * b.z + a.y * b.w + a.z * b.x
    requires s0.z == a.w * b.z + a.x * b.y - a.y * b.x + a.z * b.w
    requires s0.w == a.w * b.w - a.x * b.x - a.y * b.y - a.z * b.z
    ensures -s0.y
         == -(a.w * b.y) + a.x * b.z - a.y * b.w - a.z * b.x
  {
  }

  lemma InverseProductLeftStepZ(a: Quat, b: Quat, s0: Quat)
    requires s0.x == a.w * b.x + a.x * b.w + a.y * b.z - a.z * b.y
    requires s0.y == a.w * b.y - a.x * b.z + a.y * b.w + a.z * b.x
    requires s0.z == a.w * b.z + a.x * b.y - a.y * b.x + a.z * b.w
    requires s0.w == a.w * b.w - a.x * b.x - a.y * b.y - a.z * b.z
    ensures -s0.z
         == -(a.w * b.z) - a.x * b.y + a.y * b.x - a.z * b.w
  {
  }

  lemma InverseProductLeftStepW(a: Quat, b: Quat, s0: Quat)
    requires s0.x == a.w * b.x + a.x * b.w + a.y * b.z - a.z * b.y
    requires s0.y == a.w * b.y - a.x * b.z + a.y * b.w + a.z * b.x
    requires s0.z == a.w * b.z + a.x * b.y - a.y * b.x + a.z * b.w
    requires s0.w == a.w * b.w - a.x * b.x - a.y * b.y - a.z * b.z
    ensures s0.w
         == a.w * b.w - a.x * b.x - a.y * b.y - a.z * b.z
  {
  }

  lemma InverseProductLeft(a: Quat, b: Quat)
    ensures Inverse(Mul(a, b)).x
         == -(a.w * b.x) - a.x * b.w - a.y * b.z + a.z * b.y
    ensures Inverse(Mul(a, b)).y
         == -(a.w * b.y) + a.x * b.z - a.y * b.w - a.z * b.x
    ensures Inverse(Mul(a, b)).z
         == -(a.w * b.z) - a.x * b.y + a.y * b.x - a.z * b.w
    ensures Inverse(Mul(a, b)).w
         == a.w * b.w - a.x * b.x - a.y * b.y - a.z * b.z
  {
    AssocLeftArg0(a, b);
    var s0 := Mul(a, b);
    InverseParts(s0);
    InverseProductLeftStepX(a, b, s0);
    InverseProductLeftStepY(a, b, s0);
    InverseProductLeftStepZ(a, b, s0);
    InverseProductLeftStepW(a, b, s0);
  }

  lemma InverseProductRightArg0StepX(b: Quat)
    ensures -b.x
         == -(b.x)
  {
  }

  lemma InverseProductRightArg0StepY(b: Quat)
    ensures -b.y
         == -(b.y)
  {
  }

  lemma InverseProductRightArg0StepZ(b: Quat)
    ensures -b.z
         == -(b.z)
  {
  }

  lemma InverseProductRightArg0StepW(b: Quat)
    ensures b.w
         == b.w
  {
  }

  lemma InverseProductRightArg0(b: Quat)
    ensures Inverse(b).x
         == -(b.x)
    ensures Inverse(b).y
         == -(b.y)
    ensures Inverse(b).z
         == -(b.z)
    ensures Inverse(b).w
         == b.w
  {
    InverseParts(b);
    InverseProductRightArg0StepX(b);
    InverseProductRightArg0StepY(b);
    InverseProductRightArg0StepZ(b);
    InverseProductRightArg0StepW(b);
  }

  lemma InverseProductRightArg1StepX(a: Quat)
    ensures -a.x
         == -(a.x)
  {
  }

  lemma InverseProductRightArg1StepY(a: Quat)
    ensures -a.y
         == -(a.y)
  {
  }

  lemma InverseProductRightArg1StepZ(a: Quat)
    ensures -a.z
         == -(a.z)
  {
  }

  lemma InverseProductRightArg1StepW(a: Quat)
    ensures a.w
         == a.w
  {
  }

  lemma InverseProductRightArg1(a: Quat)
    ensures Inverse(a).x
         == -(a.x)
    ensures Inverse(a).y
         == -(a.y)
    ensures Inverse(a).z
         == -(a.z)
    ensures Inverse(a).w
         == a.w
  {
    InverseParts(a);
    InverseProductRightArg1StepX(a);
    InverseProductRightArg1StepY(a);
    InverseProductRightArg1StepZ(a);
    InverseProductRightArg1StepW(a);
  }

  lemma InverseProductRightStepX(a: Quat, b: Quat, s0: Quat, s1: Quat)
    requires s0.x == -(b.x)
    requires s0.y == -(b.y)
    requires s0.z == -(b.z)
    requires s0.w == b.w
    requires s1.x == -(a.x)
    requires s1.y == -(a.y)
    requires s1.z == -(a.z)
    requires s1.w == a.w
    ensures s0.w * s1.x + s1.w * s0.x + s0.y * s1.z - s0.z * s1.y
         == -(a.w * b.x) - a.x * b.w - a.y * b.z + a.z * b.y
  {
  }

  lemma InverseProductRightStepY(a: Quat, b: Quat, s0: Quat, s1: Quat)
    requires s0.x == -(b.x)
    requires s0.y == -(b.y)
    requires s0.z == -(b.z)
    requires s0.w == b.w
    requires s1.x == -(a.x)
    requires s1.y == -(a.y)
    requires s1.z == -(a.z)
    requires s1.w == a.w
    ensures s0.w * s1.y + s1.w * s0.y + s0.z * s1.x - s0.x * s1.z
         == -(a.w * b.y) + a.x * b.z - a.y * b.w - a.z * b.x
  {
  }

  lemma InverseProductRightStepZ(a: Quat, b: Quat, s0: Quat, s1: Quat)
    requires s0.x == -(b.x)
    requires s0.y == -(b.y)
    requires s0.z == -(b.z)
    requires s0.w == b.w
    requires s1.x == -(a.x)
    requires s1.y == -(a.y)
    requires s1.z == -(a.z)
    requires s1.w == a.w
    ensures s0.w * s1.z + s1.w * s0.z + s0.x * s1.y - s0.y * s1.x
         == -(a.w * b.z) - a.x * b.y + a.y * b.x - a.z * b.w
  {
  }

  lemma InverseProductRightStepW(a: Quat, b: Quat, s0: Quat, s1: Quat)
    requires s0.x == -(b.x)
    requires s0.y == -(b.y)
    requires s0.z == -(b.z)
    requires s0.w == b.w
    requires s1.x == -(a.x)
    requires s1.y == -(a.y)
    requires s1.z == -(a.z)
    requires s1.w == a.w
    ensures s0.w * s1.w - s1.x * s0.x - s0.y * s1.y - s0.z * s1.z
         == a.w * b.w - a.x * b.x - a.y * b.y - a.z * b.z
  {
  }

  lemma InverseProductRight(a: Quat, b: Quat)
    ensures Mul(Inverse(b), Inverse(a)).x
         == -(a.w * b.x) - a.x * b.w - a.y * b.z + a.z * b.y
    ensures Mul(Inverse(b), Inverse(a)).y
         == -(a.w * b.y) + a.x * b.z - a.y * b.w - a.z * b.x
    ensures Mul(Inverse(b), Inverse(a)).z
         == -(a.w * b.z) - a.x * b.y + a.y * b.x - a.z * b.w
    ensures Mul(Inverse(b), Inverse(a)).w
         == a.w * b.w - a.x * b.x - a.y * b.y - a.z * b.z
  {
    InverseProductRightArg0(b);
    var s0 := Inverse(b);
    InverseProductRightArg1(a);
    var s1 := Inverse(a);
    MulParts(s0, s1);
    InverseProductRightStepX(a, b, s0, s1);
    InverseProductRightStepY(a, b, s0, s1);
    InverseProductRightStepZ(a, b, s0, s1);
    InverseProductRightStepW(a, b, s0, s1);
  }

  lemma QSqNormParts(a: Quat)
    ensures QSqNorm(a) == a.x * a.x + a.y * a.y + a.z * a.z + a.w * a.w
  {
  }

  lemma NormProductLeftStep(a: Quat, b: Quat, s0: Quat)
    requires s0.x == a.w * b.x + a.x * b.w + a.y * b.z - a.z * b.y
    requires s0.y == a.w * b.y - a.x * b.z + a.y * b.w + a.z * b.x
    requires s0.z == a.w * b.z + a.x * b.y - a.y * b.x + a.z * b.w
    requires s0.w == a.w * b.w - a.x * b.x - a.y * b.y - a.z * b.z
    ensures s0.x * s0.x + s0.y * s0.y + s0.z * s0.z + s0.w * s0.w
         == a.w * a.w * b.w * b.w + a.w * a.w * b.x * b.x + a.w * a.w * b.y * b.y + a.w * a.w * b.z * b.z + a.x * a.x * b.w * b.w + a.x * a.x * b.x * b.x + a.x * a.x * b.y * b.y + a.x * a.x * b.z * b.z + a.y * a.y * b.w * b.w + a.y * a.y * b.x * b.x + a.y * a.y * b.y * b.y + a.y * a.y * b.z * b.z + a.z * a.z * b.w * b.w + a.z * a.z * b.x * b.x + a.z * a.z * b.y * b.y + a.z * a.z * b.z * b.z
  {
  }

  lemma NormProductLeft(a: Quat, b: Quat)
    ensures QSqNorm(Mul(a, b))
         == a.w * a.w * b.w * b.w + a.w * a.w * b.x * b.x + a.w * a.w * b.y * b.y + a.w * a.w * b.z * b.z + a.x * a.x * b.w * b.w + a.x * a.x * b.x * b.x + a.x * a.x * b.y * b.y + a.x * a.x * b.z * b.z + a.y * a.y * b.w * b.w + a.y * a.y * b.x * b.x + a.y * a.y * b.y * b.y + a.y * a.y * b.z * b.z + a.z * a.z * b.w * b.w + a.z * a.z * b.x * b.x + a.z * a.z * b.y * b.y + a.z * a.z * b.z * b.z
  {
    AssocLeftArg0(a, b);
    var s0 := Mul(a, b);
    QSqNormParts(s0);
    NormProductLeftStep(a, b, s0);
  }

  lemma NormProductRightArg0Step(a: Quat)
    ensures a.x * a.x + a.y * a.y + a.z * a.z + a.w * a.w
         == a.w * a.w + a.x * a.x + a.y * a.y + a.z * a.z
  {
  }

  lemma NormProductRightArg0(a: Quat)
    ensures QSqNorm(a)
         == a.w * a.w + a.x * a.x + a.y * a.y + a.z * a.z
  {
    QSqNormParts(a);
    NormProductRightArg0Step(a);
  }

  lemma NormProductRightArg1Step(b: Quat)
    ensures b.x * b.x + b.y * b.y + b.z * b.z + b.w * b.w
         == b.w * b.w + b.x * b.x + b.y * b.y + b.z * b.z
  {
  }

  lemma NormProductRightArg1(b: Quat)
    ensures QSqNorm(b)
         == b.w * b.w + b.x * b.x + b.y * b.y + b.z * b.z
  {
    QSqNormParts(b);
    NormProductRightArg1Step(b);
  }

  lemma NormProductRightStep(a: Quat, b: Quat, s0: real, s1: real)
    requires s0 == a.w * a.w + a.x * a.x + a.y * a.y + a.z * a.z
    requires s1 == b.w * b.w + b.x * b.x + b.y * b.y + b.z * b.z
    ensures s0 * s1
         == a.w * a.w * b.w * b.w + a.w * a.w * b.x * b.x + a.w * a.w * b.y * b.y + a.w * a.w * b.z * b.z + a.x * a.x * b.w * b.w + a.x * a.x * b.x * b.x + a.x * a.x * b.y * b.y + a.x * a.x * b.z * b.z + a.y * a.y * b.w * b.w + a.y * a.y * b.x * b.x + a.y * a.y * b.y * b.y + a.y * a.y * b.z * b.z + a.z * a.z * b.w * b.w + a.z * a.z * b.x * b.x + a.z * a.z * b.y * b.y + a.z * a.z * b.z * b.z
  {
  }

  lemma NormProductRight(a: Quat, b: Quat)
    ensures QSqNorm(a) * QSqNorm(b)
         == a.w * a.w * b.w * b.w + a.w * a.w * b.x * b.x + a.w * a.w * b.y * b.y + a.w * a.w * b.z * b.z + a.x * a.x * b.w * b.w + a.x * a.x * b.x * b.x + a.x * a.x * b.y * b.y + a.x * a.x * b.z * b.z + a.y * a.y * b.w * b.w + a.y * a.y * b.x * b.x + a.y * a.y * b.y * b.y + a.y * a.y * b.z * b.z + a.z * a.z * b.w * b.w + a.z * a.z * b.x * b.x + a.z * a.z * b.y * b.y + a.z * a.z * b.z * b.z
  {
    NormProductRightArg0(a);
    var s0 := QSqNorm(a);
    NormProductRightArg1(b);
    var s1 := QSqNorm(b);
    NormProductRightStep(a, b, s0, s1);
  }

  lemma PureParts(u: Vec3)
    ensures Pure(u).x == u.x
    ensures Pure(u).y == u.y
    ensures Pure(u).z == u.z
    ensures Pure(u).w == 0.0
  {
  }

  lemma PureNormArg0StepX(v: Vec3)
    ensures v.x
         == v.x
  {
  }

  lemma PureNormArg0StepY(v: Vec3)
    ensures v.y
         == v.y
  {
  }

  lemma PureNormArg0StepZ(v: Vec3)
    ensures v.z
         == v.z
  {
  }

  lemma PureNormArg0StepW(v: Vec3)
    ensures 0.0
         == 0.0
  {
  }

  lemma PureNormArg0(v: Vec3)
    ensures Pure(v).x
         == v.x
    ensures Pure(v).y
         == v.y
    ensures Pure(v).z
         == v.z
    ensures Pure(v).w
         == 0.0
  {
    PureParts(v);
    PureNormArg0StepX(v);
    PureNormArg0StepY(v);
    PureNormArg0StepZ(v);
    PureNormArg0StepW(v);
  }

  lemma PureNormStep(v: Vec3, s0: Quat)
    requires s0.x == v.x
    requires s0.y == v.y
    requires s0.z == v.z
    requires s0.w == 0.0
    ensures s0.x * s0.x + s0.y * s0.y + s0.z * s0.z + s0.w * s0.w
         == v.x * v.x + v.y * v.y + v.z * v.z
  {
  }

  lemma PureNorm(v: Vec3)
    ensures QSqNorm(Pure(v))
         == v.x * v.x + v.y * v.y + v.z * v.z
  {
    PureNormArg0(v);
    var s0 := Pure(v);
    QSqNormParts(s0);
    PureNormStep(v, s0);
  }

  lemma SandwichArg0StepX(a: Quat, v: Vec3, s1: Quat)
    requires s1.x == v.x
    requires s1.y == v.y
    requires s1.z == v.z
    requires s1.w == 0.0
    ensures a.w * s1.x + s1.w * a.x + a.y * s1.z - a.z * s1.y
         == a.w * v.x + a.y * v.z - a.z * v.y
  {
  }

  lemma SandwichArg0StepY(a: Quat, v: Vec3, s1: Quat)
    requires s1.x == v.x
    requires s1.y == v.y
    requires s1.z == v.z
    requires s1.w == 0.0
    ensures a.w * s1.y + s1.w * a.y + a.z * s1.x - a.x * s1.z
         == a.w * v.y - a.x * v.z + a.z * v.x
  {
  }

  lemma SandwichArg0StepZ(a: Quat, v: Vec3, s1: Quat)
    requires s1.x == v.x
    requires s1.y == v.y
    requires s1.z == v.z
    requires s1.w == 0.0
    ensures a.w * s1.z + s1.w * a.z + a.x * s1.y - a.y * s1.x
         == a.w * v.z + a.x * v.y - a.y * v.x
  {
  }

  lemma SandwichArg0StepW(a: Quat, v: Vec3, s1: Quat)
    requires s1.x == v.x
    requires s1.y == v.y
    requires s1.z == v.z
    requires s1.w == 0.0
    ensures a.w * s1.w - s1.x * a.x - a.y * s1.y - a.z * s1.z
         == -(a.x * v.x) - a.y * v.y - a.z * v.z
  {
  }

  lemma SandwichArg0(a: Quat, v: Vec3)
    ensures Mul(a, Pure(v)).x
         == a.w * v.x + a.y * v.z - a.z * v.y
    ensures Mul(a, Pure(v)).y
         == a.w * v.y - a.x * v.z + a.z * v.x
    ensures Mul(a, Pure(v)).z
         == a.w * v.z + a.x * v.y - a.y * v.x
    ensures Mul(a, Pure(v)).w
         == -(a.x * v.x) - a.y * v.y - a.z * v.z
  {
    PureNormArg0(v);
    var s1 := Pure(v);
    MulParts(a, s1);
    SandwichArg0StepX(a, v, s1);
    SandwichArg0StepY(a, v, s1);
    SandwichArg0StepZ(a, v, s1);
    SandwichArg0StepW(a, v, s1);
  }

  lemma SandwichStepX(a: Quat, v: Vec3, s0: Quat, s1: Quat)
    requires s0.x == a.w * v.x + a.y * v.z - a.z * v.y
    requires s0.y == a.w * v.y - a.x * v.z + a.z * v.x
    requires s0.z == a.w * v.z + a.x * v.y - a.y * v.x
    requires s0.w == -(a.x * v.x) - a.y * v.y - a.z * v.z
    requires s1.x == -(a.x)
    requires s1.y == -(a.y)
    requires s1.z == -(a.z)
    requires s1.w == a.w
    ensures s0.w * s1.x + s1.w * s0.x + s0.y * s1.z - s0.z * s1.y
         == a.w * a.w * v.x + 2.0 * a.w * a.y * v.z - 2.0 * a.w * a.z * v.y + a.x * a.x * v.x + 2.0 * a.x * a.y * v.y + 2.0 * a.x * a.z * v.z - a.y * a.y * v.x - a.z * a.z * v.x
  {
  }

  lemma SandwichStepY(a: Quat, v: Vec3, s0: Quat, s1: Quat)
    requires s0.x == a.w * v.x + a.y * v.z - a.z * v.y
    requires s0.y == a.w * v.y - a.x * v.z + a.z * v.x
    requires s0.z == a.w * v.z + a.x * v.y - a.y * v.x
    requires s0.w == -(a.x * v.x) - a.y * v.y - a.z * v.z
    requires s1.x == -(a.x)
    requires s1.y == -(a.y)
    requires s1.z == -(a.z)
    requires s1.w == a.w
    ensures s0.w * s1.y + s1.w * s0.y + s0.z * s1.x - s0.x * s1.z
         == a.w * a.w * v.y - 2.0 * a.w * a.x * v.z + 2.0 * a.w * a.z * v.x - a.x * a.x * v.y + 2.0 * a.x * a.y * v.x + a.y * a.y * v.y + 2.0 * a.y * a.z * v.z - a.z * a.z * v.y
  {
  }

  lemma SandwichStepZ(a: Quat, v: Vec3, s0: Quat, s1: Quat)
    requires s0.x == a.w * v.x + a.y * v.z - a.z * v.y
    requires s0.y == a.w * v.y - a.x * v.z + a.z * v.x
    requires s0.z == a.w * v.z + a.x * v.y - a.y * v.x
    requires s0.w == -(a.x * v.x) - a.y * v.y - a.z * v.z
    requires s1.x == -(a.x)
    requires s1.y == -(a.y)
    requires s1.z == -(a.z)
    requires s1.w == a.w
    ensures s0.w * s1.z + s1.w * s0.z + s0.x * s1.y - s0.y * s1.x
         == a.w * a.w * v.z + 2.0 * a.w * a.x * v.y - 2.0 * a.w * a.y * v.x - a.x * a.x * v.z + 2.0 * a.x * a.z * v.x - a.y * a.y * v.z + 2.0 * a.y * a.z * v.y + a.z * a.z * v.z
  {
  }

  lemma SandwichStepW(a: Quat, v: Vec3, s0: Quat, s1: Quat)
    requires s0.x == a.w * v.x + a.y * v.z - a.z * v.y
    requires s0.y == a.w * v.y - a.x * v.z + a.z * v.x
    requires s0.z == a.w * v.z + a.x * v.y - a.y * v.x
    requires s0.w == -(a.x * v.x) - a.y * v.y - a.z * v.z
    requires s1.x == -(a.x)
    requires s1.y == -(a.y)
    requires s1.z == -(a.z)
    requires s1.w == a.w
    ensures s0.w * s1.w - s1.x * s0.x - s0.y * s1.y - s0.z * s1.z
         == 0.0
  {
  }

  lemma Sandwich(a: Quat, v: Vec3)
    ensures Mul(Mul(a, Pure(v)), Inverse(a)).x
         == a.w * a.w * v.x + 2.0 * a.w * a.y * v.z - 2.0 * a.w * a.z * v.y + a.x * a.x * v.x + 2.0 * a.x * a.y * v.y + 2.0 * a.x * a.z * v.z - a.y * a.y * v.x - a.z * a.z * v.x
    ensures Mul(Mul(a, Pure(v)), Inverse(a)).y
         == a.w * a.w * v.y - 2.0 * a.w * a.x * v.z + 2.0 * a.w * a.z * v.x - a.x * a.x * v.y + 2.0 * a.x * a.y * v.x + a.y * a.y * v.y + 2.0 * a.y * a.z * v.z - a.z * a.z * v.y
    ensures Mul(Mul(a, Pure(v)), Inverse(a)).z
         == a.w * a.w * v.z + 2.0 * a.w * a.x * v.y - 2.0 * a.w * a.y * v.x - a.x * a.x * v.z + 2.0 * a.x * a.z * v.x - a.y * a.y * v.z + 2.0 * a.y * a.z * v.y + a.z * a.z * v.z
    ensures Mul(Mul(a, Pure(v)), Inverse(a)).w
         == 0.0
  {
    SandwichArg0(a, v);
    var s0 := Mul(a, Pure(v));
    InverseProductRightArg1(a);
    var s1 := Inverse(a);
    MulParts(s0, s1);
    SandwichStepX(a, v, s0, s1);
    SandwichStepY(a, v, s0, s1);
    SandwichStepZ(a, v, s0, s1);
    SandwichStepW(a, v, s0, s1);
  }

  lemma RotateParts(a: Quat, v: Vec3)
    ensures Rotate(a, v).x == a.w * a.w * v.x + 2.0 * a.w * a.y * v.z - 2.0 * a.w * a.z * v.y + a.x * a.x * v.x + 2.0 * a.x * a.y * v.y + 2.0 * a.x * a.z * v.z - a.y * a.y * v.x - a.z * a.z * v.x
    ensures Rotate(a, v).y == a.w * a.w * v.y - 2.0 * a.w * a.x * v.z + 2.0 * a.w * a.z * v.x - a.x * a.x * v.y + 2.0 * a.x * a.y * v.x + a.y * a.y * v.y + 2.0 * a.y * a.z * v.z - a.z * a.z * v.y
    ensures Rotate(a, v).z == a.w * a.w * v.z + 2.0 * a.w * a.x * v.y - 2.0 * a.w * a.y * v.x - a.x * a.x * v.z + 2.0 * a.x * a.z * v.x - a.y * a.y * v.z + 2.0 * a.y * a.z * v.y + a.z * a.z * v.z
  {
    Sandwich(a, v);
  }

  lemma RotateByIdentityStepX(v: Vec3, s0: Quat)
    requires s0.x == 0.0
    requires s0.y == 0.0
    requires s0.z == 0.0
    requires s0.w == 1.0
    ensures s0.w * s0.w * v.x + 2.0 * s0.w * s0.y * v.z - 2.0 * s0.w * s0.z * v.y + s0.x * s0.x * v.x + 2.0 * s0.x * s0.y * v.y + 2.0 * s0.x * s0.z * v.z - s0.y * s0.y * v.x - s0.z * s0.z * v.x
         == v.x
  {
  }

  lemma RotateByIdentityStepY(v: Vec3, s0: Quat)
    requires s0.x == 0.0
    requires s0.y == 0.0
    requires s0.z == 0.0
    requires s0.w == 1.0
    ensures s0.w * s0.w * v.y - 2.0 * s0.w * s0.x * v.z + 2.0 * s0.w * s0.z * v.x - s0.x * s0.x * v.y + 2.0 * s0.x * s0.y * v.x + s0.y * s0.y * v.y + 2.0 * s0.y * s0.z * v.z - s0.z * s0.z * v.y
         == v.y
  {
  }

  lemma RotateByIdentityStepZ(v: Vec3, s0: Quat)
    requires s0.x == 0.0
    requires s0.y == 0.0
    requires s0.z == 0.0
    requires s0.w == 1.0
    ensures s0.w * s0.w * v.z + 2.0 * s0.w * s0.x * v.y - 2.0 * s0.w * s0.y * v.x - s0.x * s0.x * v.z + 2.0 * s0.x * s0.z * v.x - s0.y * s0.y * v.z + 2.0 * s0.y * s0.z * v.y + s0.z * s0.z * v.z
         == v.z
  {
  }

  lemma RotateByIdentity(v: Vec3)
    ensures Rotate(Identity, v).x
         == v.x
    ensures Rotate(Identity, v).y
         == v.y
    ensures Rotate(Identity, v).z
         == v.z
  {
    IdentityRightArg1();
    var s0 := Identity;
    RotateParts(s0, v);
    RotateByIdentityStepX(v, s0);
    RotateByIdentityStepY(v, s0);
    RotateByIdentityStepZ(v, s0);
  }

  lemma AddParts(u: Vec3, v: Vec3)
    ensures Add(u, v).x == u.x + v.x
    ensures Add(u, v).y == u.y + v.y
    ensures Add(u, v).z == u.z + v.z
  {
  }

  lemma RotateSumLeftArg1StepX(u: Vec3, v: Vec3)
    ensures u.x + v.x
         == u.x + v.x
  {
  }

  lemma RotateSumLeftArg1StepY(u: Vec3, v: Vec3)
    ensures u.y + v.y
         == u.y + v.y
  {
  }

  lemma RotateSumLeftArg1StepZ(u: Vec3, v: Vec3)
    ensures u.z + v.z
         == u.z + v.z
  {
  }

  lemma RotateSumLeftArg1(u: Vec3, v: Vec3)
    ensures Add(u, v).x
         == u.x + v.x
    ensures Add(u, v).y
         == u.y + v.y
    ensures Add(u, v).z
         == u.z + v.z
  {
    AddParts(u, v);
    RotateSumLeftArg1StepX(u, v);
    RotateSumLeftArg1StepY(u, v);
    RotateSumLeftArg1StepZ(u, v);
  }

  lemma RotateSumLeftStepX(q: Quat, u: Vec3, v: Vec3, s1: Vec3)
    requires s1.x == u.x + v.x
    requires s1.y == u.y + v.y
    requires s1.z == u.z + v.z
    ensures q.w * q.w * s1.x + 2.0 * q.w * q.y * s1.z - 2.0 * q.w * q.z * s1.y + q.x * q.x * s1.x + 2.0 * q.x * q.y * s1.y + 2.0 * q.x * q.z * s1.z - q.y * q.y * s1.x - q.z * q.z * s1.x
         == q.w * q.w * u.x + q.w * q.w * v.x + 2.0 * q.w * q.y * u.z + 2.0 * q.w * q.y * v.z - 2.0 * q.w * q.z * u.y - 2.0 * q.w * q.z * v.y + q.x * q.x * u.x + q.x * q.x * v.x + 2.0 * q.x * q.y * u.y + 2.0 * q.x * q.y * v.y + 2.0 * q.x * q.z * u.z + 2.0 * q.x * q.z * v.z - q.y * q.y * u.x - q.y * q.y * v.x - q.z * q.z * u.x - q.z * q.z * v.x
  {
  }

  lemma RotateSumLeftStepY(q: Quat, u: Vec3, v: Vec3, s1: Vec3)
    requires s1.x == u.x + v.x
    requires s1.y == u.y + v.y
    requires s1.z == u.z + v.z
    ensures q.w * q.w * s1.y - 2.0 * q.w * q.x * s1.z + 2.0 * q.w * q.z * s1.x - q.x * q.x * s1.y + 2.0 * q.x * q.y * s1.x + q.y * q.y * s1.y + 2.0 * q.y * q.z * s1.z - q.z * q.z * s1.y
         == q.w * q.w * u.y + q.w * q.w * v.y - 2.0 * q.w * q.x * u.z - 2.0 * q.w * q.x * v.z + 2.0 * q.w * q.z * u.x + 2.0 * q.w * q.z * v.x - q.x * q.x * u.y - q.x * q.x * v.y + 2.0 * q.x * q.y * u.x + 2.0 * q.x * q.y * v.x + q.y * q.y * u.y + q.y * q.y * v.y + 2.0 * q.y * q.z * u.z + 2.0 * q.y * q.z * v.z - q.z * q.z * u.y - q.z * q.z * v.y
  {
  }

  lemma RotateSumLeftStepZ(q: Quat, u: Vec3, v: Vec3, s1: Vec3)
    requires s1.x == u.x + v.x
    requires s1.y == u.y + v.y
    requires s1.z == u.z + v.z
    ensures q.w * q.w * s1.z + 2.0 * q.w * q.x * s1.y - 2.0 * q.w * q.y * s1.x - q.x * q.x * s1.z + 2.0 * q.x * q.z * s1.x - q.y * q.y * s1.z + 2.0 * q.y * q.z * s1.y + q.z * q.z * s1.z
         == q.w * q.w * u.z + q.w * q.w * v.z + 2.0 * q.w * q.x * u.y + 2.0 * q.w * q.x * v.y - 2.0 * q.w * q.y * u.x - 2.0 * q.w * q.y * v.x - q.x * q.x * u.z - q.x * q.x * v.z + 2.0 * q.x * q.z * u.x + 2.0 * q.x * q.z * v.x - q.y * q.y * u.z - q.y * q.y * v.z + 2.0 * q.y * q.z * u.y + 2.0 * q.y * q.z * v.y + q.z * q.z * u.z + q.z * q.z * v.z
  {
  }

  lemma RotateSumLeft(q: Quat, u: Vec3, v: Vec3)
    ensures Rotate(q, Add(u, v)).x
         == q.w * q.w * u.x + q.w * q.w * v.x + 2.0 * q.w * q.y * u.z + 2.0 * q.w * q.y * v.z - 2.0 * q.w * q.z * u.y - 2.0 * q.w * q.z * v.y + q.x * q.x * u.x + q.x * q.x * v.x + 2.0 * q.x * q.y * u.y + 2.0 * q.x * q.y * v.y + 2.0 * q.x * q.z * u.z + 2.0 * q.x * q.z * v.z - q.y * q.y * u.x - q.y * q.y * v.x - q.z * q.z * u.x - q.z * q.z * v.x
    ensures Rotate(q, Add(u, v)).y
         == q.w * q.w * u.y + q.w * q.w * v.y - 2.0 * q.w * q.x * u.z - 2.0 * q.w * q.x * v.z + 2.0 * q.w * q.z * u.x + 2.0 * q.w * q.z * v.x - q.x * q.x * u.y - q.x * q.x * v.y + 2.0 * q.x * q.y * u.x + 2.0 * q.x * q.y * v.x + q.y * q.y * u.y + q.y * q.y * v.y + 2.0 * q.y * q.z * u.z + 2.0 * q.y * q.z * v.z - q.z * q.z * u.y - q.z * q.z * v.y
    ensures Rotate(q, Add(u, v)).z
         == q.w * q.w * u.z + q.w * q.w * v.z + 2.0 * q.w * q.x * u.y + 2.0 * q.w * q.x * v.y - 2.0 * q.w * q.y * u.x - 2.0 * q.w * q.y * v.x - q.x * q.x * u.z - q.x * q.x * v.z + 2.0 * q.x * q.z * u.x + 2.0 * q.x * q.z * v.x - q.y * q.y * u.z - q.y * q.y * v.z + 2.0 * q.y * q.z * u.y + 2.0 * q.y * q.z * v.y + q.z * q.z * u.z + q.z * q.z * v.z
  {
    RotateSumLeftArg1(u, v);
    var s1 := Add(u, v);
    RotateParts(q, s1);
    RotateSumLeftStepX(q, u, v, s1);
    RotateSumLeftStepY(q, u, v, s1);
    RotateSumLeftStepZ(q, u, v, s1);
  }

  lemma RotateSumRightArg0StepX(q: Quat, u: Vec3)
    ensures q.w * q.w * u.x + 2.0 * q.w * q.y * u.z - 2.0 * q.w * q.z * u.y + q.x * q.x * u.x + 2.0 * q.x * q.y * u.y + 2.0 * q.x * q.z * u.z - q.y * q.y * u.x - q.z * q.z * u.x
         == q.w * q.w * u.x + 2.0 * q.w * q.y * u.z - 2.0 * q.w * q.z * u.y + q.x * q.x * u.x + 2.0 * q.x * q.y * u.y + 2.0 * q.x * q.z * u.z - q.y * q.y * u.x - q.z * q.z * u.x
  {
  }

  lemma RotateSumRightArg0StepY(q: Quat, u: Vec3)
    ensures q.w * q.w * u.y - 2.0 * q.w * q.x * u.z + 2.0 * q.w * q.z * u.x - q.x * q.x * u.y + 2.0 * q.x * q.y * u.x + q.y * q.y * u.y + 2.0 * q.y * q.z * u.z - q.z * q.z * u.y
         == q.w * q.w * u.y - 2.0 * q.w * q.x * u.z + 2.0 * q.w * q.z * u.x - q.x * q.x * u.y + 2.0 * q.x * q.y * u.x + q.y * q.y * u.y + 2.0 * q.y * q.z * u.z - q.z * q.z * u.y
  {
  }

  lemma RotateSumRightArg0StepZ(q: Quat, u: Vec3)
    ensures q.w * q.w * u.z + 2.0 * q.w * q.x * u.y - 2.0 * q.w * q.y * u.x - q.x * q.x * u.z + 2.0 * q.x * q.z * u.x - q.y * q.y * u.z + 2.0 * q.y * q.z * u.y + q.z * q.z * u.z
         == q.w * q.w * u.z + 2.0 * q.w * q.x * u.y - 2.0 * q.w * q.y * u.x - q.x * q.x * u.z + 2.0 * q.x * q.z * u.x - q.y * q.y * u.z + 2.0 * q.y * q.z * u.y + q.z * q.z * u.z
  {
  }

  lemma RotateSumRightArg0(q: Quat, u: Vec3)
    ensures Rotate(q, u).x
         == q.w * q.w * u.x + 2.0 * q.w * q.y * u.z - 2.0 * q.w * q.z * u.y + q.x * q.x * u.x + 2.0 * q.x * q.y * u.y + 2.0 * q.x * q.z * u.z - q.y * q.y * u.x - q.z * q.z * u.x
    ensures Rotate(q, u).y
         == q.w * q.w * u.y - 2.0 * q.w * q.x * u.z + 2.0 * q.w * q.z * u.x - q.x * q.x * u.y + 2.0 * q.x * q.y * u.x + q.y * q.y * u.y + 2.0 * q.y * q.z * u.z - q.z * q.z * u.y
    ensures Rotate(q, u).z
         == q.w * q.w * u.z + 2.0 * q.w * q.x * u.y - 2.0 * q.w * q.y * u.x - q.x * q.x * u.z + 2.0 * q.x * q.z * u.x - q.y * q.y * u.z + 2.0 * q.y * q.z * u.y + q.z * q.z * u.z
  {
    RotateParts(q, u);
    RotateSumRightArg0StepX(q, u);
    RotateSumRightArg0StepY(q, u);
    RotateSumRightArg0StepZ(q, u);
  }

  lemma RotateSumRightArg1StepX(q: Quat, v: Vec3)
    ensures q.w * q.w * v.x + 2.0 * q.w * q.y * v.z - 2.0 * q.w * q.z * v.y + q.x * q.x * v.x + 2.0 * q.x * q.y * v.y + 2.0 * q.x * q.z * v.z - q.y * q.y * v.x - q.z * q.z * v.x
         == q.w * q.w * v.x + 2.0 * q.w * q.y * v.z - 2.0 * q.w * q.z * v.y + q.x * q.x * v.x + 2.0 * q.x * q.y * v.y + 2.0 * q.x * q.z * v.z - q.y * q.y * v.x - q.z * q.z * v.x
  {
  }

  lemma RotateSumRightArg1StepY(q: Quat, v: Vec3)
    ensures q.w * q.w * v.y - 2.0 * q.w * q.x * v.z + 2.0 * q.w * q.z * v.x - q.x * q.x * v.y + 2.0 * q.x * q.y * v.x + q.y * q.y * v.y + 2.0 * q.y * q.z * v.z - q.z * q.z * v.y
         == q.w * q.w * v.y - 2.0 * q.w * q.x * v.z + 2.0 * q.w * q.z * v.x - q.x * q.x * v.y + 2.0 * q.x * q.y * v.x + q.y * q.y * v.y + 2.0 * q.y * q.z * v.z - q.z * q.z * v.y
  {
  }

  lemma RotateSumRightArg1StepZ(q: Quat, v: Vec3)
    ensures q.w * q.w * v.z + 2.0 * q.w * q.x * v.y - 2.0 * q.w * q.y * v.x - q.x * q.x * v.z + 2.0 * q.x * q.z * v.x - q.y * q.y * v.z + 2.0 * q.y * q.z * v.y + q.z * q.z * v.z
         == q.w * q.w * v.z + 2.0 * q.w * q.x * v.y - 2.0 * q.w * q.y * v.x - q.x * q.x * v.z + 2.0 * q.x * q.z * v.x - q.y * q.y * v.z + 2.0 * q.y * q.z * v.y + q.z * q.z * v.z
  {
  }

  lemma RotateSumRightArg1(q: Quat, v: Vec3)
    ensures Rotate(q, v).x
         == q.w * q.w * v.x + 2.0 * q.w * q.y * v.z - 2.0 * q.w * q.z * v.y + q.x * q.x * v.x + 2.0 * q.x * q.y * v.y + 2.0 * q.x * q.z * v.z - q.y * q.y * v.x - q.z * q.z * v.x
    ensures Rotate(q, v).y
         == q.w * q.w * v.y - 2.0 * q.w * q.x * v.z + 2.0 * q.w * q.z * v.x - q.x * q.x * v.y + 2.0 * q.x * q.y * v.x + q.y * q.y * v.y + 2.0 * q.y * q.z * v.z - q.z * q.z * v.y
    ensures Rotate(q, v).z
         == q.w * q.w * v.z + 2.0 * q.w * q.x * v.y - 2.0 * q.w * q.y * v.x - q.x * q.x * v.z + 2.0 * q.x * q.z * v.x - q.y * q.y * v.z + 2.0 * q.y * q.z * v.y + q.z * q.z * v.z
  {
    RotateParts(q, v);
    RotateSumRightArg1StepX(q, v);
    RotateSumRightArg1StepY(q, v);
    RotateSumRightArg1StepZ(q, v);
  }

  lemma RotateSumRightStepX(q: Quat, u: Vec3, v: Vec3, s0: Vec3, s1: Vec3)
    requires s0.x == q.w * q.w * u.x + 2.0 * q.w * q.y * u.z - 2.0 * q.w * q.z * u.y + q.x * q.x * u.x + 2.0 * q.x * q.y * u.y + 2.0 * q.x * q.z * u.z - q.y * q.y * u.x - q.z * q.z * u.x
    requires s0.y == q.w * q.w * u.y - 2.0 * q.w * q.x * u.z + 2.0 * q.w * q.z * u.x - q.x * q.x * u.y + 2.0 * q.x * q.y * u.x + q.y * q.y * u.y + 2.0 * q.y * q.z * u.z - q.z * q.z * u.y
    requires s0.z == q.w * q.w * u.z + 2.0 * q.w * q.x * u.y - 2.0 * q.w * q.y * u.x - q.x * q.x * u.z + 2.0 * q.x * q.z * u.x - q.y * q.y * u.z + 2.0 * q.y * q.z * u.y + q.z * q.z * u.z
    requires s1.x == q.w * q.w * v.x + 2.0 * q.w * q.y * v.z - 2.0 * q.w * q.z * v.y + q.x * q.x * v.x + 2.0 * q.x * q.y * v.y + 2.0 * q.x * q.z * v.z - q.y * q.y * v.x - q.z * q.z * v.x
    requires s1.y == q.w * q.w * v.y - 2.0 * q.w * q.x * v.z + 2.0 * q.w * q.z * v.x - q.x * q.x * v.y + 2.0 * q.x * q.y * v.x + q.y * q.y * v.y + 2.0 * q.y * q.z * v.z - q.z * q.z * v.y
    requires s1.z == q.w * q.w * v.z + 2.0 * q.w * q.x * v.y - 2.0 * q.w * q.y * v.x - q.x * q.x * v.z + 2.0 * q.x * q.z * v.x - q.y * q.y * v.z + 2.0 * q.y * q.z * v.y + q.z * q.z * v.z
    ensures s0.x + s1.x
         == q.w * q.w * u.x + q.w * q.w * v.x + 2.0 * q.w * q.y * u.z + 2.0 * q.w * q.y * v.z - 2.0 * q.w * q.z * u.y - 2.0 * q.w * q.z * v.y + q.x * q.x * u.x + q.x * q.x * v.x + 2.0 * q.x * q.y * u.y + 2.0 * q.x * q.y * v.y + 2.0 * q.x * q.z * u.z + 2.0 * q.x * q.z * v.z - q.y * q.y * u.x - q.y * q.y * v.x - q.z * q.z * u.x - q.z * q.z * v.x
  {
  }

  lemma RotateSumRightStepY(q: Quat, u: Vec3, v: Vec3, s0: Vec3, s1: Vec3)
    requires s0.x == q.w * q.w * u.x + 2.0 * q.w * q.y * u.z - 2.0 * q.w * q.z * u.y + q.x * q.x * u.x + 2.0 * q.x * q.y * u.y + 2.0 * q.x * q.z * u.z - q.y * q.y * u.x - q.z * q.z * u.x
    requires s0.y == q.w * q.w * u.y - 2.0 * q.w * q.x * u.z + 2.0 * q.w * q.z * u.x - q.x * q.x * u.y + 2.0 * q.x * q.y * u.x + q.y * q.y * u.y + 2.0 * q.y * q.z * u.z - q.z * q.z * u.y
    requires s0.z == q.w * q.w * u.z + 2.0 * q.w * q.x * u.y - 2.0 * q.w * q.y * u.x - q.x * q.x * u.z + 2.0 * q.x * q.z * u.x - q.y * q.y * u.z + 2.0 * q.y * q.z * u.y + q.z * q.z * u.z
    requires s1.x == q.w * q.w * v.x + 2.0 * q.w * q.y * v.z - 2.0 * q.w * q.z * v.y + q.x * q.x * v.x + 2.0 * q.x * q.y * v.y + 2.0 * q.x * q.z * v.z - q.y * q.y * v.x - q.z * q.z * v.x
    requires s1.y == q.w * q.w * v.y - 2.0 * q.w * q.x * v.z + 2.0 * q.w * q.z * v.x - q.x * q.x * v.y + 2.0 * q.x * q.y * v.x + q.y * q.y * v.y + 2.0 * q.y * q.z * v.z - q.z * q.z * v.y
    requires s1.z == q.w * q.w * v.z + 2.0 * q.w * q.x * v.y - 2.0 * q.w * q.y * v.x - q.x * q.x * v.z + 2.0 * q.x * q.z * v.x - q.y * q.y * v.z + 2.0 * q.y * q.z * v.y + q.z * q.z * v.z
    ensures s0.y + s1.y
         == q.w * q.w * u.y + q.w * q.w * v.y - 2.0 * q.w * q.x * u.z - 2.0 * q.w * q.x * v.z + 2.0 * q.w * q.z * u.x + 2.0 * q.w * q.z * v.x - q.x * q.x * u.y - q.x * q.x * v.y + 2.0 * q.x * q.y * u.x + 2.0 * q.x * q.y * v.x + q.y * q.y * u.y + q.y * q.y * v.y + 2.0 * q.y * q.z * u.z + 2.0 * q.y * q.z * v.z - q.z * q.z * u.y - q.z * q.z * v.y
  {
  }

  lemma RotateSumRightStepZ(q: Quat, u: Vec3, v: Vec3, s0: Vec3, s1: Vec3)
    requires s0.x == q.w * q.w * u.x + 2.0 * q.w * q.y * u.z - 2.0 * q.w * q.z * u.y + q.x * q.x * u.x + 2.0 * q.x * q.y * u.y + 2.0 * q.x * q.z * u.z - q.y * q.y * u.x - q.z * q.z * u.x
    requires s0.y == q.w * q.w * u.y - 2.0 * q.w * q.x * u.z + 2.0 * q.w * q.z * u.x - q.x * q.x * u.y + 2.0 * q.x * q.y * u.x + q.y * q.y * u.y + 2.0 * q.y * q.z * u.z - q.z * q.z * u.y
    requires s0.z == q.w * q.w * u.z + 2.0 * q.w * q.x * u.y - 2.0 * q.w * q.y * u.x - q.x * q.x * u.z + 2.0 * q.x * q.z * u.x - q.y * q.y * u.z + 2.0 * q.y * q.z * u.y + q.z * q.z * u.z
    requires s1.x == q.w * q.w * v.x + 2.0 * q.w * q.y * v.z - 2.0 * q.w * q.z * v.y + q.x * q.x * v.x + 2.0 * q.x * q.y * v.y + 2.0 * q.x * q.z * v.z - q.y * q.y * v.x - q.z * q.z * v.x
    requires s1.y == q.w * q.w * v.y - 2.0 * q.w * q.x * v.z + 2.0 * q.w * q.z * v.x - q.x * q.x * v.y + 2.0 * q.x * q.y * v.x + q.y * q.y * v.y + 2.0 * q.y * q.z * v.z - q.z * q.z * v.y
    requires s1.z == q.w * q.w * v.z + 2.0 * q.w * q.x * v.y - 2.0 * q.w * q.y * v.x - q.x * q.x * v.z + 2.0 * q.x * q.z * v.x - q.y * q.y * v.z + 2.0 * q.y * q.z * v.y + q.z * q.z * v.z
    ensures s0.z + s1.z
         == q.w * q.w * u.z + q.w * q.w * v.z + 2.0 * q.w * q.x * u.y + 2.0 * q.w * q.x * v.y - 2.0 * q.w * q.y * u.x - 2.0 * q.w * q.y * v.x - q.x * q.x * u.z - q.x * q.x * v.z + 2.0 * q.x * q.z * u.x + 2.0 * q.x * q.z * v.x - q.y * q.y * u.z - q.y * q.y * v.z + 2.0 * q.y * q.z * u.y + 2.0 * q.y * q.z * v.y + q.z * q.z * u.z + q.z * q.z * v.z
  {
  }

  lemma RotateSumRight(q: Quat, u: Vec3, v: Vec3)
    ensures Add(Rotate(q, u), Rotate(q, v)).x
         == q.w * q.w * u.x + q.w * q.w * v.x + 2.0 * q.w * q.y * u.z + 2.0 * q.w * q.y * v.z - 2.0 * q.w * q.z * u.y - 2.0 * q.w * q.z * v.y + q.x * q.x * u.x + q.x * q.x * v.x + 2.0 * q.x * q.y * u.y + 2.0 * q.x * q.y * v.y + 2.0 * q.x * q.z * u.z + 2.0 * q.x * q.z * v.z - q.y * q.y * u.x - q.y * q.y * v.x - q.z * q.z * u.x - q.z * q.z * v.x
    ensures Add(Rotate(q, u), Rotate(q, v)).y
         == q.w * q.w * u.y + q.w * q.w * v.y - 2.0 * q.w * q.x * u.z - 2.0 * q.w * q.x * v.z + 2.0 * q.w * q.z * u.x + 2.0 * q.w * q.z * v.x - q.x * q.x * u.y - q.x * q.x * v.y + 2.0 * q.x * q.y * u.x + 2.0 * q.x * q.y * v.x + q.y * q.y * u.y + q.y * q.y * v.y + 2.0 * q.y * q.z * u.z + 2.0 * q.y * q.z * v.z - q.z * q.z * u.y - q.z * q.z * v.y
    ensures Add(Rotate(q, u), Rotate(q, v)).z
         == q.w * q.w * u.z + q.w * q.w * v.z + 2.0 * q.w * q.x * u.y + 2.0 * q.w * q.x * v.y - 2.0 * q.w * q.y * u.x - 2.0 * q.w * q.y * v.x - q.x * q.x * u.z - q.x * q.x * v.z + 2.0 * q.x * q.z * u.x + 2.0 * q.x * q.z * v.x - q.y * q.y * u.z - q.y * q.y * v.z + 2.0 * q.y * q.z * u.y + 2.0 * q.y * q.z * v.y + q.z * q.z * u.z + q.z * q.z * v.z
  {
    RotateSumRightArg0(q, u);
    var s0 := Rotate(q, u);
    RotateSumRightArg1(q, v);
    var s1 := Rotate(q, v);
    AddParts(s0, s1);
    RotateSumRightStepX(q, u, v, s0, s1);
    RotateSumRightStepY(q, u, v, s0, s1);
    RotateSumRightStepZ(q, u, v, s0, s1);
  }

  lemma NegParts(u: Vec3)
    ensures Neg(u).x == -u.x
    ensures Neg(u).y == -u.y
    ensures Neg(u).z == -u.z
  {
  }

  lemma RotateNegLeftArg1StepX(v: Vec3)
    ensures -v.x
         == -(v.x)
  {
  }

  lemma RotateNegLeftArg1StepY(v: Vec3)
    ensures -v.y
         == -(v.y)
  {
  }

  lemma RotateNegLeftArg1StepZ(v: Vec3)
    ensures -v.z
         == -(v.z)
  {
  }

  lemma RotateNegLeftArg1(v: Vec3)
    ensures Neg(v).x
         == -(v.x)
    ensures Neg(v).y
         == -(v.y)
    ensures Neg(v).z
         == -(v.z)
  {
    NegParts(v);
    RotateNegLeftArg1StepX(v);
    RotateNegLeftArg1StepY(v);
    RotateNegLeftArg1StepZ(v);
  }

  lemma RotateNegLeftStepX(q: Quat, v: Vec3, s1: Vec3)
    requires s1.x == -(v.x)
    requires s1.y == -(v.y)
    requires s1.z == -(v.z)
    ensures q.w * q.w * s1.x + 2.0 * q.w * q.y * s1.z - 2.0 * q.w * q.z * s1.y + q.x * q.x * s1.x + 2.0 * q.x * q.y * s1.y + 2.0 * q.x * q.z * s1.z - q.y * q.y * s1.x - q.z * q.z * s1.x
         == -(q.w * q.w * v.x) - 2.0 * q.w * q.y * v.z + 2.0 * q.w * q.z * v.y - q.x * q.x * v.x - 2.0 * q.x * q.y * v.y - 2.0 * q.x * q.z * v.z + q.y * q.y * v.x + q.z * q.z * v.x
  {
  }

  lemma RotateNegLeftStepY(q: Quat, v: Vec3, s1: Vec3)
    requires s1.x == -(v.x)
    requires s1.y == -(v.y)
    requires s1.z == -(v.z)
    ensures q.w * q.w * s1.y - 2.0 * q.w * q.x * s1.z + 2.0 * q.w * q.z * s1.x - q.x * q.x * s1.y + 2.0 * q.x * q.y * s1.x + q.y * q.y * s1.y + 2.0 * q.y * q.z * s1.z - q.z * q.z * s1.y
         == -(q.w * q.w * v.y) + 2.0 * q.w * q.x * v.z - 2.0 * q.w * q.z * v.x + q.x * q.x * v.y - 2.0 * q.x * q.y * v.x - q.y * q.y * v.y - 2.0 * q.y * q.z * v.z + q.z * q.z * v.y
  {
  }

  lemma RotateNegLeftStepZ(q: Quat, v: Vec3, s1: Vec3)
    requires s1.x == -(v.x)
    requires s1.y == -(v.y)
    requires s1.z == -(v.z)
    ensures q.w * q.w * s1.z + 2.0 * q.w * q.x * s1.y - 2.0 * q.w * q.y * s1.x - q.x * q.x * s1.z + 2.0 * q.x * q.z * s1.x - q.y * q.y * s1.z + 2.0 * q.y * q.z * s1.y + q.z * q.z * s1.z
         == -(q.w * q.w * v.z) - 2.0 * q.w * q.x * v.y + 2.0 * q.w * q.y * v.x + q.x * q.x * v.z - 2.0 * q.x * q.z * v.x + q.y * q.y * v.z - 2.0 * q.y * q.z * v.y - q.z * q.z * v.z
  {
  }

  lemma RotateNegLeft(q: Quat, v: Vec3)
    ensures Rotate(q, Neg(v)).x
         == -(q.w * q.w * v.x) - 2.0 * q.w * q.y * v.z + 2.0 * q.w * q.z * v.y - q.x * q.x * v.x - 2.0 * q.x * q.y * v.y - 2.0 * q.x * q.z * v.z + q.y * q.y * v.x + q.z * q.z * v.x
    ensures Rotate(q, Neg(v)).y
         == -(q.w * q.w * v.y) + 2.0 * q.w * q.x * v.z - 2.0 * q.w * q.z * v.x + q.x * q.x * v.y - 2.0 * q.x * q.y * v.x - q.y * q.y * v.y - 2.0 * q.y * q.z * v.z + q.z * q.z * v.y
    ensures Rotate(q, Neg(v)).z
         == -(q.w * q.w * v.z) - 2.0 * q.w * q.x * v.y + 2.0 * q.w * q.y * v.x + q.x * q.x * v.z - 2.0 * q.x * q.z * v.x + q.y * q.y * v.z - 2.0 * q.y * q.z * v.y - q.z * q.z * v.z
  {
    RotateNegLeftArg1(v);
    var s1 := Neg(v);
    RotateParts(q, s1);
    RotateNegLeftStepX(q, v, s1);
    RotateNegLeftStepY(q, v, s1);
    RotateNegLeftStepZ(q, v, s1);
  }

  lemma RotateNegRightStepX(q: Quat, v: Vec3, s0: Vec3)
    requires s0.x == q.w * q.w * v.x + 2.0 * q.w * q.y * v.z - 2.0 * q.w * q.z * v.y + q.x * q.x * v.x + 2.0 * q.x * q.y * v.y + 2.0 * q.x * q.z * v.z - q.y * q.y * v.x - q.z * q.z * v.x
    requires s0.y == q.w * q.w * v.y - 2.0 * q.w * q.x * v.z + 2.0 * q.w * q.z * v.x - q.x * q.x * v.y + 2.0 * q.x * q.y * v.x + q.y * q.y * v.y + 2.0 * q.y * q.z * v.z - q.z * q.z * v.y
    requires s0.z == q.w * q.w * v.z + 2.0 * q.w * q.x * v.y - 2.0 * q.w * q.y * v.x - q.x * q.x * v.z + 2.0 * q.x * q.z * v.x - q.y * q.y * v.z + 2.0 * q.y * q.z * v.y + q.z * q.z * v.z
    ensures -s0.x
         == -(q.w * q.w * v.x) - 2.0 * q.w * q.y * v.z + 2.0 * q.w * q.z * v.y - q.x * q.x * v.x - 2.0 * q.x * q.y * v.y - 2.0 * q.x * q.z * v.z + q.y * q.y * v.x + q.z * q.z * v.x
  {
  }

  lemma RotateNegRightStepY(q: Quat, v: Vec3, s0: Vec3)
    requires s0.x == q.w * q.w * v.x + 2.0 * q.w * q.y * v.z - 2.0 * q.w * q.z * v.y + q.x * q.x * v.x + 2.0 * q.x * q.y * v.y + 2.0 * q.x * q.z * v.z - q.y * q.y * v.x - q.z * q.z * v.x
    requires s0.y == q.w * q.w * v.y - 2.0 * q.w * q.x * v.z + 2.0 * q.w * q.z * v.x - q.x * q.x * v.y + 2.0 * q.x * q.y * v.x + q.y * q.y * v.y + 2.0 * q.y * q.z * v.z - q.z * q.z * v.y
    requires s0.z == q.w * q.w * v.z + 2.0 * q.w * q.x * v.y - 2.0 * q.w * q.y * v.x - q.x * q.x * v.z + 2.0 * q.x * q.z * v.x - q.y * q.y * v.z + 2.0 * q.y * q.z * v.y + q.z * q.z * v.z
    ensures -s0.y
         == -(q.w * q.w * v.y) + 2.0 * q.w * q.x * v.z - 2.0 * q.w * q.z * v.x + q.x * q.x * v.y - 2.0 * q.x * q.y * v.x - q.y * q.y * v.y - 2.0 * q.y * q.z * v.z + q.z * q.z * v.y
  {
  }

  lemma RotateNegRightStepZ(q: Quat, v: Vec3, s0: Vec3)
    requires s0.x == q.w * q.w * v.x + 2.0 * q.w * q.y * v.z - 2.0 * q.w * q.z * v.y + q.x * q.x * v.x + 2.0 * q.x * q.y * v.y + 2.0 * q.x * q.z * v.z - q.y * q.y * v.x - q.z * q.z * v.x
    requires s0.y == q.w * q.w * v.y - 2.0 * q.w * q.x * v.z + 2.0 * q.w * q.z * v.x - q.x * q.x * v.y + 2.0 * q.x * q.y * v.x + q.y * q.y * v.y + 2.0 * q.y * q.z * v.z - q.z * q.z * v.y
    requires s0.z == q.w * q.w * v.z + 2.0 * q.w * q.x * v.y - 2.0 * q.w * q.y * v.x - q.x * q.x * v.z + 2.0 * q.x * q.z * v.x - q.y * q.y * v.z + 2.0 * q.y * q.z * v.y + q.z * q.z * v.z
    ensures -s0.z
         == -(q.w * q.w * v.z) - 2.0 * q.w * q.x * v.y + 2.0 * q.w * q.y * v.x + q.x * q.x * v.z - 2.0 * q.x * q.z * v.x + q.y * q.y * v.z - 2.0 * q.y * q.z * v.y - q.z * q.z * v.z
  {
  }

  lemma RotateNegRight(q: Quat, v: Vec3)
    ensures Neg(Rotate(q, v)).x
         == -(q.w * q.w * v.x) - 2.0 * q.w * q.y * v.z + 2.0 * q.w * q.z * v.y - q.x * q.x * v.x - 2.0 * q.x * q.y * v.y - 2.0 * q.x * q.z * v.z + q.y * q.y * v.x + q.z * q.z * v.x
    ensures Neg(Rotate(q, v)).y
         == -(q.w * q.w * v.y) + 2.0 * q.w * q.x * v.z - 2.0 * q.w * q.z * v.x + q.x * q.x * v.y - 2.0 * q.x * q.y * v.x - q.y * q.y * v.y - 2.0 * q.y * q.z * v.z + q.z * q.z * v.y
    ensures Neg(Rotate(q, v)).z
         == -(q.w * q.w * v.z) - 2.0 * q.w * q.x * v.y + 2.0 * q.w * q.y * v.x + q.x * q.x * v.z - 2.0 * q.x * q.z * v.x + q.y * q.y * v.z - 2.0 * q.y * q.z * v.y - q.z * q.z * v.z
  {
    RotateSumRightArg1(q, v);
    var s0 := Rotate(q, v);
    NegParts(s0);
    RotateNegRightStepX(q, v, s0);
    RotateNegRightStepY(q, v, s0);
    RotateNegRightStepZ(q, v, s0);
  }

  lemma ZeroParts()
    ensures Zero.x == 0.0
    ensures Zero.y == 0.0
    ensures Zero.z == 0.0
  {
  }

  lemma RotateOfZeroArg1StepX()
    ensures 0.0
         == 0.0
  {
  }

  lemma RotateOfZeroArg1StepY()
    ensures 0.0
         == 0.0
  {
  }

  lemma RotateOfZeroArg1StepZ()
    ensures 0.0
         == 0.0
  {
  }

  lemma RotateOfZeroArg1()
    ensures Zero.x
         == 0.0
    ensures Zero.y
         == 0.0
    ensures Zero.z
         == 0.0
  {
    ZeroParts();
    RotateOfZeroArg1StepX();
    RotateOfZeroArg1StepY();
    RotateOfZeroArg1StepZ();
  }

  lemma RotateOfZeroStepX(q: Quat, s1: Vec3)
    requires s1.x == 0.0
    requires s1.y == 0.0
    requires s1.z == 0.0
    ensures q.w * q.w * s1.x + 2.0 * q.w * q.y * s1.z - 2.0 * q.w * q.z * s1.y + q.x * q.x * s1.x + 2.0 * q.x * q.y * s1.y + 2.0 * q.x * q.z * s1.z - q.y * q.y * s1.x - q.z * q.z * s1.x
         == 0.0
  {
  }

  lemma RotateOfZeroStepY(q: Quat, s1: Vec3)
    requires s1.x == 0.0
    requires s1.y == 0.0
    requires s1.z == 0.0
    ensures q.w * q.w * s1.y - 2.0 * q.w * q.x * s1.z + 2.0 * q.w * q.z * s1.x - q.x * q.x * s1.y + 2.0 * q.x * q.y * s1.x + q.y * q.y * s1.y + 2.0 * q.y * q.z * s1.z - q.z * q.z * s1.y
         == 0.0
  {
  }

  lemma RotateOfZeroStepZ(q: Quat, s1: Vec3)
    requires s1.x == 0.0
    requires s1.y == 0.0
    requires s1.z == 0.0
    ensures q.w * q.w * s1.z + 2.0 * q.w * q.x * s1.y - 2.0 * q.w * q.y * s1.x - q.x * q.x * s1.z + 2.0 * q.x * q.z * s1.x - q.y * q.y * s1.z + 2.0 * q.y * q.z * s1.y + q.z * q.z * s1.z
         == 0.0
  {
  }

  lemma RotateOfZero(q: Quat)
    ensures Rotate(q, Zero).x
         == 0.0
    ensures Rotate(q, Zero).y
         == 0.0
    ensures Rotate(q, Zero).z
         == 0.0
  {
    RotateOfZeroArg1();
    var s1 := Zero;
    RotateParts(q, s1);
    RotateOfZeroStepX(q, s1);
    RotateOfZeroStepY(q, s1);
    RotateOfZeroStepZ(q, s1);
  }
}
