/** Frames as data: the state of each Frame of a table, its world position and
    orientation composed up the reference-frame chain, and the conversions of
    points and vectors between a frame, its reference frame, the world and any
    other frame. A frame is first translated and then rotated with respect to
    its reference frame. */
module Frames {
  import opened Options
  import opened Geometry
  import opened QuatAlgebra
  import opened Hierarchy

  /** The fields of a Frame: t_, q_, referenceFrame_ and constraint_ (as frame
      and constraint indices, None for NULL) and observers_. */
  datatype FrameData = FrameData(translation: Vec3, rotation: Quat, reference: Option<nat>,
                                 constraint: Option<nat>, observers: set<nat>)

  function LinksOf(fs: seq<FrameData>): (links: Links)
    ensures |links| == |fs|
    ensures forall i | 0 <= i < |fs| :: links[i] == fs[i].reference
  {
    seq(|fs|, i requires 0 <= i < |fs| => fs[i].reference)
  }

  /** Every reference is a frame of the table and no chain loops. */
  ghost predicate WellFormed(fs: seq<FrameData>) {
    Acyclic(LinksOf(fs))
  }

  /** Every local rotation is a unit quaternion. */
  predicate AllUnit(fs: seq<FrameData>) {
    forall k | 0 <= k < |fs| :: IsUnit(fs[k].rotation)
  }

  /** fr names a frame of the table, or the world (None). */
  predicate FrameOrWorld(fs: seq<FrameData>, fr: Option<nat>) {
    fr.Some? ==> fr.value < |fs|
  }

  ghost function DepthOf(fs: seq<FrameData>, i: nat): nat
    requires WellFormed(fs) && i < |fs|
  {
    Depth(LinksOf(fs), i)
  }

  lemma ParentCloser(fs: seq<FrameData>, i: nat)
    requires WellFormed(fs) && i < |fs|
    ensures fs[i].reference.Some? ==>
              fs[i].reference.value < |fs| && DepthOf(fs, fs[i].reference.value) < DepthOf(fs, i)
  {
    if fs[i].reference.Some? {
      DepthParent(LinksOf(fs), i);
    }
  }

  /** A frame is not on the chain above its own reference frame. */
  lemma ParentNotBelow(fs: seq<FrameData>, i: nat)
    requires WellFormed(fs) && i < |fs| && fs[i].reference.Some?
    ensures !OnChain(LinksOf(fs), fs[i].reference.value, i)
  {
    var links := LinksOf(fs);
    var j := fs[i].reference.value;
    if OnChain(links, j, i) {
      assert links[i := Some(j)] == links;
      ReparentOntoChainLoops(links, i, j, links);
      assert false;
    }
  }

  /** Tables with the same references have the same links. */
  lemma SameLinks(fs: seq<FrameData>, gs: seq<FrameData>)
    requires |fs| == |gs| && forall m | 0 <= m < |fs| :: fs[m].reference == gs[m].reference
    ensures LinksOf(fs) == LinksOf(gs)
  {
  }

  // Conversions between a frame and its reference frame.

  function LocalCoordinatesOf(f: FrameData, p: Vec3): Vec3 {
    InverseRotate(f.rotation, Sub(p, f.translation))
  }

  function LocalInverseCoordinatesOf(f: FrameData, p: Vec3): Vec3 {
    Add(Rotate(f.rotation, p), f.translation)
  }

  function LocalTransformOf(f: FrameData, v: Vec3): Vec3 {
    InverseRotate(f.rotation, v)
  }

  function LocalInverseTransformOf(f: FrameData, v: Vec3): Vec3 {
    Rotate(f.rotation, v)
  }

  // Conversions between a frame and the world.

  /** inverseCoordinatesOf: a point given in frame i, expressed in the world. */
  function InverseCoordinatesOf(fs: seq<FrameData>, i: nat, p: Vec3): Vec3
    requires WellFormed(fs) && i < |fs|
    decreases DepthOf(fs, i)
  {
    var r := LocalInverseCoordinatesOf(fs[i], p);
    ParentCloser(fs, i);
    match fs[i].reference
    case None => r
    case Some(j) => InverseCoordinatesOf(fs, j, r)
  }

  /** coordinatesOf: a world point, expressed in frame i. */
  function CoordinatesOf(fs: seq<FrameData>, i: nat, p: Vec3): Vec3
    requires WellFormed(fs) && i < |fs|
    decreases DepthOf(fs, i)
  {
    ParentCloser(fs, i);
    match fs[i].reference
    case None => LocalCoordinatesOf(fs[i], p)
    case Some(j) => LocalCoordinatesOf(fs[i], CoordinatesOf(fs, j, p))
  }

  /** inverseTransformOf: a vector given in frame i, expressed in the world. */
  function InverseTransformOf(fs: seq<FrameData>, i: nat, v: Vec3): Vec3
    requires WellFormed(fs) && i < |fs|
    decreases DepthOf(fs, i)
  {
    var r := LocalInverseTransformOf(fs[i], v);
    ParentCloser(fs, i);
    match fs[i].reference
    case None => r
    case Some(j) => InverseTransformOf(fs, j, r)
  }

  /** transformOf: a world vector, expressed in frame i. */
  function TransformOf(fs: seq<FrameData>, i: nat, v: Vec3): Vec3
    requires WellFormed(fs) && i < |fs|
    decreases DepthOf(fs, i)
  {
    ParentCloser(fs, i);
    match fs[i].reference
    case None => LocalTransformOf(fs[i], v)
    case Some(j) => LocalTransformOf(fs[i], TransformOf(fs, j, v))
  }

  /** position(): the world image of the frame's origin. */
  function Position(fs: seq<FrameData>, i: nat): Vec3
    requires WellFormed(fs) && i < |fs|
  {
    InverseCoordinatesOf(fs, i, Zero)
  }

  /** orientation(): the rotations of the chain composed, the world's side
      first. */
  function Orientation(fs: seq<FrameData>, i: nat): Quat
    requires WellFormed(fs) && i < |fs|
    decreases DepthOf(fs, i)
  {
    ParentCloser(fs, i);
    match fs[i].reference
    case None => fs[i].rotation
    case Some(j) => Mul(Orientation(fs, j), fs[i].rotation)
  }

  // The world, or a frame of the table, as the target or source of a
  // conversion: a NULL frame argument denotes the world.

  function ToFrame(fs: seq<FrameData>, fr: Option<nat>, p: Vec3): Vec3
    requires WellFormed(fs) && FrameOrWorld(fs, fr)
  {
    match fr
    case None => p
    case Some(k) => CoordinatesOf(fs, k, p)
  }

  function FromFrame(fs: seq<FrameData>, fr: Option<nat>, p: Vec3): Vec3
    requires WellFormed(fs) && FrameOrWorld(fs, fr)
  {
    match fr
    case None => p
    case Some(k) => InverseCoordinatesOf(fs, k, p)
  }

  function ToFrameVector(fs: seq<FrameData>, fr: Option<nat>, v: Vec3): Vec3
    requires WellFormed(fs) && FrameOrWorld(fs, fr)
  {
    match fr
    case None => v
    case Some(k) => TransformOf(fs, k, v)
  }

  function FromFrameVector(fs: seq<FrameData>, fr: Option<nat>, v: Vec3): Vec3
    requires WellFormed(fs) && FrameOrWorld(fs, fr)
  {
    match fr
    case None => v
    case Some(k) => InverseTransformOf(fs, k, v)
  }

  // Conversions between two frames.

  /** coordinatesOfIn(src, in) on frame i: climbs from i towards the world,
      stops early when it meets in, and otherwise converts the world point
      into in. */
  function CoordinatesOfIn(fs: seq<FrameData>, i: nat, p: Vec3, target: Option<nat>): Vec3
    requires WellFormed(fs) && i < |fs| && FrameOrWorld(fs, target)
  {
    ClimbCoordinates(fs, Some(i), p, target)
  }

  function ClimbCoordinates(fs: seq<FrameData>, fr: Option<nat>, res: Vec3, target: Option<nat>): Vec3
    requires WellFormed(fs) && FrameOrWorld(fs, fr) && FrameOrWorld(fs, target)
    decreases if fr.Some? then DepthOf(fs, fr.value) + 1 else 0
  {
    if fr.Some? && fr != target then
      ParentCloser(fs, fr.value);
      ClimbCoordinates(fs, fs[fr.value].reference, LocalInverseCoordinatesOf(fs[fr.value], res), target)
    else if fr != target then ToFrame(fs, target, res)
    else res
  }

  /** transformOfIn(src, in) on frame i, the vector form of CoordinatesOfIn. */
  function TransformOfIn(fs: seq<FrameData>, i: nat, v: Vec3, target: Option<nat>): Vec3
    requires WellFormed(fs) && i < |fs| && FrameOrWorld(fs, target)
  {
    ClimbTransform(fs, Some(i), v, target)
  }

  function ClimbTransform(fs: seq<FrameData>, fr: Option<nat>, res: Vec3, target: Option<nat>): Vec3
    requires WellFormed(fs) && FrameOrWorld(fs, fr) && FrameOrWorld(fs, target)
    decreases if fr.Some? then DepthOf(fs, fr.value) + 1 else 0
  {
    if fr.Some? && fr != target then
      ParentCloser(fs, fr.value);
      ClimbTransform(fs, fs[fr.value].reference, LocalInverseTransformOf(fs[fr.value], res), target)
    else if fr != target then ToFrameVector(fs, target, res)
    else res
  }

  /** coordinatesOfFrom(src, from) on frame i: src is given in from; the
      result is its coordinates in i. */
  function CoordinatesOfFrom(fs: seq<FrameData>, i: nat, p: Vec3, source: Option<nat>): Vec3
    requires WellFormed(fs) && i < |fs| && FrameOrWorld(fs, source)
    decreases DepthOf(fs, i)
  {
    ParentCloser(fs, i);
    if Some(i) == source then p
    else match fs[i].reference
      case Some(j) => LocalCoordinatesOf(fs[i], CoordinatesOfFrom(fs, j, p, source))
      case None => LocalCoordinatesOf(fs[i], FromFrame(fs, source, p))
  }

  /** transformOfFrom(src, from) on frame i, the vector form of
      CoordinatesOfFrom. */
  function TransformOfFrom(fs: seq<FrameData>, i: nat, v: Vec3, source: Option<nat>): Vec3
    requires WellFormed(fs) && i < |fs| && FrameOrWorld(fs, source)
    decreases DepthOf(fs, i)
  {
    ParentCloser(fs, i);
    if Some(i) == source then v
    else match fs[i].reference
      case Some(j) => LocalTransformOf(fs[i], TransformOfFrom(fs, j, v, source))
      case None => LocalTransformOf(fs[i], FromFrameVector(fs, source, v))
  }

  // Inverses

  /** worldInverse(): a frame in the world whose transformation undoes the
      world transformation of frame i. */
  function WorldInverse(fs: seq<FrameData>, i: nat): (r: FrameData)
    requires WellFormed(fs) && i < |fs|
    ensures r.reference.None? && r.constraint.None? && r.observers == {}
  {
    FrameData(Neg(InverseRotate(Orientation(fs, i), Position(fs, i))), Inverse(Orientation(fs, i)),
              None, None, {})
  }

  /** inverse(): a frame with the same reference frame whose local
      transformation undoes the local transformation of f. */
  function LocalInverse(f: FrameData): (r: FrameData)
    ensures r.reference == f.reference && r.constraint.None? && r.observers == {}
  {
    FrameData(Neg(InverseRotate(f.rotation, f.translation)), Inverse(f.rotation), f.reference, None, {})
  }

  // Placing a frame in the world

  /** The translation that puts frame i at world position p: setPosition. */
  function TranslationFor(fs: seq<FrameData>, i: nat, p: Vec3): Vec3
    requires WellFormed(fs) && i < |fs|
  {
    ParentCloser(fs, i);
    match fs[i].reference
    case None => p
    case Some(j) => CoordinatesOf(fs, j, p)
  }

  /** The rotation that gives frame i the world orientation o: setOrientation. */
  function RotationFor(fs: seq<FrameData>, i: nat, o: Quat): Quat
    requires WellFormed(fs) && i < |fs|
  {
    ParentCloser(fs, i);
    match fs[i].reference
    case None => o
    case Some(j) => Mul(Inverse(Orientation(fs, j)), o)
  }

  // ---------------------------------------------------------------------
  // Properties

  /** Without a reference frame, position() is translation() and
      orientation() is rotation(). */
  lemma RootFrame(fs: seq<FrameData>, i: nat)
    requires WellFormed(fs) && i < |fs| && fs[i].reference.None?
    ensures Position(fs, i) == fs[i].translation
    ensures Orientation(fs, i) == fs[i].rotation
  {
    RotateZero(fs[i].rotation);
  }

  /** The defining equations of a child frame (one unfolding of Position and
      Orientation): with a reference frame j, frame i sits at the point of j
      given by its translation, and is oriented by j's orientation followed
      by its rotation. ChildPosition states the same in world terms. */
  lemma ChildFrame(fs: seq<FrameData>, i: nat)
    requires WellFormed(fs) && i < |fs| && fs[i].reference.Some?
    ensures fs[i].reference.value < |fs|
    ensures Position(fs, i) == InverseCoordinatesOf(fs, fs[i].reference.value, fs[i].translation)
    ensures Orientation(fs, i) == Mul(Orientation(fs, fs[i].reference.value), fs[i].rotation)
  {
    ParentCloser(fs, i);
    RotateZero(fs[i].rotation);
    assert Add(Zero, fs[i].translation) == fs[i].translation;
  }

  /** The world transformation of a frame is: rotate by orientation(), then
      translate by position(). */
  lemma {:induction false} WorldComposition(fs: seq<FrameData>, i: nat, p: Vec3, v: Vec3)
    requires WellFormed(fs) && i < |fs|
    ensures InverseCoordinatesOf(fs, i, p) == Add(Rotate(Orientation(fs, i), p), Position(fs, i))
    ensures InverseTransformOf(fs, i, v) == Rotate(Orientation(fs, i), v)
    decreases DepthOf(fs, i)
  {
    var f := fs[i];
    RotateZero(f.rotation);
    assert Add(Zero, f.translation) == f.translation;
    ParentCloser(fs, i);
    match f.reference
    case None =>
    case Some(j) =>
      var o := Orientation(fs, j);
      var q := Rotate(f.rotation, p);
      WorldComposition(fs, j, Add(q, f.translation), Rotate(f.rotation, v));
      WorldComposition(fs, j, f.translation, v);
      RotateAdd(o, q, f.translation);
      RotateMul(o, f.rotation, p);
      RotateMul(o, f.rotation, v);
  }

  /** The composition law of the hierarchy in one step: a child's position is
      its reference frame's position plus the child's translation rotated by
      the reference frame's orientation. */
  lemma ChildPosition(fs: seq<FrameData>, i: nat)
    requires WellFormed(fs) && i < |fs| && fs[i].reference.Some?
    ensures fs[i].reference.value < |fs|
    ensures var j := fs[i].reference.value;
            Position(fs, i) == Add(Position(fs, j), Rotate(Orientation(fs, j), fs[i].translation))
  {
    var j := fs[i].reference.value;
    ChildFrame(fs, i);
    WorldComposition(fs, j, fs[i].translation, fs[i].translation);
    var a := Rotate(Orientation(fs, j), fs[i].translation);
    assert Add(a, Position(fs, j)) == Add(Position(fs, j), a);
  }

  /** A quarter turn about y, (0, s, 0, s) with s the square root of 1/2,
      takes the x axis to -z. */
  lemma QuarterTurn(s: real)
    requires s * s == 0.5
    ensures Rotate(Quat(0.0, s, 0.0, s), Vec3(1.0, 0.0, 0.0)) == Vec3(0.0, 0.0, -1.0)
  {
    var q := Quat(0.0, s, 0.0, s);
    var pv := Mul(q, Pure(Vec3(1.0, 0.0, 0.0)));
    assert pv == Quat(s, 0.0, -s, 0.0);
    assert Mul(pv, Inverse(q)) == Quat(0.0, 0.0, -2.0 * (s * s), 0.0);
  }

  /** A worked instance: frame 0 is in the world, turned a quarter turn about
      y; frame 1 is at (1,0,0) in frame 0. Then frame 1 is at (0,0,-1) in the
      world. */
  lemma QuarterTurnChild(s: real, fs: seq<FrameData>)
    requires s * s == 0.5
    requires |fs| == 2
    requires fs[0].translation == Zero && fs[0].rotation == Quat(0.0, s, 0.0, s) && fs[0].reference == None
    requires fs[1].translation == Vec3(1.0, 0.0, 0.0) && fs[1].reference == Some(0)
    ensures WellFormed(fs)
    ensures Position(fs, 1) == Vec3(0.0, 0.0, -1.0)
  {
    TwoFramesWellFormed(fs);
    RootFrame(fs, 0);
    QuarterTurn(s);
    ChildPosition(fs, 1);
  }

  lemma TwoFramesWellFormed(fs: seq<FrameData>)
    requires |fs| == 2 && fs[0].reference == None && fs[1].reference == Some(0)
    ensures WellFormed(fs)
  {
    var links := LinksOf(fs);
    assert Up(links, 0, 1) == None;
    assert Up(links, 1, 2) == None;
    assert ReachesWorld(links, 0) && ReachesWorld(links, 1);
  }

  lemma OrientationUnit(fs: seq<FrameData>, i: nat)
    requires WellFormed(fs) && AllUnit(fs) && i < |fs|
    ensures IsUnit(Orientation(fs, i))
    decreases DepthOf(fs, i)
  {
    ParentCloser(fs, i);
    match fs[i].reference
    case None =>
    case Some(j) =>
      OrientationUnit(fs, j);
      UnitProduct(Orientation(fs, j), fs[i].rotation);
  }

  /** A rigid motion (rotate by q, translate by t) is undone by: translate by
      -t, rotate by q^-1, in the form inverse() and worldInverse() build. */
  lemma RigidInverse(q: Quat, t: Vec3, x: Vec3)
    requires IsUnit(q)
    ensures Add(InverseRotate(q, Add(Rotate(q, x), t)), Neg(InverseRotate(q, t))) == x
    ensures Add(Rotate(q, Add(InverseRotate(q, x), Neg(InverseRotate(q, t)))), t) == x
  {
    RotateRoundTrip(q, x);
    RotateRoundTrip(q, t);
    RotateAdd(Inverse(q), Rotate(q, x), t);
    RotateAdd(q, InverseRotate(q, x), Neg(InverseRotate(q, t)));
    RotateNeg(q, InverseRotate(q, t));
  }

  /** The local conversions and their inverses undo each other. */
  lemma LocalRoundTrip(f: FrameData, p: Vec3, v: Vec3)
    requires IsUnit(f.rotation)
    ensures LocalCoordinatesOf(f, LocalInverseCoordinatesOf(f, p)) == p
    ensures LocalInverseCoordinatesOf(f, LocalCoordinatesOf(f, p)) == p
    ensures LocalTransformOf(f, LocalInverseTransformOf(f, v)) == v
    ensures LocalInverseTransformOf(f, LocalTransformOf(f, v)) == v
  {
    assert Sub(Add(Rotate(f.rotation, p), f.translation), f.translation) == Rotate(f.rotation, p);
    assert Add(Sub(p, f.translation), f.translation) == p;
    RotateRoundTrip(f.rotation, p);
    RotateRoundTrip(f.rotation, Sub(p, f.translation));
    RotateRoundTrip(f.rotation, v);
  }

  /** The local vector conversions keep lengths. */
  lemma LocalLength(f: FrameData, v: Vec3)
    requires IsUnit(f.rotation)
    ensures SqNorm(LocalTransformOf(f, v)) == SqNorm(v)
    ensures SqNorm(LocalInverseTransformOf(f, v)) == SqNorm(v)
  {
    RotateLength(f.rotation, v);
  }

  /** coordinatesOf and inverseCoordinatesOf undo each other, in both orders. */
  lemma {:induction false} CoordinatesRoundTrip(fs: seq<FrameData>, i: nat, p: Vec3)
    requires WellFormed(fs) && AllUnit(fs) && i < |fs|
    ensures CoordinatesOf(fs, i, InverseCoordinatesOf(fs, i, p)) == p
    ensures InverseCoordinatesOf(fs, i, CoordinatesOf(fs, i, p)) == p
    decreases DepthOf(fs, i)
  {
    var f := fs[i];
    ParentCloser(fs, i);
    match f.reference
    case None =>
      LocalRoundTrip(f, p, p);
    case Some(j) =>
      CoordinatesRoundTrip(fs, j, LocalInverseCoordinatesOf(f, p));
      CoordinatesRoundTrip(fs, j, p);
      LocalRoundTrip(f, p, p);
      LocalRoundTrip(f, CoordinatesOf(fs, j, p), p);
  }

  /** transformOf and inverseTransformOf undo each other, in both orders. */
  lemma {:induction false} TransformRoundTrip(fs: seq<FrameData>, i: nat, v: Vec3)
    requires WellFormed(fs) && AllUnit(fs) && i < |fs|
    ensures TransformOf(fs, i, InverseTransformOf(fs, i, v)) == v
    ensures InverseTransformOf(fs, i, TransformOf(fs, i, v)) == v
    decreases DepthOf(fs, i)
  {
    var f := fs[i];
    ParentCloser(fs, i);
    match f.reference
    case None =>
      LocalRoundTrip(f, v, v);
    case Some(j) =>
      TransformRoundTrip(fs, j, LocalInverseTransformOf(f, v));
      TransformRoundTrip(fs, j, v);
      LocalRoundTrip(f, v, v);
      LocalRoundTrip(f, v, TransformOf(fs, j, v));
  }

  /** transformOf and inverseTransformOf keep the length of the vector. */
  lemma {:induction false} TransformLength(fs: seq<FrameData>, i: nat, v: Vec3)
    requires WellFormed(fs) && AllUnit(fs) && i < |fs|
    ensures SqNorm(TransformOf(fs, i, v)) == SqNorm(v)
    ensures SqNorm(InverseTransformOf(fs, i, v)) == SqNorm(v)
    decreases DepthOf(fs, i)
  {
    var f := fs[i];
    ParentCloser(fs, i);
    match f.reference
    case None =>
      LocalLength(f, v);
    case Some(j) =>
      TransformLength(fs, j, v);
      TransformLength(fs, j, LocalInverseTransformOf(f, v));
      LocalLength(f, v);
      LocalLength(f, TransformOf(fs, j, v));
  }

  lemma FrameRoundTrip(fs: seq<FrameData>, fr: Option<nat>, p: Vec3, v: Vec3)
    requires WellFormed(fs) && AllUnit(fs) && FrameOrWorld(fs, fr)
    ensures FromFrame(fs, fr, ToFrame(fs, fr, p)) == p
    ensures ToFrame(fs, fr, FromFrame(fs, fr, p)) == p
    ensures FromFrameVector(fs, fr, ToFrameVector(fs, fr, v)) == v
    ensures ToFrameVector(fs, fr, FromFrameVector(fs, fr, v)) == v
    ensures SqNorm(ToFrameVector(fs, fr, v)) == SqNorm(v)
    ensures SqNorm(FromFrameVector(fs, fr, v)) == SqNorm(v)
  {
    if fr.Some? {
      CoordinatesRoundTrip(fs, fr.value, p);
      TransformRoundTrip(fs, fr.value, v);
      TransformLength(fs, fr.value, v);
    }
  }

  /** Climbing towards target and stopping there gives the same point as going
      all the way to the world and converting into target. */
  lemma {:induction false} ClimbCoordinatesViaWorld(fs: seq<FrameData>, fr: Option<nat>, res: Vec3, target: Option<nat>)
    requires WellFormed(fs) && AllUnit(fs) && FrameOrWorld(fs, fr) && FrameOrWorld(fs, target)
    ensures ClimbCoordinates(fs, fr, res, target) == ToFrame(fs, target, FromFrame(fs, fr, res))
    decreases if fr.Some? then DepthOf(fs, fr.value) + 1 else 0
  {
    if fr.Some? && fr != target {
      ParentCloser(fs, fr.value);
      ClimbCoordinatesViaWorld(fs, fs[fr.value].reference, LocalInverseCoordinatesOf(fs[fr.value], res), target);
    } else if fr == target {
      FrameRoundTrip(fs, fr, res, res);
    }
  }

  lemma {:induction false} ClimbTransformViaWorld(fs: seq<FrameData>, fr: Option<nat>, res: Vec3, target: Option<nat>)
    requires WellFormed(fs) && AllUnit(fs) && FrameOrWorld(fs, fr) && FrameOrWorld(fs, target)
    ensures ClimbTransform(fs, fr, res, target) == ToFrameVector(fs, target, FromFrameVector(fs, fr, res))
    decreases if fr.Some? then DepthOf(fs, fr.value) + 1 else 0
  {
    if fr.Some? && fr != target {
      ParentCloser(fs, fr.value);
      ClimbTransformViaWorld(fs, fs[fr.value].reference, LocalInverseTransformOf(fs[fr.value], res), target);
    } else if fr == target {
      FrameRoundTrip(fs, fr, res, res);
    }
  }

  /** coordinatesOfFrom and transformOfFrom go through the world. */
  lemma {:induction false} FromViaWorld(fs: seq<FrameData>, i: nat, p: Vec3, v: Vec3, source: Option<nat>)
    requires WellFormed(fs) && AllUnit(fs) && i < |fs| && FrameOrWorld(fs, source)
    ensures CoordinatesOfFrom(fs, i, p, source) == CoordinatesOf(fs, i, FromFrame(fs, source, p))
    ensures TransformOfFrom(fs, i, v, source) == TransformOf(fs, i, FromFrameVector(fs, source, v))
    decreases DepthOf(fs, i)
  {
    ParentCloser(fs, i);
    if Some(i) == source {
      CoordinatesRoundTrip(fs, i, p);
      TransformRoundTrip(fs, i, v);
    } else if fs[i].reference.Some? {
      FromViaWorld(fs, fs[i].reference.value, p, v, source);
    }
  }

  /** coordinatesOfIn and transformOfIn go through the world. */
  lemma InViaWorld(fs: seq<FrameData>, i: nat, p: Vec3, v: Vec3, target: Option<nat>)
    requires WellFormed(fs) && AllUnit(fs) && i < |fs| && FrameOrWorld(fs, target)
    ensures CoordinatesOfIn(fs, i, p, target) == ToFrame(fs, target, InverseCoordinatesOf(fs, i, p))
    ensures TransformOfIn(fs, i, v, target) == ToFrameVector(fs, target, InverseTransformOf(fs, i, v))
  {
    ClimbCoordinatesViaWorld(fs, Some(i), p, target);
    ClimbTransformViaWorld(fs, Some(i), v, target);
  }

  /** coordinatesOfIn(., other) and coordinatesOfFrom(., other) undo each
      other, in both orders, and so do the vector forms. */
  lemma InFromRoundTrip(fs: seq<FrameData>, i: nat, p: Vec3, v: Vec3, other: Option<nat>)
    requires WellFormed(fs) && AllUnit(fs) && i < |fs| && FrameOrWorld(fs, other)
    ensures CoordinatesOfFrom(fs, i, CoordinatesOfIn(fs, i, p, other), other) == p
    ensures CoordinatesOfIn(fs, i, CoordinatesOfFrom(fs, i, p, other), other) == p
    ensures TransformOfFrom(fs, i, TransformOfIn(fs, i, v, other), other) == v
    ensures TransformOfIn(fs, i, TransformOfFrom(fs, i, v, other), other) == v
  {
    var pi := CoordinatesOfIn(fs, i, p, other);
    var pf := CoordinatesOfFrom(fs, i, p, other);
    var vi := TransformOfIn(fs, i, v, other);
    var vf := TransformOfFrom(fs, i, v, other);
    InViaWorld(fs, i, p, v, other);
    InViaWorld(fs, i, pf, vf, other);
    FromViaWorld(fs, i, pi, vi, other);
    FromViaWorld(fs, i, p, v, other);
    FrameRoundTrip(fs, other, InverseCoordinatesOf(fs, i, p), InverseTransformOf(fs, i, v));
    FrameRoundTrip(fs, other, p, v);
    CoordinatesRoundTrip(fs, i, p);
    CoordinatesRoundTrip(fs, i, FromFrame(fs, other, p));
    TransformRoundTrip(fs, i, v);
    TransformRoundTrip(fs, i, FromFrameVector(fs, other, v));
  }

  /** transformOfIn and transformOfFrom keep the length of the vector. */
  lemma InFromLength(fs: seq<FrameData>, i: nat, v: Vec3, other: Option<nat>)
    requires WellFormed(fs) && AllUnit(fs) && i < |fs| && FrameOrWorld(fs, other)
    ensures SqNorm(TransformOfIn(fs, i, v, other)) == SqNorm(v)
    ensures SqNorm(TransformOfFrom(fs, i, v, other)) == SqNorm(v)
  {
    InViaWorld(fs, i, v, v, other);
    FromViaWorld(fs, i, v, v, other);
    TransformLength(fs, i, v);
    TransformLength(fs, i, FromFrameVector(fs, other, v));
    FrameRoundTrip(fs, other, v, InverseTransformOf(fs, i, v));
    FrameRoundTrip(fs, other, v, v);
  }

  /** The frame worldInverse() returns, used as a transformation, undoes the
      world transformation of frame i, on either side. */
  lemma WorldInverseUndoes(fs: seq<FrameData>, i: nat, p: Vec3, v: Vec3)
    requires WellFormed(fs) && AllUnit(fs) && i < |fs|
    ensures LocalInverseCoordinatesOf(WorldInverse(fs, i), InverseCoordinatesOf(fs, i, p)) == p
    ensures InverseCoordinatesOf(fs, i, LocalInverseCoordinatesOf(WorldInverse(fs, i), p)) == p
    ensures LocalInverseTransformOf(WorldInverse(fs, i), InverseTransformOf(fs, i, v)) == v
    ensures InverseTransformOf(fs, i, LocalInverseTransformOf(WorldInverse(fs, i), v)) == v
  {
    var o := Orientation(fs, i);
    var w := WorldInverse(fs, i);
    OrientationUnit(fs, i);
    WorldComposition(fs, i, p, v);
    WorldComposition(fs, i, LocalInverseCoordinatesOf(w, p), LocalInverseTransformOf(w, v));
    RigidInverse(o, Position(fs, i), p);
    RotateRoundTrip(o, v);
  }

  /** The frame inverse() returns, used as a local transformation, undoes the
      local transformation of f, on either side. */
  lemma LocalInverseUndoes(f: FrameData, p: Vec3, v: Vec3)
    requires IsUnit(f.rotation)
    ensures LocalInverseCoordinatesOf(LocalInverse(f), LocalInverseCoordinatesOf(f, p)) == p
    ensures LocalInverseCoordinatesOf(f, LocalInverseCoordinatesOf(LocalInverse(f), p)) == p
    ensures LocalInverseTransformOf(LocalInverse(f), LocalInverseTransformOf(f, v)) == v
    ensures LocalInverseTransformOf(f, LocalInverseTransformOf(LocalInverse(f), v)) == v
  {
    RigidInverse(f.rotation, f.translation, p);
    RotateRoundTrip(f.rotation, v);
  }

  /** Changing the translation or rotation of frame i leaves orientation(),
      position() and the conversions to and from the world of every frame
      that is not below i unchanged. */
  lemma {:induction false} Unaffected(fs: seq<FrameData>, gs: seq<FrameData>, i: nat, k: nat, p: Vec3, v: Vec3)
    requires WellFormed(fs) && i < |fs| && k < |fs| && |gs| == |fs|
    requires forall m | 0 <= m < |fs| && m != i :: gs[m] == fs[m]
    requires gs[i].reference == fs[i].reference
    requires !OnChain(LinksOf(fs), k, i)
    ensures WellFormed(gs)
    ensures Orientation(gs, k) == Orientation(fs, k)
    ensures InverseCoordinatesOf(gs, k, p) == InverseCoordinatesOf(fs, k, p)
    ensures CoordinatesOf(gs, k, p) == CoordinatesOf(fs, k, p)
    ensures InverseTransformOf(gs, k, v) == InverseTransformOf(fs, k, v)
    ensures TransformOf(gs, k, v) == TransformOf(fs, k, v)
    decreases DepthOf(fs, k)
  {
    SameLinks(fs, gs);
    OnChainStep(LinksOf(fs), k, i);
    ParentCloser(fs, k);
    ParentCloser(gs, k);
    assert gs[k] == fs[k];
    match fs[k].reference
    case None =>
    case Some(j) =>
      var f := fs[k];
      Unaffected(fs, gs, i, j, LocalInverseCoordinatesOf(f, p), LocalInverseTransformOf(f, v));
      Unaffected(fs, gs, i, j, p, v);
  }

  /** setPosition(p): giving frame i the translation TranslationFor(p) puts
      it at world position p, whatever its rotation. */
  lemma PlacedPosition(fs: seq<FrameData>, i: nat, p: Vec3, q: Quat)
    requires WellFormed(fs) && AllUnit(fs) && i < |fs|
    ensures WellFormed(fs[i := fs[i].(translation := TranslationFor(fs, i, p), rotation := q)])
    ensures Position(fs[i := fs[i].(translation := TranslationFor(fs, i, p), rotation := q)], i) == p
  {
    var t := TranslationFor(fs, i, p);
    var gs := fs[i := fs[i].(translation := t, rotation := q)];
    SameLinks(fs, gs);
    RotateZero(q);
    assert Add(Zero, t) == t;
    ParentCloser(fs, i);
    match fs[i].reference
    case None =>
    case Some(j) =>
      ParentNotBelow(fs, i);
      Unaffected(fs, gs, i, j, t, t);
      CoordinatesRoundTrip(fs, j, p);
  }

  /** setOrientation(o): giving frame i the rotation RotationFor(o) gives it
      world orientation o, whatever its translation. */
  lemma PlacedOrientation(fs: seq<FrameData>, i: nat, t: Vec3, o: Quat)
    requires WellFormed(fs) && AllUnit(fs) && i < |fs|
    ensures WellFormed(fs[i := fs[i].(translation := t, rotation := RotationFor(fs, i, o))])
    ensures Orientation(fs[i := fs[i].(translation := t, rotation := RotationFor(fs, i, o))], i) == o
  {
    var gs := fs[i := fs[i].(translation := t, rotation := RotationFor(fs, i, o))];
    SameLinks(fs, gs);
    ParentCloser(fs, i);
    match fs[i].reference
    case None =>
    case Some(j) =>
      var oj := Orientation(fs, j);
      ParentNotBelow(fs, i);
      Unaffected(fs, gs, i, j, t, t);
      OrientationUnit(fs, j);
      UnitMulInverse(oj);
      MulAssoc(oj, Inverse(oj), o);
      MulIdentity(o);
  }

  lemma AppendWellFormed(fs: seq<FrameData>, f: FrameData)
    requires WellFormed(fs) && FrameOrWorld(fs, f.reference)
    ensures WellFormed(fs + [f])
  {
    assert LinksOf(fs + [f]) == LinksOf(fs) + [f.reference];
    AppendKeepsAcyclic(LinksOf(fs), f.reference);
  }

  /** Appending a frame whose reference is the world or an existing frame
      leaves orientation() and the conversions to and from the world of the
      frames already there unchanged. */
  lemma {:induction false} AppendUnaffected(fs: seq<FrameData>, f: FrameData, k: nat, p: Vec3, v: Vec3)
    requires WellFormed(fs) && FrameOrWorld(fs, f.reference) && k < |fs|
    ensures WellFormed(fs + [f])
    ensures Orientation(fs + [f], k) == Orientation(fs, k)
    ensures InverseCoordinatesOf(fs + [f], k, p) == InverseCoordinatesOf(fs, k, p)
    ensures CoordinatesOf(fs + [f], k, p) == CoordinatesOf(fs, k, p)
    ensures InverseTransformOf(fs + [f], k, v) == InverseTransformOf(fs, k, v)
    ensures TransformOf(fs + [f], k, v) == TransformOf(fs, k, v)
    decreases DepthOf(fs, k)
  {
    var gs := fs + [f];
    AppendWellFormed(fs, f);
    assert gs[k] == fs[k];
    ParentCloser(fs, k);
    ParentCloser(gs, k);
    match fs[k].reference
    case None =>
    case Some(j) =>
      AppendUnaffected(fs, f, j, LocalInverseCoordinatesOf(fs[k], p), LocalInverseTransformOf(fs[k], v));
      AppendUnaffected(fs, f, j, p, v);
  }

  /** Two frames with the same translation, rotation and reference frame have
      the same world position and orientation. */
  lemma SamePlacement(fs: seq<FrameData>, a: nat, b: nat)
    requires WellFormed(fs) && a < |fs| && b < |fs|
    requires fs[a].translation == fs[b].translation && fs[a].rotation == fs[b].rotation
    requires fs[a].reference == fs[b].reference
    ensures Position(fs, a) == Position(fs, b)
    ensures Orientation(fs, a) == Orientation(fs, b)
  {
    ParentCloser(fs, a);
    ParentCloser(fs, b);
  }
}
