/** The frames of a scene as one mutable table. A Frame object is an index
    into it; its methods become methods of the table that name the frame. The
    table also keeps the log of observer notifications. The hierarchy stays a
    forest (Valid) across every method. */
module Table {
  import opened Options
  import opened Geometry
  import opened QuatAlgebra
  import opened Hierarchy
  import opened Observers
  import opened Frames

  /** constrainTranslation(t, fr) of constraint c: the filtered translation,
      given the table and the frame fr it is applied to. */
  type TranslationFilter = (nat, seq<FrameData>, nat, Vec3) -> Vec3

  /** constrainRotation(q, fr) of constraint c. */
  type RotationFilter = (nat, seq<FrameData>, nat, Quat) -> Quat

  class FrameTable {
    var frames: seq<FrameData>
    var log: multiset<Notice>
    const constrainTranslation: TranslationFilter
    const constrainRotation: RotationFilter

    ghost predicate Valid()
      reads this
    {
      WellFormed(frames)
    }

    constructor(constrainTranslation: TranslationFilter, constrainRotation: RotationFilter)
      ensures Valid() && frames == [] && log == multiset{}
      ensures this.constrainTranslation == constrainTranslation
      ensures this.constrainRotation == constrainRotation
    {
      this.constrainTranslation := constrainTranslation;
      this.constrainRotation := constrainRotation;
      frames := [];
      log := multiset{};
      new;
      assert Acyclic(LinksOf([]));
    }

    /** The translation frame i actually applies when asked to move by t: the
        constraint's filter, or t itself when there is no constraint. */
    function FilteredTranslation(i: nat, t: Vec3): Vec3
      reads this
      requires i < |frames|
    {
      match frames[i].constraint
      case None => t
      case Some(c) => constrainTranslation(c, frames, i, t)
    }

    /** The rotation frame i actually applies when asked to rotate by q. */
    function FilteredRotation(i: nat, q: Quat): Quat
      reads this
      requires i < |frames|
    {
      match frames[i].constraint
      case None => q
      case Some(c) => constrainRotation(c, frames, i, q)
    }

    /** frameModified(): tells every observer of frame i, once each. */
    method FrameModified(i: nat)
      requires i < |frames|
      modifies this
      ensures frames == old(frames)
      ensures log == old(log) + NoticesOf(i, frames[i].observers)
    {
      log := Notify(log, i, frames[i].observers);
    }

    /** Replaces frame i by f, which keeps i's reference frame. */
    method Update(i: nat, f: FrameData)
      requires Valid() && i < |frames| && f.reference == frames[i].reference
      modifies this
      ensures Valid()
      ensures frames == old(frames)[i := f] && log == old(log)
    {
      SameLinks(frames, frames[i := f]);
      frames := frames[i := f];
    }

    method Append(f: FrameData) returns (id: nat)
      requires Valid() && FrameOrWorld(frames, f.reference)
      modifies this
      ensures Valid()
      ensures id == |old(frames)| && frames == old(frames) + [f] && log == old(log)
    {
      AppendWellFormed(frames, f);
      id := |frames|;
      frames := frames + [f];
    }

    // Construction

    /** Frame(): a new frame in the world, at the origin, not rotated, with no
        constraint and no observer. */
    method AddFrame() returns (id: nat)
      requires Valid()
      modifies this
      ensures Valid()
      ensures id == |old(frames)| && log == old(log)
      ensures frames == old(frames) + [FrameData(Zero, Identity, None, None, {})]
      ensures Position(frames, id) == Zero && Orientation(frames, id) == Identity
    {
      id := Append(FrameData(Zero, Identity, None, None, {}));
      RootFrame(frames, id);
    }

    /** Frame(position, orientation): a new frame in the world, placed at
        position with orientation. */
    method AddFrameAt(position: Vec3, orientation: Quat) returns (id: nat)
      requires Valid()
      modifies this
      ensures Valid()
      ensures id == |old(frames)| && log == old(log)
      ensures frames == old(frames) + [FrameData(position, orientation, None, None, {})]
      ensures Position(frames, id) == position && Orientation(frames, id) == orientation
    {
      id := Append(FrameData(position, orientation, None, None, {}));
      RootFrame(frames, id);
    }

    /** Frame(const Frame&): a new frame with the translation, rotation,
        constraint and reference frame of frame k, and no observer. It is
        placed where k is. */
    method CopyFrame(k: nat) returns (id: nat)
      requires Valid() && k < |frames|
      modifies this
      ensures Valid()
      ensures id == |old(frames)| && log == old(log)
      ensures frames == old(frames) + [old(frames)[k].(observers := {})]
      ensures Position(frames, id) == Position(frames, k)
      ensures Orientation(frames, id) == Orientation(frames, k)
    {
      ParentCloser(frames, k);
      id := Append(frames[k].(observers := {}));
      SamePlacement(frames, id, k);
    }

    /** operator=: frame i takes the translation and rotation (notifying its
        observers), the constraint and the reference frame of frame k; the
        reference frame is not taken when that would create a loop. */
    method Assign(i: nat, k: nat)
      requires Valid() && i < |frames| && k < |frames|
      modifies this
      ensures Valid()
      ensures var src := old(frames)[k];
              var moved := old(frames)[i := old(frames)[i].(translation := src.translation,
                                                            rotation := src.rotation,
                                                            constraint := src.constraint)];
              var loop := src.reference.Some? && OnChain(LinksOf(old(frames)), src.reference.value, i);
              var notices := NoticesOf(i, old(frames)[i].observers);
              if loop || src.reference == old(frames)[i].reference then
                frames == moved && log == old(log) + notices
              else
                frames == moved[i := moved[i].(reference := src.reference)] &&
                log == old(log) + notices + notices
    {
      var src := frames[k];
      SetTranslationAndRotation(i, src.translation, src.rotation);
      SetConstraint(i, src.constraint);
      ParentCloser(old(frames), k);
      SameLinks(old(frames), frames);
      SetReferenceFrame(i, src.reference);
    }

    // Local translation and rotation

    /** setTranslation(t). */
    method SetTranslation(i: nat, t: Vec3)
      requires Valid() && i < |frames|
      modifies this
      ensures Valid()
      ensures frames == old(frames)[i := old(frames)[i].(translation := t)]
      ensures log == old(log) + NoticesOf(i, old(frames)[i].observers)
    {
      Update(i, frames[i].(translation := t));
      FrameModified(i);
    }

    /** setRotation(q). */
    method SetRotation(i: nat, q: Quat)
      requires Valid() && i < |frames|
      modifies this
      ensures Valid()
      ensures frames == old(frames)[i := old(frames)[i].(rotation := q)]
      ensures log == old(log) + NoticesOf(i, old(frames)[i].observers)
    {
      Update(i, frames[i].(rotation := q));
      FrameModified(i);
    }

    /** setTranslationAndRotation(t, q): both fields, one notification. */
    method SetTranslationAndRotation(i: nat, t: Vec3, q: Quat)
      requires Valid() && i < |frames|
      modifies this
      ensures Valid()
      ensures frames == old(frames)[i := old(frames)[i].(translation := t, rotation := q)]
      ensures log == old(log) + NoticesOf(i, old(frames)[i].observers)
    {
      Update(i, frames[i].(translation := t, rotation := q));
      FrameModified(i);
    }

    // World position and orientation

    /** setPosition(p): sets the translation that places frame i at world
        position p. */
    method SetPosition(i: nat, p: Vec3)
      requires Valid() && i < |frames|
      modifies this
      ensures Valid()
      ensures frames == old(frames)[i := old(frames)[i].(translation := TranslationFor(old(frames), i, p))]
      ensures log == old(log) + NoticesOf(i, old(frames)[i].observers)
      ensures AllUnit(old(frames)) ==> Position(frames, i) == p
    {
      if AllUnit(frames) {
        PlacedPosition(frames, i, p, frames[i].rotation);
      }
      SetTranslation(i, TranslationFor(frames, i, p));
    }

    /** setOrientation(o): sets the rotation that gives frame i world
        orientation o. */
    method SetOrientation(i: nat, o: Quat)
      requires Valid() && i < |frames|
      modifies this
      ensures Valid()
      ensures frames == old(frames)[i := old(frames)[i].(rotation := RotationFor(old(frames), i, o))]
      ensures log == old(log) + NoticesOf(i, old(frames)[i].observers)
      ensures AllUnit(old(frames)) ==> Orientation(frames, i) == o
    {
      if AllUnit(frames) {
        PlacedOrientation(frames, i, frames[i].translation, o);
      }
      SetRotation(i, RotationFor(frames, i, o));
    }

    /** setPositionAndOrientation(p, o): both, one notification. */
    method SetPositionAndOrientation(i: nat, p: Vec3, o: Quat)
      requires Valid() && i < |frames|
      modifies this
      ensures Valid()
      ensures frames == old(frames)[i := old(frames)[i].(translation := TranslationFor(old(frames), i, p),
                                                        rotation := RotationFor(old(frames), i, o))]
      ensures log == old(log) + NoticesOf(i, old(frames)[i].observers)
      ensures AllUnit(old(frames)) ==> Position(frames, i) == p && Orientation(frames, i) == o
    {
      if AllUnit(frames) {
        PlacedPosition(frames, i, p, RotationFor(frames, i, o));
        PlacedOrientation(frames, i, TranslationFor(frames, i, p), o);
      }
      SetTranslationAndRotation(i, TranslationFor(frames, i, p), RotationFor(frames, i, o));
    }

    // Hierarchy

    /** settingAsReferenceFrameWillCreateALoop(r) on frame i: whether i is r
        or lies on the chain above r. */
    method SettingAsReferenceFrameWillCreateALoop(i: nat, r: Option<nat>) returns (loop: bool)
      requires Valid() && i < |frames| && FrameOrWorld(frames, r)
      ensures loop == (r.Some? && OnChain(LinksOf(frames), r.value, i))
    {
      loop := WillCreateALoop(LinksOf(frames), i, r);
    }

    /** setReferenceFrame(r): refused, leaving everything as it was, when it
        would create a loop; otherwise sets the reference frame, notifying
        the observers only when it changed. */
    method SetReferenceFrame(i: nat, r: Option<nat>)
      requires Valid() && i < |frames| && FrameOrWorld(frames, r)
      modifies this
      ensures Valid()
      ensures r.Some? && OnChain(LinksOf(old(frames)), r.value, i) ==>
                frames == old(frames) && log == old(log)
      ensures !(r.Some? && OnChain(LinksOf(old(frames)), r.value, i)) ==>
                frames == old(frames)[i := old(frames)[i].(reference := r)] &&
                log == old(log) + (if old(frames)[i].reference == r then multiset{}
                                   else NoticesOf(i, old(frames)[i].observers))
    {
      var loop := SettingAsReferenceFrameWillCreateALoop(i, r);
      if !loop {
        var identical := frames[i].reference == r;
        var links := LinksOf(frames);
        ReparentKeepsAcyclic(links, i, r);
        var next := frames[i := frames[i].(reference := r)];
        assert LinksOf(next) == links[i := r];
        frames := next;
        if !identical {
          FrameModified(i);
        }
      }
    }

    // Constraint and observers

    /** setConstraint(c): only the constraint changes; nobody is notified. */
    method SetConstraint(i: nat, c: Option<nat>)
      requires Valid() && i < |frames|
      modifies this
      ensures Valid()
      ensures frames == old(frames)[i := old(frames)[i].(constraint := c)] && log == old(log)
    {
      Update(i, frames[i].(constraint := c));
    }

    /** addObserver(o). */
    method AddObserver(i: nat, o: nat)
      requires Valid() && i < |frames|
      modifies this
      ensures Valid()
      ensures frames == old(frames)[i := old(frames)[i].(observers := old(frames)[i].observers + {o})]
      ensures log == old(log)
    {
      Update(i, frames[i].(observers := frames[i].observers + {o}));
    }

    /** removeObserver(o). */
    method RemoveObserver(i: nat, o: nat)
      requires Valid() && i < |frames|
      modifies this
      ensures Valid()
      ensures frames == old(frames)[i := old(frames)[i].(observers := old(frames)[i].observers - {o})]
      ensures log == old(log)
    {
      Update(i, frames[i].(observers := frames[i].observers - {o}));
    }

    // Motion

    /** translate(t): moves frame i by the filtered translation, which is
        returned (the source writes it back into t). */
    method Translate(i: nat, t: Vec3) returns (applied: Vec3)
      requires Valid() && i < |frames|
      modifies this
      ensures Valid()
      ensures applied == old(FilteredTranslation(i, t))
      ensures old(frames)[i].constraint.None? ==> applied == t
      ensures frames == old(frames)[i := old(frames)[i].(translation := Add(old(frames)[i].translation, applied))]
      ensures log == old(log) + NoticesOf(i, old(frames)[i].observers)
    {
      applied := FilteredTranslation(i, t);
      Update(i, frames[i].(translation := Add(frames[i].translation, applied)));
      FrameModified(i);
    }

    /** rotate(q): composes the rotation of frame i with the filtered
        rotation, which is returned (the source writes it back into q). */
    method Rotate(i: nat, q: Quat) returns (applied: Quat)
      requires Valid() && i < |frames|
      modifies this
      ensures Valid()
      ensures applied == old(FilteredRotation(i, q))
      ensures old(frames)[i].constraint.None? ==> applied == q
      ensures frames == old(frames)[i := old(frames)[i].(rotation := Mul(old(frames)[i].rotation, applied))]
      ensures log == old(log) + NoticesOf(i, old(frames)[i].observers)
    {
      applied := FilteredRotation(i, q);
      Update(i, frames[i].(rotation := Mul(frames[i].rotation, applied)));
      FrameModified(i);
    }

    /** setTranslationWithConstraint(t): the step from the current
        translation to t is filtered, then applied; the new translation is
        returned. Without a constraint the translation becomes t. */
    method SetTranslationWithConstraint(i: nat, t: Vec3) returns (result: Vec3)
      requires Valid() && i < |frames|
      modifies this
      ensures Valid()
      ensures var t0 := old(frames)[i].translation;
              frames == old(frames)[i := old(frames)[i].(translation :=
                          Add(t0, old(FilteredTranslation(i, Sub(t, t0)))))]
      ensures old(frames)[i].constraint.None? ==> frames == old(frames)[i := old(frames)[i].(translation := t)]
      ensures result == frames[i].translation
      ensures log == old(log) + NoticesOf(i, old(frames)[i].observers)
    {
      var t0 := frames[i].translation;
      var delta := FilteredTranslation(i, Sub(t, t0));
      assert Add(t0, Sub(t, t0)) == t;
      SetTranslation(i, Add(t0, delta));
      result := frames[i].translation;
    }

    /** setRotationWithConstraint(q): the step from the current rotation to q
        is filtered, then applied; the new rotation is returned. Without a
        constraint, and from a unit rotation, the rotation becomes q. */
    method SetRotationWithConstraint(i: nat, q: Quat) returns (result: Quat)
      requires Valid() && i < |frames|
      modifies this
      ensures Valid()
      ensures var q0 := old(frames)[i].rotation;
              frames == old(frames)[i := old(frames)[i].(rotation :=
                          Mul(q0, old(FilteredRotation(i, Mul(Inverse(q0), q)))))]
      ensures old(frames)[i].constraint.None? && IsUnit(old(frames)[i].rotation) ==>
                frames == old(frames)[i := old(frames)[i].(rotation := q)]
      ensures result == frames[i].rotation
      ensures log == old(log) + NoticesOf(i, old(frames)[i].observers)
    {
      var q0 := frames[i].rotation;
      var delta := FilteredRotation(i, Mul(Inverse(q0), q));
      if frames[i].constraint.None? && IsUnit(q0) {
        UndoStep(q0, q);
      }
      SetRotation(i, Mul(q0, delta));
      result := frames[i].rotation;
    }

    /** setTranslationAndRotationWithConstraint(t, q): both steps are filtered
        against the same state, then applied, with one notification. */
    method SetTranslationAndRotationWithConstraint(i: nat, t: Vec3, q: Quat)
      returns (resultT: Vec3, resultQ: Quat)
      requires Valid() && i < |frames|
      modifies this
      ensures Valid()
      ensures var t0 := old(frames)[i].translation;
              var q0 := old(frames)[i].rotation;
              frames == old(frames)[i := old(frames)[i].(
                          translation := Add(t0, old(FilteredTranslation(i, Sub(t, t0)))),
                          rotation := Mul(q0, old(FilteredRotation(i, Mul(Inverse(q0), q)))))]
      ensures old(frames)[i].constraint.None? && IsUnit(old(frames)[i].rotation) ==>
                frames == old(frames)[i := old(frames)[i].(translation := t, rotation := q)]
      ensures resultT == frames[i].translation && resultQ == frames[i].rotation
      ensures log == old(log) + NoticesOf(i, old(frames)[i].observers)
    {
      var t0 := frames[i].translation;
      var q0 := frames[i].rotation;
      var deltaT := FilteredTranslation(i, Sub(t, t0));
      var deltaQ := FilteredRotation(i, Mul(Inverse(q0), q));
      assert Add(t0, Sub(t, t0)) == t;
      if frames[i].constraint.None? && IsUnit(q0) {
        UndoStep(q0, q);
      }
      SetTranslationAndRotation(i, Add(t0, deltaT), Mul(q0, deltaQ));
      resultT := frames[i].translation;
      resultQ := frames[i].rotation;
    }

    /** setPositionWithConstraint(p): the target position is turned into a
        translation, then set with setTranslationWithConstraint. */
    method SetPositionWithConstraint(i: nat, p: Vec3) returns (result: Vec3)
      requires Valid() && i < |frames|
      modifies this
      ensures Valid()
      ensures var t0 := old(frames)[i].translation;
              var t := TranslationFor(old(frames), i, p);
              frames == old(frames)[i := old(frames)[i].(translation :=
                          Add(t0, old(FilteredTranslation(i, Sub(t, t0)))))]
      ensures old(frames)[i].constraint.None? ==>
                frames == old(frames)[i := old(frames)[i].(translation := TranslationFor(old(frames), i, p))]
      ensures old(frames)[i].constraint.None? && AllUnit(old(frames)) ==> Position(frames, i) == p
      ensures result == frames[i].translation
      ensures log == old(log) + NoticesOf(i, old(frames)[i].observers)
    {
      if AllUnit(frames) {
        PlacedPosition(frames, i, p, frames[i].rotation);
      }
      result := SetTranslationWithConstraint(i, TranslationFor(frames, i, p));
    }

    /** setOrientationWithConstraint(o): the target orientation is turned into
        a rotation, then set with setRotationWithConstraint. */
    method SetOrientationWithConstraint(i: nat, o: Quat) returns (result: Quat)
      requires Valid() && i < |frames|
      modifies this
      ensures Valid()
      ensures var q0 := old(frames)[i].rotation;
              var q := RotationFor(old(frames), i, o);
              frames == old(frames)[i := old(frames)[i].(rotation :=
                          Mul(q0, old(FilteredRotation(i, Mul(Inverse(q0), q)))))]
      ensures old(frames)[i].constraint.None? && AllUnit(old(frames)) ==>
                frames == old(frames)[i := old(frames)[i].(rotation := RotationFor(old(frames), i, o))] &&
                Orientation(frames, i) == o
      ensures result == frames[i].rotation
      ensures log == old(log) + NoticesOf(i, old(frames)[i].observers)
    {
      if AllUnit(frames) {
        PlacedOrientation(frames, i, frames[i].translation, o);
      }
      result := SetRotationWithConstraint(i, RotationFor(frames, i, o));
    }

    /** setPositionAndOrientationWithConstraint(p, o). */
    method SetPositionAndOrientationWithConstraint(i: nat, p: Vec3, o: Quat)
      returns (resultT: Vec3, resultQ: Quat)
      requires Valid() && i < |frames|
      modifies this
      ensures Valid()
      ensures var t0 := old(frames)[i].translation;
              var q0 := old(frames)[i].rotation;
              var t := TranslationFor(old(frames), i, p);
              var q := RotationFor(old(frames), i, o);
              frames == old(frames)[i := old(frames)[i].(
                          translation := Add(t0, old(FilteredTranslation(i, Sub(t, t0)))),
                          rotation := Mul(q0, old(FilteredRotation(i, Mul(Inverse(q0), q)))))]
      ensures old(frames)[i].constraint.None? && AllUnit(old(frames)) ==>
                Position(frames, i) == p && Orientation(frames, i) == o
      ensures resultT == frames[i].translation && resultQ == frames[i].rotation
      ensures log == old(log) + NoticesOf(i, old(frames)[i].observers)
    {
      if AllUnit(frames) {
        PlacedPosition(frames, i, p, RotationFor(frames, i, o));
        PlacedOrientation(frames, i, TranslationFor(frames, i, p), o);
      }
      resultT, resultQ := SetTranslationAndRotationWithConstraint(i, TranslationFor(frames, i, p), RotationFor(frames, i, o));
    }
  }

  /** Stepping from a unit rotation q0 by q0^-1 q lands on q. */
  lemma UndoStep(q0: Quat, q: Quat)
    requires IsUnit(q0)
    ensures Mul(q0, Mul(Inverse(q0), q)) == q
  {
    MulAssoc(q0, Inverse(q0), q);
    UnitMulInverse(q0);
    MulIdentity(q);
  }
}
