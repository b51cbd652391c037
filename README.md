# Easy3D Frame — a Dafny model

This project models the `Frame` class of Easy3D (`src/frame.h`). The class
comes from libQGLViewer 2.7.1. A Frame is a coordinate system. It is given by:

- a local translation `t_` and a local rotation `q_`, both relative to an
  optional `referenceFrame_`;
- an optional `constraint_` that filters its motions;
- a set of observers that it notifies when it is modified.

The frames form a tree whose root is the world coordinate system. The model
covers the following:

- the frame hierarchy, and the loop test (`settingAsReferenceFrameWillCreateALoop`) that keeps it acyclic;
- the setters, and observer notification, which is recorded as a log;
- world position and orientation, composed up the reference-frame chain over
  exact reals;
- the point and vector conversions between a frame, its reference frame, the
  world and any other frame;
- `inverse()` and `worldInverse()`;
- `translate`, `rotate` and the `*WithConstraint` setters.

Only the header is part of this model. The bodies of the out-of-line members are
in `frame.cpp`, which is not part of this model. Where a body's shape was
needed, the model follows the libQGLViewer 2.7.1 implementation that the
header declares. Examples are `setTranslationWithConstraint`, which filters
the step `t - translation()`, and `rotate`, which sets `q_ = q_ * q`.

Modules, one file each:

- `geometry.dfy` (`Geometry`): `vec3` and `quat` over `real`.
  - A quaternion's scalar part is `w`.
  - `Mul` is the Hamilton product.
  - `Inverse` is the conjugate.
  - `Rotate(q, v)` is the vector part of `q (v,0) q⁻¹`. For a unit `q` this is
    the rotation matrix of `q` applied to `v`.
- `expansions.dfy` (`Expansions`) holds the polynomial identities behind the
  quaternion algebra. Each one is proved by expanding both sides to their
  sorted monomials, one product at a time.
- `quat_algebra.dfy` (`QuatAlgebra`) states the algebra the frame needs:
  - the product is associative;
  - the conjugate inverts a unit quaternion;
  - rotation composes, is linear and keeps lengths;
  - `inverse_rotate` undoes `rotate`.
- `hierarchy.dfy` (`Hierarchy`) holds the reference-frame links.
  - `links[i]` is frame `i`'s reference frame.
  - `Acyclic` says every chain above a frame reaches the world.
  - `WillCreateALoop` is the ancestor walk of
    `settingAsReferenceFrameWillCreateALoop`.
  - Lemmas say which re-links keep the tree acyclic and which create a loop.
- `observers.dfy` (`Observers`): `frameModified()` as a loop that records one
  `Notice` per registered observer.
- `frames.dfy` (`Frames`): the `FrameData` record, and the conversions as
  recursive functions up the chain:
  - `coordinatesOf` becomes `CoordinatesOf`, `inverseCoordinatesOf` becomes
    `InverseCoordinatesOf`, and so on for every conversion;
  - `position()` becomes `Position` and `orientation()` becomes `Orientation`;
  - `coordinatesOfIn`, `transformOfIn`, `coordinatesOfFrom` and
    `transformOfFrom` become the functions of the same name, with the walk in
    `ClimbCoordinates` / `ClimbTransform`. A `None` frame argument stands for
    NULL, which is the world.

  The module also holds the lemmas about all of these.
- `table.dfy` (`Table`): class `FrameTable`, the mutable state.
  - A sequence of `FrameData` is indexed by frame. A Frame object is an index.
  - The table also holds the notification log.
  - Each method of `Frame` that changes state becomes a method that names the
    frame. It states the whole new state and keeps `Valid()`, which means the
    hierarchy stays free of loops.
  - Constraints are indices. `constrainTranslation` and `constrainRotation`
    are pure filters. Each is applied to the constraint, the table, the frame
    and the motion.

The header's comment (`src/frame.h:391-392`) says that `inverse()` is the
local inverse, taken with respect to `referenceFrame()`. The model therefore
keeps the reference frame in the result of `inverse()`.

## Model

| member | source | states |
|---|---|---|
| Hierarchy.WillCreateALoop | src/frame.h:101-105 | returns true exactly when the frame is the proposed reference frame or lies on the chain above it |
| Hierarchy.ReparentKeepsAcyclic | src/frame.h:101-105 | re-linking a frame to the world, or to a frame whose chain does not contain it, leaves every chain reaching the world |
| Hierarchy.ReparentOntoChainLoops | src/frame.h:101-105 | re-linking a frame to itself or to a frame below it (a frame whose chain contains it) makes its chain never reach the world, so the loop check refuses exactly the assignments that would loop |
| Hierarchy.AppendKeepsAcyclic | src/frame.h:144 | adding a frame whose reference is the world or an existing frame keeps the hierarchy acyclic and leaves every existing chain as it was |
| Observers.Notify | src/frame.h:403-405 | the log gains one notice for each registered observer of the frame, and nothing else |
| Observers.NotifiedExactlyOnce | src/frame.h:399-405 | a notification reaches each registered observer of the frame exactly once, reaches no unregistered or removed observer, and reaches no other frame's observer |
| QuatAlgebra.MulAssoc | src/frame.h:273-274 | the quaternion product is associative |
| QuatAlgebra.RotateMul | src/frame.h:43-45 | rotating by a product is rotating by the right factor, then by the left one |
| QuatAlgebra.RotateRoundTrip | src/frame.h:393-396 | for a unit quaternion, inverse_rotate undoes rotate and rotate undoes inverse_rotate |
| QuatAlgebra.RotateLength | src/frame.h:321-322 | rotate and inverse_rotate by a unit quaternion keep the length of a vector |
| QuatAlgebra.UnitProduct | src/frame.h:273-274 | the product of unit quaternions is a unit quaternion |
| QuatAlgebra.NormOfProduct | src/frame.h:273-274 | the squared norm of a product is the product of the squared norms |
| QuatAlgebra.UnitMulInverse | src/frame.h:385-386 | a unit quaternion times its inverse, on either side, is the identity |
| Geometry.Mul | src/frame.h:394-395 | the quaternion product used to compose orientations; it is associative (`QuatAlgebra.MulAssoc`), keeps unit norm (`QuatAlgebra.UnitProduct`), and rotating by a product is rotating by its factors in turn (`QuatAlgebra.RotateMul`) |
| Geometry.Inverse | src/frame.h:394-395 | `quat::inverse()`, the conjugate; for a unit quaternion it is a two-sided inverse (`QuatAlgebra.UnitMulInverse`) |
| Geometry.Rotate | src/frame.h:394-395 | `quat::rotate`, as the vector part of `q (v,0) q^-1`; for a unit `q` it keeps lengths (`QuatAlgebra.RotateLength`), is undone by `InverseRotate` (`QuatAlgebra.RotateRoundTrip`) and is linear (`QuatAlgebra.RotateAdd`) |
| Geometry.InverseRotate | src/frame.h:394-395 | `quat::inverse_rotate`, rotation by the conjugate; for a unit `q` it undoes `Rotate` in both orders (`QuatAlgebra.RotateRoundTrip`) |
| Frames.Position | src/frame.h:170 | `position()`, the world image of the frame's origin; a root frame is at its translation (`RootFrame`), and a child is at its parent's position plus the rotated translation (`ChildPosition`) |
| Frames.Orientation | src/frame.h:171 | `orientation()`, the product of the rotations up the chain; a root frame has its rotation (`RootFrame`), a child has the parent's orientation times its rotation (`ChildFrame`), and it is unit when every rotation is (`OrientationUnit`) |
| Frames.InverseCoordinatesOf | src/frame.h:292 | `inverseCoordinatesOf`, from the frame to the world; it rotates by `orientation()` and adds `position()` (`WorldComposition`) and is undone by `CoordinatesOf` (`CoordinatesRoundTrip`) |
| Frames.CoordinatesOf | src/frame.h:291 | `coordinatesOf`, from the world to the frame; it undoes `InverseCoordinatesOf` in both orders (`CoordinatesRoundTrip`) |
| Frames.LocalCoordinatesOf | src/frame.h:293 | `localCoordinatesOf`, from the reference frame to the frame; it undoes `LocalInverseCoordinatesOf` in both orders (`LocalRoundTrip`) |
| Frames.LocalInverseCoordinatesOf | src/frame.h:294 | `localInverseCoordinatesOf`, from the frame to its reference frame; `LocalCoordinatesOf` undoes it (`LocalRoundTrip`) |
| Frames.CoordinatesOfIn | src/frame.h:295 | `coordinatesOfIn`, from the frame to another frame or the world; it equals going through the world (`InViaWorld`) and is undone by `CoordinatesOfFrom` (`InFromRoundTrip`) |
| Frames.CoordinatesOfFrom | src/frame.h:296 | `coordinatesOfFrom`, from another frame or the world to this frame; it equals going through the world (`FromViaWorld`) and undoes `CoordinatesOfIn` (`InFromRoundTrip`) |
| Frames.TransformOf | src/frame.h:335 | `transformOf`, a world vector in the frame; it undoes `InverseTransformOf` (`TransformRoundTrip`) and keeps lengths (`TransformLength`) |
| Frames.InverseTransformOf | src/frame.h:336 | `inverseTransformOf`, a frame vector in the world; it is rotation by `orientation()` alone (`WorldComposition`) and keeps lengths (`TransformLength`) |
| Frames.LocalTransformOf | src/frame.h:337 | `localTransformOf`; it undoes `LocalInverseTransformOf` (`LocalRoundTrip`) and keeps lengths (`LocalLength`) |
| Frames.LocalInverseTransformOf | src/frame.h:338 | `localInverseTransformOf`; `LocalTransformOf` undoes it (`LocalRoundTrip`) and it keeps lengths (`LocalLength`) |
| Frames.TransformOfIn | src/frame.h:339 | `transformOfIn`; it equals going through the world (`InViaWorld`), is undone by `TransformOfFrom` (`InFromRoundTrip`) and keeps lengths (`InFromLength`) |
| Frames.TransformOfFrom | src/frame.h:340 | `transformOfFrom`; it equals going through the world (`FromViaWorld`), undoes `TransformOfIn` (`InFromRoundTrip`) and keeps lengths (`InFromLength`) |
| Frames.TranslationFor | src/frame.h:157 | the translation `setPosition` stores, the requested position in the reference frame's coordinates; with it the frame is at the requested position (`PlacedPosition`) |
| Frames.RotationFor | src/frame.h:161 | the rotation `setOrientation` stores, the parent's inverse orientation times the requested one; with it the frame has the requested orientation (`PlacedOrientation`) |
| Frames.ChildPosition | src/frame.h:89-91 | a child's position is its reference frame's position plus the child's translation rotated by the reference frame's orientation |
| Frames.QuarterTurnChild | src/frame.h:89-91 | a frame at (1,0,0) in a world frame turned a quarter turn about y is at (0,0,-1) in the world |
| Frames.ParentNotBelow | src/frame.h:101-103 | in an acyclic table, a frame is never on the chain above its own reference frame |
| Frames.RootFrame | src/frame.h:216-226 | without a reference frame, position() equals translation() and orientation() equals rotation() |
| Frames.ChildFrame | src/frame.h:89-91 | the defining equations of a child frame, one unfolding of `Position` and `Orientation`: it sits at the point of the reference frame given by its translation, and its orientation is the reference frame's orientation times its rotation; the composition law in world terms is `ChildPosition` |
| Frames.WorldComposition | src/frame.h:43-45 | a point of the frame maps to the world by rotating by orientation() and then adding position(); a vector maps by the rotation alone |
| Frames.OrientationUnit | src/frame.h:171 | when every local rotation is unit, every world orientation is unit |
| Frames.LocalRoundTrip | src/frame.h:293-294 | localCoordinatesOf and localInverseCoordinatesOf undo each other in both orders, and so do localTransformOf and localInverseTransformOf |
| Frames.LocalLength | src/frame.h:321-322 | localTransformOf and localInverseTransformOf keep the length of a vector |
| Frames.CoordinatesRoundTrip | src/frame.h:72-74 | coordinatesOf and inverseCoordinatesOf undo each other, in either order, for every frame of the hierarchy |
| Frames.TransformRoundTrip | src/frame.h:332-333 | transformOf and inverseTransformOf undo each other, in either order |
| Frames.TransformLength | src/frame.h:321-322 | transformOf and inverseTransformOf keep the length of a vector |
| Frames.FrameRoundTrip | src/frame.h:327-330 | the conversions into and out of a frame or the world (NULL) undo each other and keep lengths |
| Frames.ClimbCoordinatesViaWorld | src/frame.h:295 | walking up from a frame and stopping at the target frame gives the same point as going to the world and converting into the target |
| Frames.ClimbTransformViaWorld | src/frame.h:339 | the same for vectors: stopping at the target equals going to the world and converting into the target |
| Frames.InViaWorld | src/frame.h:327-330 | coordinatesOfIn and transformOfIn convert into the world and then into the target frame, wherever that frame is in the tree |
| Frames.FromViaWorld | src/frame.h:296 | coordinatesOfFrom and transformOfFrom convert from the source frame to the world and then into this frame |
| Frames.InFromRoundTrip | src/frame.h:332-333 | coordinatesOfIn and coordinatesOfFrom with the same other frame undo each other in both orders, and so do transformOfIn and transformOfFrom |
| Frames.InFromLength | src/frame.h:321-322 | transformOfIn and transformOfFrom keep the length of a vector |
| Frames.WorldInverse | src/frame.h:389 | the frame worldInverse() returns has no reference frame, no constraint and no observer |
| Frames.WorldInverseUndoes | src/frame.h:393-396 | the frame worldInverse() returns, used as a transformation, undoes the frame's world transformation on either side |
| Frames.LocalInverse | src/frame.h:391-392 | the frame inverse() returns keeps the reference frame and has no constraint and no observer |
| Frames.LocalInverseUndoes | src/frame.h:382 | the frame inverse() returns, used as a local transformation, undoes the frame's local transformation on either side |
| Frames.RigidInverse | src/frame.h:385-387 | translating by minus the inverse-rotated translation after rotating by the inverse undoes a rigid motion, in both orders |
| Frames.Unaffected | src/frame.h:247-249 | changing one frame's translation or rotation leaves orientation(), position() and the conversions to and from the world (coordinatesOf, inverseCoordinatesOf, transformOf, inverseTransformOf) of each frame not below it unchanged |
| Frames.AppendUnaffected | src/frame.h:144 | creating a frame leaves orientation(), position() and the conversions to and from the world (coordinatesOf, inverseCoordinatesOf, transformOf, inverseTransformOf) of every frame already there unchanged |
| Frames.SamePlacement | src/frame.h:149 | frames with the same translation, rotation and reference frame have the same position and orientation |
| Frames.PlacedPosition | src/frame.h:157 | the translation setPosition computes puts the frame at the requested world position, whatever its rotation |
| Frames.PlacedOrientation | src/frame.h:161 | the rotation setOrientation computes gives the frame the requested world orientation, whatever its translation |
| Table.UndoStep | src/frame.h:208 | from a unit rotation q0, the step q0⁻¹ q taken by setRotationWithConstraint lands exactly on q |
| Table.FrameTable.FrameModified | src/frame.h:403-405 | only the log changes, and it gains one notice per observer of the frame |
| Table.FrameTable.SettingAsReferenceFrameWillCreateALoop | src/frame.h:260 | true exactly when the frame is the proposed reference frame or lies on the chain above it |
| Table.FrameTable.SetReferenceFrame | src/frame.h:258-260 | a refused assignment, one that would loop (including the frame itself), changes nothing. Otherwise only the reference frame changes, and the observers are notified only when it differs. The hierarchy stays acyclic |
| Table.FrameTable.SetTranslation | src/frame.h:186-189 | only translation() changes, to t, and each observer of the frame is notified once |
| Table.FrameTable.SetRotation | src/frame.h:203-206 | only rotation() changes, to q, and each observer of the frame is notified once |
| Table.FrameTable.SetTranslationAndRotation | src/frame.h:210-211 | translation and rotation change, nothing else does, and one notification is sent |
| Table.FrameTable.SetConstraint | src/frame.h:366 | only constraint() changes and no observer is notified |
| Table.FrameTable.AddObserver | src/frame.h:399 | only the frame's observer set changes, by inserting the observer (a second insertion leaves a single entry) |
| Table.FrameTable.RemoveObserver | src/frame.h:400 | only the frame's observer set changes, by erasing the observer; the other entries stay |
| Table.FrameTable.SetPosition | src/frame.h:157 | only translation() changes, and with unit rotations position() is then the requested position |
| Table.FrameTable.SetOrientation | src/frame.h:161 | only rotation() changes, and with unit rotations orientation() is then the requested orientation |
| Table.FrameTable.SetPositionAndOrientation | src/frame.h:165-166 | translation and rotation change, with one notification, and with unit rotations both world values are then the requested ones |
| Table.FrameTable.Translate | src/frame.h:265-266 | the translation grows by the filtered motion, which is returned; without a constraint the motion is applied unfiltered |
| Table.FrameTable.Rotate | src/frame.h:273-274 | the rotation is composed on the right with the filtered rotation, which is returned; without a constraint the rotation is applied unfiltered |
| Table.FrameTable.SetTranslationWithConstraint | src/frame.h:191 | the step to the requested translation is filtered and applied; without a constraint the translation becomes the requested one |
| Table.FrameTable.SetRotationWithConstraint | src/frame.h:208 | the step to the requested rotation is filtered and applied; without a constraint, from a unit rotation, the rotation becomes the requested one |
| Table.FrameTable.SetTranslationAndRotationWithConstraint | src/frame.h:212-213 | both steps are filtered against the same state and applied with one notification; without a constraint both become the requested values |
| Table.FrameTable.SetPositionWithConstraint | src/frame.h:159 | the position is turned into a translation and set with a constraint; without a constraint the frame ends at the requested position |
| Table.FrameTable.SetOrientationWithConstraint | src/frame.h:163 | the orientation is turned into a rotation and set with a constraint; without a constraint the frame ends with the requested orientation |
| Table.FrameTable.SetPositionAndOrientationWithConstraint | src/frame.h:167-168 | both are turned into local values and set with a constraint; without a constraint the frame ends at the requested position and orientation |
| Table.FrameTable.AddFrame | src/frame.h:144 | a new world frame at the origin with the identity rotation, no constraint and no observer; the other frames are unchanged |
| Table.FrameTable.AddFrameAt | src/frame.h:155 | a new world frame whose position() and orientation() are the given ones |
| Table.FrameTable.CopyFrame | src/frame.h:149 | a new frame with the translation, rotation, constraint and reference frame of the original, and no observers, placed where the original is |
| Table.FrameTable.Assign | src/frame.h:150 | takes the translation and rotation (one notification), the constraint, and the reference frame unless that would loop (a second notification when it changes) |

## Left out

- `matrix()`, `worldMatrix()` and `setFromMatrix()`: matrix layout and decomposition are not modelled. This is numeric plumbing over `mat4`.
- `alignWithFrame` and `projectOnLine`: their bodies are not shown, and they depend on float thresholds.
- `rotateAroundPoint`: the orbit correction goes through the quaternion's axis and angle, which needs trigonometry.
- The `double[3]` and `double&` wrappers (`getPosition`, `getCoordinatesOf`, `setTranslation(x, y, z)`, …): they only repackage the `vec3` and `quat` forms that are modelled.
- The getters `translation()`, `rotation()`, `referenceFrame()` and `constraint()`: they are the fields of `FrameData`.
- The constraint subclasses: `constraint.h` is not part of this model. A constraint is an index, and its filters are arbitrary pure functions.
- Observer callbacks: `onFrameModified()` is foreign code. The model records the calls and does not run them. Their order (the order of the `std::set`) is not recorded.
- Floating point: components are exact reals, with no rounding and no drift.
- Geometry.Rotate: the model rotates by the sandwich `q (v,0) q^-1`. `quat::rotate` uses the rotation-matrix formula of `q`. The two agree for a unit `q`. For a non-unit `q` the sandwich also scales the vector by the squared norm of `q`, and the matrix formula does not. An example is `q = (0,0,0,2)`, `v = (1,0,0)`: the sandwich gives `(4,0,0)` and the matrix formula gives `(1,0,0)`. `Valid()` does not require unit rotations, and `setRotation` stores any quaternion. So a table with a non-unit rotation is outside the domain where `Position`, `Orientation` and the conversions match the program. The round trips and placement promises are stated only for unit rotations (`AllUnit`).
- The qWarning that a refused `setReferenceFrame` prints is not modelled.
- Frames that are destroyed, and pointer aliasing: a frame is an index into the table and is never removed.
- Loops in `position()` and in the other conversions: the model computes them by recursion up the chain. Their loop form is in `frame.cpp`, which is not part of this model.
- Table.FrameTable.Rotate: `q_.normalize()` is not modelled, so the rotation is the product itself. For unit arguments the product is unit (`QuatAlgebra.UnitProduct`), and normalising a unit quaternion changes nothing.
- Table.FrameTable.SetRotationWithConstraint: `deltaQ.normalize()` and `q_.normalize()` are not modelled. The unfiltered result is the requested rotation only when starting from a unit rotation.
- Table.FrameTable.SetTranslationAndRotationWithConstraint: the same normalisations are not modelled, with the same condition on the rotation.
- Table.FrameTable.SetOrientationWithConstraint: the same normalisations are not modelled. The promise about the world orientation is stated for unit rotations only.
- Table.FrameTable.SetPositionAndOrientationWithConstraint: the same normalisations are not modelled. The promise about the world values is stated for unit rotations only.
- Table.FrameTable.SetPosition: "position() is then the requested position" is stated for tables of unit rotations only. Without unit rotations, coordinatesOf does not invert inverseCoordinatesOf.
- Table.FrameTable.SetOrientation: stated for unit rotations only, because only then is the conjugate the inverse.
- Table.FrameTable.SetPositionAndOrientation: stated for unit rotations only, for the same reasons.
- Table.FrameTable.SetPositionWithConstraint: stated for unit rotations only, for the same reason as SetPosition. The value returned is the new translation, as in libQGLViewer, and not the new position.
- Frames.CoordinatesRoundTrip: the round trips and length preservation of the conversions are stated for unit rotations only.
