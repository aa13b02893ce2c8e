# LinkState: the recorded state of one simulated link

This project models `physics::LinkState` from the gazebo simulator: the record
of one link at one instant of a simulation run. A link state holds

- the `State` part it inherits: the link's name, a wall time, a real time, a
  sim time and an iteration count;
- four six-degree-of-freedom values of the same type (`Pose3d`): the pose
  relative to the model, the velocity, the acceleration and the wrench;
- the states of the link's child collisions, in declaration order.

Its operations are the accessors for the four values (and their deprecated
`Get*` twins, which return the legacy `math::Pose` type), the collision count,
the lookups by index and by name, `IsZero`, the four time-stamp setters,
assignment, and the stream insertion operator that writes the state as text.

## Layout

- `wrappers.dfy` (`Wrappers`): `Option` and `Result`.
- `common.dfy` (`Common`): `uint32`, `uint64` and `common::Time`.
- `ign_math.dfy` (`IgnMath`): the six-DOF value `Pose3` (a position and the
  roll, pitch and yaw angles `Rot().Euler()` reports for its rotation), its
  zero value, and the legacy `LegacyPose` with conversions both ways.
- `collision_state.dfy` (`Collisions`): the collision record and the
  first-match name search `FirstNamed` that specifies the lookup by name.
- `link_state.dfy` (`LinkStates`): the class `LinkState`, with the fields of
  the C++ class and its methods; the setters and assignment update the object
  in place, the const accessors are functions that read it.
- `link_state_text.dfy` (`LinkStateText`): an output stream (the text written
  so far plus the `std::fixed` and `std::setprecision` state), the text form
  `Serialized` with the fixed-notation rounding of each number, the method
  `WriteLinkState` that writes it piece by piece as `operator<<` does, and a
  reader `ParseLink` with the round-trip lemmas.

Choices worth knowing:

- A number written in fixed notation is the piece
  `Fixed(negative, units, precision)`: a minus sign when the value is
  negative, then `units / 10^precision` with exactly `precision` digits after
  the point. Those three fields fix every character of the number, so two
  numbers print the same text exactly when their pieces are equal.
  `RenderFixed` rounds the magnitude to the nearest multiple of
  `10^-precision`; the printed value is within half a unit of the last place
  of the double. Numbers written in the default notation (never, by
  `operator<<`) are the abstract piece `General(value, precision)`.
- Printing is lossy: the text shows the name and the pose and velocity
  rounded to 5 and 4 decimals (`Rendered`), not the doubles themselves. The
  reader `ParseLink` recovers exactly that rendering. For a name without `'`
  the text reads back as its rendering (`ParseSerialized`); every text the
  reader accepts is exactly the text of what it read (`TextParsed`); two
  links are written as the same text exactly when their renderings are equal
  (`SerializedEqualIff`), and nearby poses do collide
  (`RoundingMergesNearbyPoses`). A name with `'` does not read back
  (`QuotedNameNotRecovered`).
- `operator<<` leaves the stream in fixed notation at precision 4; the model
  keeps that stream state.
- `LinkState` re-declares the four time-stamp setters as virtual overrides of
  `State`'s, and a link's state includes the states of its child collisions
  (LinkState.hh:45-46). The model's setters therefore re-tag the link and
  every child collision state with the new stamp; names, poses, the four
  values and the other stamps are unchanged.
- `CollisionStateCount` returns `unsigned int`, so the count is the list
  length modulo 2^32; below that bound it is the length.
- Dafny has no overloading: the deprecated `GetCollisionState(unsigned int)`
  is `GetCollisionState` and `GetCollisionState(const std::string &)` is
  `GetCollisionStateNamed`. The lookups' failures (an index past the end, an
  unknown name) are `Err` results.

## Model

| member | source | states |
|---|---|---|
| `LinkStates.LinkState.constructor` | gazebo/physics/LinkState.hh:49-50 | the default state has an empty name, zero stamps, four zero values, no collisions, and is zero |
| `LinkStates.LinkState.Pose` | gazebo/physics/LinkState.hh:101-103 | returns the stored pose |
| `LinkStates.LinkState.Velocity` | gazebo/physics/LinkState.hh:110-112 | returns the stored velocity |
| `LinkStates.LinkState.Acceleration` | gazebo/physics/LinkState.hh:119-121 | returns the stored acceleration |
| `LinkStates.LinkState.Wrench` | gazebo/physics/LinkState.hh:128-130 | returns the stored wrench |
| `LinkStates.LinkState.CollisionStates` | gazebo/physics/LinkState.hh:194-196 | returns the stored collision states, in declaration order |
| `LinkStates.LinkState.GetCollisionStates` | gazebo/physics/LinkState.hh:187-192 | the deprecated list getter delegates to `CollisionStates()` |
| `LinkStates.LinkState.GetPose` | gazebo/physics/LinkState.hh:96-103 | the deprecated pose converts back to exactly `Pose()` |
| `LinkStates.LinkState.GetVelocity` | gazebo/physics/LinkState.hh:105-112 | the deprecated velocity converts back to exactly `Velocity()` |
| `LinkStates.LinkState.GetAcceleration` | gazebo/physics/LinkState.hh:114-121 | the deprecated acceleration converts back to exactly `Acceleration()` |
| `LinkStates.LinkState.GetWrench` | gazebo/physics/LinkState.hh:123-130 | the deprecated wrench converts back to exactly `Wrench()` |
| `IgnMath.LegacyRoundTrip` | gazebo/physics/LinkState.hh:96-130 | the legacy and canonical value types convert into each other without loss, both ways |
| `LinkStates.DeprecatedGettersAgree` | gazebo/physics/LinkState.hh:96-196 | every deprecated getter reports the same value as its canonical twin |
| `LinkStates.LinkState.CollisionStateCount` | gazebo/physics/LinkState.hh:140-144 | the count is the number of recorded collision states (modulo 2^32, the width of `unsigned int`) |
| `LinkStates.LinkState.GetCollisionStateCount` | gazebo/physics/LinkState.hh:132-138 | the deprecated count delegates to `CollisionStateCount()`, and is the list length below 2^32 |
| `LinkStates.LinkState.CollisionStateByIndex` | gazebo/physics/LinkState.hh:157-164 | succeeds exactly for an index inside the list and then returns the entry at that index; otherwise an index error |
| `LinkStates.LinkState.GetCollisionState` | gazebo/physics/LinkState.hh:146-155 | the deprecated index lookup delegates to `CollisionStateByIndex`, succeeding exactly for an index inside the list |
| `LinkStates.ByIndexWithinCount` | gazebo/physics/LinkState.hh:140-164 | the accepted indices are exactly those below `CollisionStateCount()`, and the result is that element of `CollisionStates()` |
| `Collisions.FirstNamed` | gazebo/physics/LinkState.hh:178-185 | the first position whose collision has the name, with no earlier match; none exactly when no collision has it |
| `LinkStates.LinkState.CollisionStateByName` | gazebo/physics/LinkState.hh:178-185 | succeeds exactly when some collision has the name, returns the first such one (so its name matches); otherwise a not-found error |
| `LinkStates.LinkState.GetCollisionStateNamed` | gazebo/physics/LinkState.hh:166-176 | the deprecated name lookup gives the same result as `CollisionStateByName` |
| `Collisions.FirstNamedOfUnique` | gazebo/physics/LinkState.hh:178-185 | with unique collision names, looking up the name of entry i finds entry i |
| `LinkStates.ByNameFindsByIndex` | gazebo/physics/LinkState.hh:157-185 | with unique names, the name lookup and the index lookup agree |
| `IgnMath.ZeroIffComponentsZero` | gazebo/physics/LinkState.hh:287-297 | a six-DOF value is the zero value exactly when all six components are 0 |
| `LinkStates.LinkState.IsZero` | gazebo/physics/LinkState.hh:198-200 | true exactly when every component of pose, velocity, acceleration and wrench is 0 |
| `LinkStates.LinkState.SetWallTime` | gazebo/physics/LinkState.hh:206-209 | sets the wall time of the link and of each collision state; everything else is unchanged |
| `LinkStates.LinkState.SetRealTime` | gazebo/physics/LinkState.hh:211-213 | sets the real time of the link and of each collision state; everything else is unchanged |
| `LinkStates.LinkState.SetSimTime` | gazebo/physics/LinkState.hh:215-217 | sets the sim time of the link and of each collision state; everything else is unchanged |
| `LinkStates.LinkState.SetIterations` | gazebo/physics/LinkState.hh:219-222 | sets the iteration count of the link and of each collision state; everything else is unchanged |
| `LinkStates.LinkState.Assign` | gazebo/physics/LinkState.hh:224-227 | afterwards every field (name, stamps, four values, collision list) equals the assigned state's |
| `LinkStateText.RenderFixed` | gazebo/physics/LinkState.hh:248 | a double in fixed notation keeps its sign, has the stream's precision, and shows a value within half a unit of its last printed place |
| `LinkStateText.WriteVector` | gazebo/physics/LinkState.hh:251-253 | writes three coordinates in order, each followed by a space, in the stream's current format |
| `LinkStateText.WriteHead` | gazebo/physics/LinkState.hh:249 | writes the opening tag with the link name between single quotes |
| `LinkStateText.WriteComponents` | gazebo/physics/LinkState.hh:251-256 | writes the six components of a value, position then Euler angles, each rounded to the stream's precision and followed by a space |
| `LinkStateText.WriteSection` | gazebo/physics/LinkState.hh:250-257 | writes the opening tag, the six rounded components and the closing tag |
| `LinkStateText.WriteBody` | gazebo/physics/LinkState.hh:250-282 | writes the pose section at the current precision, the velocity section at precision 4 and the closing `</link>`, leaving the stream fixed at precision 4 |
| `LinkStateText.WriteLinkState` | gazebo/physics/LinkState.hh:243-285 | appends exactly the text of the name, the pose rounded to 5 decimals and the velocity rounded to 4, and leaves the stream fixed at precision 4 |
| `LinkStateText.ParseText` | gazebo/physics/LinkState.hh:248-282 | every well-formed link text (quote-free name, six fixed numbers per section at precisions 5 and 4) reads back as itself |
| `LinkStateText.TextParsed` | gazebo/physics/LinkState.hh:248-282 | every text the reader accepts is well formed and is exactly the text of what it read |
| `LinkStateText.ParseSerialized` | gazebo/physics/LinkState.hh:243-285 | the text of a link whose name has no quote reads back as its name and its pose and velocity rounded to 5 and 4 decimals, each read number within half a unit of the last place of the component |
| `LinkStateText.SerializedEqualIff` | gazebo/physics/LinkState.hh:243-285 | for quote-free names, two links are written as the same text exactly when they have the same name and their pose and velocity components round to the same printed numbers |
| `LinkStateText.RoundingMergesNearbyPoses` | gazebo/physics/LinkState.hh:248-256 | poses whose x differs only in the sixth decimal (0.000001 against 0.000002) are written as the same text |
| `LinkStateText.QuotedNameNotRecovered` | gazebo/physics/LinkState.hh:249 | a name containing a quote is written unescaped and does not read back as the rendering of what was written |

## Left out

- The constructors from a `Link` and from an SDF element, both `Load`
  overloads and `FillSDF` (LinkState.hh:52-94, 202-204): they read live
  `Link` objects or SDF elements, which are not part of this model.
- `operator+` and `operator-` (LinkState.hh:229-237): their bodies are not in
  the header and they compose rotations by quaternion arithmetic.
- Quaternions: rotations are kept as the Euler angles `Rot().Euler()`
  reports; normalisation and angle wrapping are not modelled.
- `LinkStateText.RenderFixed`: doubles are modelled as exact reals, and it
  rounds the exact value, halves away from zero; the C library rounds the binary
  double, so at an exact tie of the decimal value the last printed digit
  can differ. Both agree to within half a unit of the last place, which is
  all `RenderFixed` promises. The digit characters of a number and the
  default (non-fixed) notation are not spelt out.
- `common::Time` is a pair of unbounded integers; normalisation of
  nanoseconds and 32-bit widths are not modelled.
- `gazebo/physics/CollisionState.hh` is not part of this model; a collision
  state is its name, its stamps and its pose.
- Thread safety of publishing a state and re-tagging it afterwards.
- `LinkStates.LinkState.IsZero`: the model compares each component exactly
  with 0, as the class documentation describes. The body of `IsZero` is not
  in the header. A comparison with `Pose3d::Zero` through ignition's
  `Pose3d::operator==` would accept each position and quaternion component
  within 1e-3 of the matching component of `Pose3d::Zero` (0 for the
  position and the quaternion's x, y, z; 1 for its w), and such a
  comparison is not modelled. The model
  also does not consult the poses of the child collision states, even
  though a link's state includes them (LinkState.hh:45-46).
- `LinkStates.LinkState.Assign`: the body of `operator=` is not in the
  header; the model reads the assigned state's collision list before clearing
  its own, so self-assignment leaves the list as it was.
- `gazebo/physics/simbody/SimbodyPhysics.hh` (an adapter over an external
  multibody solver) and `gazebo/sensors/WirelessReceiver.hh` (a sensor with
  no logic of its own).
