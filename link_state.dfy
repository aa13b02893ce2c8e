/**
 * physics::LinkState: the state of one link at one instant of a simulation
 * run, including the states of its child collisions.
 */
module LinkStates {
  import opened Wrappers
  import opened Common
  import opened IgnMath
  import opened Collisions

  /** The errors the collision lookups raise. */
  datatype StateError =
    | IndexOutOfRange(index: uint32)
    | UnknownCollision(name: string)

  class LinkState {
    // Inherited from State.
    var name: string
    var wallTime: Time
    var realTime: Time
    var simTime: Time
    var iterations: uint64

    /** Pose of the link relative to its model. */
    var pose: Pose3
    /** Linear and angular velocity. */
    var velocity: Pose3
    /** Linear and angular acceleration. */
    var acceleration: Pose3
    /** Force and torque on the link. */
    var wrench: Pose3
    /** States of the child collisions, in declaration order. */
    var collisionStates: seq<CollisionState>

    /** The default constructor: unnamed, zero stamps, zero values, no collisions. */
    constructor ()
      ensures name == "" && wallTime == TimeZero && realTime == TimeZero
      ensures simTime == TimeZero && iterations == 0
      ensures pose == Zero && velocity == Zero && acceleration == Zero && wrench == Zero
      ensures collisionStates == []
      ensures IsZero()
    {
      name := "";
      wallTime, realTime, simTime := TimeZero, TimeZero, TimeZero;
      iterations := 0;
      pose, velocity, acceleration, wrench := Zero, Zero, Zero, Zero;
      collisionStates := [];
    }

    /** The pose of the link relative to its model. */
    function Pose(): (p: Pose3)
      reads this
      ensures p == pose
    {
      pose
    }

    /** The linear and angular velocity. */
    function Velocity(): (p: Pose3)
      reads this
      ensures p == velocity
    {
      velocity
    }

    /** The linear and angular acceleration. */
    function Acceleration(): (p: Pose3)
      reads this
      ensures p == acceleration
    {
      acceleration
    }

    /** The force and torque applied. */
    function Wrench(): (p: Pose3)
      reads this
      ensures p == wrench
    {
      wrench
    }

    /** Deprecated twin of Pose(), in the legacy value type. */
    function GetPose(): (p: LegacyPose)
      reads this
      ensures FromLegacy(p) == Pose()
    {
      ToLegacy(pose)
    }

    /** Deprecated twin of Velocity(), in the legacy value type. */
    function GetVelocity(): (p: LegacyPose)
      reads this
      ensures FromLegacy(p) == Velocity()
    {
      ToLegacy(velocity)
    }

    /** Deprecated twin of Acceleration(), in the legacy value type. */
    function GetAcceleration(): (p: LegacyPose)
      reads this
      ensures FromLegacy(p) == Acceleration()
    {
      ToLegacy(acceleration)
    }

    /** Deprecated twin of Wrench(), in the legacy value type. */
    function GetWrench(): (p: LegacyPose)
      reads this
      ensures FromLegacy(p) == Wrench()
    {
      ToLegacy(wrench)
    }

    /** The collision states in declaration order. */
    function CollisionStates(): (cs: seq<CollisionState>)
      reads this
      ensures cs == collisionStates
    {
      collisionStates
    }

    /** Deprecated twin of CollisionStates(). */
    function GetCollisionStates(): (cs: seq<CollisionState>)
      reads this
      ensures cs == CollisionStates()
    {
      collisionStates
    }

    /** The number of collision states recorded, narrowed to `unsigned int`
        as the declared return type does. */
    function CollisionStateCount(): (r: uint32)
      reads this
      ensures r as int == |collisionStates| % 0x1_0000_0000
      ensures |collisionStates| < 0x1_0000_0000 ==> r as int == |collisionStates|
    {
      (|collisionStates| % 0x1_0000_0000) as uint32
    }

    /** Deprecated twin of CollisionStateCount(). */
    function GetCollisionStateCount(): (r: uint32)
      reads this
      ensures r == CollisionStateCount()
      ensures |collisionStates| < 0x1_0000_0000 ==> r as int == |collisionStates|
    {
      CollisionStateCount()
    }

    /** The collision state at a position in declaration order; an index
        past the end is an error. */
    function CollisionStateByIndex(index: uint32): (r: Result<CollisionState, StateError>)
      reads this
      ensures r.Ok? <==> index as int < |collisionStates|
      ensures r.Ok? ==> r.value == collisionStates[index]
      ensures r.Err? ==> r.error == IndexOutOfRange(index)
    {
      if index as int < |collisionStates| then Ok(collisionStates[index])
      else Err(IndexOutOfRange(index))
    }

    /** Deprecated twin of CollisionStateByIndex (GetCollisionState(unsigned int)). */
    function GetCollisionState(index: uint32): (r: Result<CollisionState, StateError>)
      reads this
      ensures r == CollisionStateByIndex(index)
      ensures r.Ok? <==> index as int < |collisionStates|
    {
      CollisionStateByIndex(index)
    }

    /** Searches the collision states in order and returns the first one
        with the given name; no match is an error. */
    method CollisionStateByName(n: string) returns (r: Result<CollisionState, StateError>)
      ensures r.Ok? <==> exists j :: 0 <= j < |collisionStates| && collisionStates[j].name == n
      ensures r.Ok? ==> r.value.name == n
      ensures r.Ok? ==> (FirstNamed(collisionStates, n).Some? &&
                         r.value == collisionStates[FirstNamed(collisionStates, n).value])
      ensures r.Err? ==> r.error == UnknownCollision(n)
    {
      var i := 0;
      while i < |collisionStates|
        invariant 0 <= i <= |collisionStates|
        invariant forall j :: 0 <= j < i ==> collisionStates[j].name != n
      {
        if collisionStates[i].name == n {
          return Ok(collisionStates[i]);
        }
        i := i + 1;
      }
      return Err(UnknownCollision(n));
    }

    /** Deprecated twin of CollisionStateByName (GetCollisionState(const std::string &)). */
    method GetCollisionStateNamed(n: string) returns (r: Result<CollisionState, StateError>)
      ensures r.Ok? <==> exists j :: 0 <= j < |collisionStates| && collisionStates[j].name == n
      ensures r.Ok? ==> (FirstNamed(collisionStates, n).Some? &&
                         r.value == collisionStates[FirstNamed(collisionStates, n).value])
      ensures r.Err? ==> r.error == UnknownCollision(n)
    {
      r := CollisionStateByName(n);
    }

    /** True when pose, velocity, acceleration and wrench are all zero. */
    function IsZero(): (b: bool)
      reads this
      ensures b <==> forall k :: 0 <= k < 6 ==>
                       && pose.Components()[k] == 0.0
                       && velocity.Components()[k] == 0.0
                       && acceleration.Components()[k] == 0.0
                       && wrench.Components()[k] == 0.0
    {
      ZeroIffComponentsZero(pose);
      ZeroIffComponentsZero(velocity);
      ZeroIffComponentsZero(acceleration);
      ZeroIffComponentsZero(wrench);
      pose == Zero && velocity == Zero && acceleration == Zero && wrench == Zero
    }

    /** Re-tags the state, and every child collision state, with a wall time. */
    method SetWallTime(t: Time)
      modifies this
      ensures wallTime == t
      ensures realTime == old(realTime) && simTime == old(simTime) && iterations == old(iterations)
      ensures name == old(name) && pose == old(pose) && velocity == old(velocity)
      ensures acceleration == old(acceleration) && wrench == old(wrench)
      ensures |collisionStates| == |old(collisionStates)|
      ensures forall i :: 0 <= i < |collisionStates| ==>
                collisionStates[i] == old(collisionStates[i]).(wallTime := t)
    {
      wallTime := t;
      var i := 0;
      while i < |collisionStates|
        invariant 0 <= i <= |collisionStates| == |old(collisionStates)|
        invariant forall j :: 0 <= j < i ==> collisionStates[j] == old(collisionStates[j]).(wallTime := t)
        invariant forall j :: i <= j < |collisionStates| ==> collisionStates[j] == old(collisionStates[j])
        invariant wallTime == t && realTime == old(realTime) && simTime == old(simTime)
        invariant iterations == old(iterations) && name == old(name) && pose == old(pose)
        invariant velocity == old(velocity) && acceleration == old(acceleration) && wrench == old(wrench)
      {
        collisionStates := collisionStates[i := collisionStates[i].(wallTime := t)];
        i := i + 1;
      }
    }

    /** Re-tags the state, and every child collision state, with a real time. */
    method SetRealTime(t: Time)
      modifies this
      ensures realTime == t
      ensures wallTime == old(wallTime) && simTime == old(simTime) && iterations == old(iterations)
      ensures name == old(name) && pose == old(pose) && velocity == old(velocity)
      ensures acceleration == old(acceleration) && wrench == old(wrench)
      ensures |collisionStates| == |old(collisionStates)|
      ensures forall i :: 0 <= i < |collisionStates| ==>
                collisionStates[i] == old(collisionStates[i]).(realTime := t)
    {
      realTime := t;
      var i := 0;
      while i < |collisionStates|
        invariant 0 <= i <= |collisionStates| == |old(collisionStates)|
        invariant forall j :: 0 <= j < i ==> collisionStates[j] == old(collisionStates[j]).(realTime := t)
        invariant forall j :: i <= j < |collisionStates| ==> collisionStates[j] == old(collisionStates[j])
        invariant realTime == t && wallTime == old(wallTime) && simTime == old(simTime)
        invariant iterations == old(iterations) && name == old(name) && pose == old(pose)
        invariant velocity == old(velocity) && acceleration == old(acceleration) && wrench == old(wrench)
      {
        collisionStates := collisionStates[i := collisionStates[i].(realTime := t)];
        i := i + 1;
      }
    }

    /** Re-tags the state, and every child collision state, with a sim time. */
    method SetSimTime(t: Time)
      modifies this
      ensures simTime == t
      ensures wallTime == old(wallTime) && realTime == old(realTime) && iterations == old(iterations)
      ensures name == old(name) && pose == old(pose) && velocity == old(velocity)
      ensures acceleration == old(acceleration) && wrench == old(wrench)
      ensures |collisionStates| == |old(collisionStates)|
      ensures forall i :: 0 <= i < |collisionStates| ==>
                collisionStates[i] == old(collisionStates[i]).(simTime := t)
    {
      simTime := t;
      var i := 0;
      while i < |collisionStates|
        invariant 0 <= i <= |collisionStates| == |old(collisionStates)|
        invariant forall j :: 0 <= j < i ==> collisionStates[j] == old(collisionStates[j]).(simTime := t)
        invariant forall j :: i <= j < |collisionStates| ==> collisionStates[j] == old(collisionStates[j])
        invariant simTime == t && wallTime == old(wallTime) && realTime == old(realTime)
        invariant iterations == old(iterations) && name == old(name) && pose == old(pose)
        invariant velocity == old(velocity) && acceleration == old(acceleration) && wrench == old(wrench)
      {
        collisionStates := collisionStates[i := collisionStates[i].(simTime := t)];
        i := i + 1;
      }
    }

    /** Re-tags the state, and every child collision state, with an iteration count. */
    method SetIterations(n: uint64)
      modifies this
      ensures iterations == n
      ensures wallTime == old(wallTime) && realTime == old(realTime) && simTime == old(simTime)
      ensures name == old(name) && pose == old(pose) && velocity == old(velocity)
      ensures acceleration == old(acceleration) && wrench == old(wrench)
      ensures |collisionStates| == |old(collisionStates)|
      ensures forall i :: 0 <= i < |collisionStates| ==>
                collisionStates[i] == old(collisionStates[i]).(iterations := n)
    {
      iterations := n;
      var i := 0;
      while i < |collisionStates|
        invariant 0 <= i <= |collisionStates| == |old(collisionStates)|
        invariant forall j :: 0 <= j < i ==> collisionStates[j] == old(collisionStates[j]).(iterations := n)
        invariant forall j :: i <= j < |collisionStates| ==> collisionStates[j] == old(collisionStates[j])
        invariant iterations == n && wallTime == old(wallTime) && realTime == old(realTime)
        invariant simTime == old(simTime) && name == old(name) && pose == old(pose)
        invariant velocity == old(velocity) && acceleration == old(acceleration) && wrench == old(wrench)
      {
        collisionStates := collisionStates[i := collisionStates[i].(iterations := n)];
        i := i + 1;
      }
    }

    /** operator=: copies the State part, the four values, and then the
        collision states one by one into a cleared list. */
    method Assign(other: LinkState)
      modifies this
      ensures name == old(other.name) && wallTime == old(other.wallTime)
      ensures realTime == old(other.realTime) && simTime == old(other.simTime)
      ensures iterations == old(other.iterations)
      ensures pose == old(other.pose) && velocity == old(other.velocity)
      ensures acceleration == old(other.acceleration) && wrench == old(other.wrench)
      ensures collisionStates == old(other.collisionStates)
    {
      var source := other.collisionStates;
      name := other.name;
      wallTime, realTime, simTime := other.wallTime, other.realTime, other.simTime;
      iterations := other.iterations;
      pose, velocity := other.pose, other.velocity;
      acceleration, wrench := other.acceleration, other.wrench;
      collisionStates := [];
      var i := 0;
      while i < |source|
        invariant 0 <= i <= |source|
        invariant collisionStates == source[..i]
        invariant name == old(other.name) && wallTime == old(other.wallTime)
        invariant realTime == old(other.realTime) && simTime == old(other.simTime)
        invariant iterations == old(other.iterations)
        invariant pose == old(other.pose) && velocity == old(other.velocity)
        invariant acceleration == old(other.acceleration) && wrench == old(other.wrench)
      {
        collisionStates := collisionStates + [source[i]];
        i := i + 1;
      }
    }
  }

  /** The deprecated getters report the same state as the canonical ones. */
  lemma DeprecatedGettersAgree(s: LinkState)
    ensures FromLegacy(s.GetPose()) == s.Pose() && s.GetPose() == ToLegacy(s.Pose())
    ensures FromLegacy(s.GetVelocity()) == s.Velocity() && s.GetVelocity() == ToLegacy(s.Velocity())
    ensures FromLegacy(s.GetAcceleration()) == s.Acceleration()
    ensures s.GetAcceleration() == ToLegacy(s.Acceleration())
    ensures FromLegacy(s.GetWrench()) == s.Wrench() && s.GetWrench() == ToLegacy(s.Wrench())
    ensures s.GetCollisionStateCount() == s.CollisionStateCount()
    ensures s.GetCollisionStates() == s.CollisionStates()
    ensures forall i: uint32 :: s.GetCollisionState(i) == s.CollisionStateByIndex(i)
  {
  }

  /** Below 2^32 collision states, the indices CollisionStateByIndex accepts
      are exactly 0 .. CollisionStateCount() - 1, and it returns the entry
      of CollisionStates() at that position. */
  lemma ByIndexWithinCount(s: LinkState, i: uint32)
    requires |s.collisionStates| < 0x1_0000_0000
    ensures s.CollisionStateByIndex(i).Ok? <==> i < s.CollisionStateCount()
    ensures s.CollisionStateCount() as int == |s.CollisionStates()|
    ensures i < s.CollisionStateCount() ==> s.CollisionStateByIndex(i).value == s.CollisionStates()[i]
  {
  }

  /** When the collision names are unique, the name lookup and the index
      lookup agree: looking up the name of entry i finds entry i. */
  lemma ByNameFindsByIndex(s: LinkState, i: uint32)
    requires UniqueNames(s.collisionStates)
    requires (i as int) < |s.collisionStates|
    ensures s.CollisionStateByIndex(i).Ok?
    ensures FirstNamed(s.collisionStates, s.CollisionStateByIndex(i).value.name) == Some(i as nat)
  {
    FirstNamedOfUnique(s.collisionStates, i as nat);
  }
}
