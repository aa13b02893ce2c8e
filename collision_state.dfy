/**
 * The child collision records a link state owns, and the name lookup
 * over an ordered list of them.
 */
module Collisions {
  import opened Wrappers
  import opened Common
  import opened IgnMath

  /** physics::CollisionState: a State (name and time stamps) plus the
      collision's pose. */
  datatype CollisionState = CollisionState(
    name: string,
    wallTime: Time,
    realTime: Time,
    simTime: Time,
    iterations: uint64,
    pose: Pose3)

  /** The position of the first collision state named n, if any:
      a linear scan in declaration order, first match wins. */
  function FirstNamed(cs: seq<CollisionState>, n: string): (r: Option<nat>)
    ensures r.Some? ==> r.value < |cs| && cs[r.value].name == n
    ensures r.Some? ==> forall j :: 0 <= j < r.value ==> cs[j].name != n
    ensures r.None? <==> forall j :: 0 <= j < |cs| ==> cs[j].name != n
  {
    if cs == [] then None
    else if cs[0].name == n then Some(0)
    else
      match FirstNamed(cs[1..], n)
      case None => None
      case Some(i) => Some(i + 1)
  }

  /** Collision names are unique within their link. */
  ghost predicate UniqueNames(cs: seq<CollisionState>) {
    forall i, j :: 0 <= i < j < |cs| ==> cs[i].name != cs[j].name
  }

  /** With unique names, looking up the name of entry i finds entry i. */
  lemma FirstNamedOfUnique(cs: seq<CollisionState>, i: nat)
    requires UniqueNames(cs)
    requires i < |cs|
    ensures FirstNamed(cs, cs[i].name) == Some(i)
  {
  }
}
