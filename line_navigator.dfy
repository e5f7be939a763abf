// LineNavigator: caches the corner list the NavMesh planner returns for a
// start and end node, lifted slightly above the floor.

module PathCache {
  import opened Wrappers
  import opened Spatial
  import opened NodeRegistry

  /**
   * The NavMesh planner, as an oracle: `samplePosition` is NavMesh.SamplePosition
   * within 1.5 units on all areas (None when no point is found), `calculatePath`
   * is NavMesh.CalculatePath (None when no path is found or its corners are null).
   */
  datatype NavMesh = NavMesh(
    samplePosition: Vec3 -> Option<Vec3>,
    calculatePath: (Vec3, Vec3) -> Option<seq<Vec3>>)

  /** How far each cached corner is lifted above the floor. */
  const LiftHeight: real := 0.05

  /** The planner's usable answer for two node positions: None when sampling or planning fails or gives fewer than 2 corners. */
  function PlannedCorners(navMesh: NavMesh, from: Vec3, to: Vec3): (r: Option<seq<Vec3>>)
    ensures r.Some? ==> |r.value| >= 2
  {
    var startHit := navMesh.samplePosition(from);
    var endHit := navMesh.samplePosition(to);
    if startHit.None? || endHit.None? then None
    else
      var found := navMesh.calculatePath(startHit.value, endHit.value);
      if found.None? || |found.value| < 2 then None else found
  }

  /** The planner's corners as the cache stores them: each lifted by LiftHeight. */
  function Lifted(planned: seq<Vec3>): (r: seq<Vec3>)
    ensures |r| == |planned|
    ensures forall i :: 0 <= i < |planned| ==>
              r[i].x == planned[i].x && r[i].z == planned[i].z && r[i].y == planned[i].y + LiftHeight
  {
    seq(|planned|, i requires 0 <= i < |planned| => planned[i].(y := planned[i].y + LiftHeight))
  }

  /** Lifting changes no flattened position, so no distance the instruction engine measures on the floor. */
  lemma LiftedFlatAll(planned: seq<Vec3>)
    ensures FlatAll(Lifted(planned)) == FlatAll(planned)
  {
  }

  class LineNavigator {
    var currentCorners: array<Vec3>
    var hasValidPath: bool
    var currentDestinationId: Option<string>
    const geo: Geometry

    /** A valid path always has at least two corners. */
    ghost predicate Valid()
      reads this
    {
      hasValidPath ==> currentCorners.Length >= 2
    }

    constructor (geo: Geometry)
      ensures Valid() && this.geo == geo
      ensures !hasValidPath && currentCorners.Length == 0 && currentDestinationId.None?
    {
      this.geo := geo;
      currentCorners := new Vec3[0];
      hasValidPath := false;
      currentDestinationId := None;
    }

    /**
     * DrawPathBetween for the transforms of two nodes (None for a null transform).
     * Rendering the line is not part of this model.
     */
    method DrawPathBetween(start: Option<Node>, end: Option<Node>, navMesh: NavMesh) returns (ok: bool)
      requires Valid()
      modifies this
      ensures Valid()
      ensures ok <==> start.Some? && end.Some? && PlannedCorners(navMesh, start.value.position, end.value.position).Some?
      ensures start.None? || end.None? ==> unchanged(this)
      ensures start.Some? && end.Some? ==> currentDestinationId == end.value.nodeId
      ensures !ok ==> currentCorners == old(currentCorners) && hasValidPath == old(hasValidPath)
      ensures ok ==>
        var planned := PlannedCorners(navMesh, start.value.position, end.value.position).value;
        fresh(currentCorners) && hasValidPath && currentCorners[..] == Lifted(planned)
    {
      if start.None? || end.None? {
        return false;
      }
      currentDestinationId := end.value.nodeId;

      var startHit := navMesh.samplePosition(start.value.position);
      if startHit.None? {
        return false;   // start not on the NavMesh
      }
      var endHit := navMesh.samplePosition(end.value.position);
      if endHit.None? {
        return false;   // end not on the NavMesh
      }
      var found := navMesh.calculatePath(startHit.value, endHit.value);
      if found.None? || |found.value| < 2 {
        return false;   // no valid NavMesh path
      }

      var planned := found.value;
      var corners := new Vec3[|planned|](i requires 0 <= i < |planned| => planned[i]);
      currentCorners := corners;
      hasValidPath := true;

      for i := 0 to corners.Length
        invariant currentCorners == corners && hasValidPath
        invariant currentDestinationId == end.value.nodeId
        invariant forall j :: 0 <= j < i ==> corners[j] == planned[j].(y := planned[j].y + LiftHeight)
        invariant forall j :: i <= j < corners.Length ==> corners[j] == planned[j]
      {
        corners[i] := corners[i].(y := corners[i].y + LiftHeight);
      }
      assert corners[..] == Lifted(planned);
      return true;
    }

    /** GetRemainingDistance: from the given position to the first corner, then along the whole cached path. */
    method GetRemainingDistance(fromPos: Vec3) returns (dist: real)
      ensures !hasValidPath || currentCorners.Length < 2 ==> dist == 0.0
      ensures hasValidPath && currentCorners.Length >= 2 ==>
        dist == geo.distance(fromPos, currentCorners[0]) + PathLength(geo, currentCorners[..])
      ensures dist >= 0.0
    {
      if !hasValidPath || currentCorners.Length < 2 {
        return 0.0;
      }
      dist := geo.distance(fromPos, currentCorners[0]);
      for i := 0 to currentCorners.Length - 1
        invariant dist == geo.distance(fromPos, currentCorners[0]) + PathLength(geo, currentCorners[..i + 1])
      {
        PathLengthSnoc(geo, currentCorners[..i + 1], currentCorners[i + 1]);
        assert currentCorners[..i + 2] == currentCorners[..i + 1] + [currentCorners[i + 1]];
        dist := dist + geo.distance(currentCorners[i], currentCorners[i + 1]);
      }
      assert currentCorners[..currentCorners.Length] == currentCorners[..];
      PathLengthNonNegative(geo, currentCorners[..]);
    }

    /** ClearPath: no valid path, no corners, no destination. */
    method ClearPath()
      modifies this
      ensures Valid()
      ensures !hasValidPath && currentCorners.Length == 0 && currentDestinationId.None?
    {
      hasValidPath := false;
      currentCorners := new Vec3[0];
      currentDestinationId := None;
    }

    /** GetCurrentPathCorners: a copy, so writes to the result never reach the cache. */
    method GetCurrentPathCorners() returns (copy: array<Vec3>)
      ensures fresh(copy) && copy[..] == currentCorners[..]
    {
      var cached := currentCorners[..];
      copy := new Vec3[|cached|](i requires 0 <= i < |cached| => cached[i]);
    }
  }
}
