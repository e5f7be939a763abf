// CalibrationHelper: the one-shot alignment of the AR session origin to a node.

module Calibration {
  import opened Wrappers
  import opened Spatial
  import opened NodeRegistry

  /** The translation applied to the origin: camera minus node, with the vertical component zeroed. */
  function Offset(camPos: Vec3, nodePos: Vec3): (r: Vec3)
    ensures r.y == 0.0
    ensures Add(nodePos, r) == Vec3(camPos.x, nodePos.y, camPos.z)
  {
    var d := Sub(camPos, nodePos);
    Vec3(d.x, 0.0, d.z)
  }

  /** The yaw-only rotation taking the node's flattened forward onto the camera's flattened forward. */
  function YawAlignment(g: Geometry, nodeForward: Vec3, camForward: Vec3): Quat
  {
    g.fromToRotation(g.normalized(Flat(nodeForward)), g.normalized(Flat(camForward)))
  }

  /** Both forwards have their y zeroed first, so only their horizontal parts decide the rotation. */
  lemma YawAlignmentIgnoresHeight(g: Geometry, nodeForward: Vec3, camForward: Vec3, nodeY: real, camY: real)
    ensures YawAlignment(g, nodeForward.(y := nodeY), camForward.(y := camY)) == YawAlignment(g, nodeForward, camForward)
  {
  }

  /**
   * The static class CalibrationHelper: its `_isCalibrated` flag lives in the
   * single instance of this class.
   */
  class CalibrationHelper {
    var isCalibrated: bool
    const geo: Geometry

    constructor (geo: Geometry)
      ensures !isCalibrated && this.geo == geo
    {
      isCalibrated := false;
      this.geo := geo;
    }

    /** IsCalibrated. */
    function IsCalibrated(): (r: bool)
      reads this
      ensures r == isCalibrated
    {
      isCalibrated
    }

    /**
     * The effect of AlignNodeToCamera: nothing changes when the helper is
     * already calibrated, a camera, origin or database is missing, or the id
     * does not resolve. Otherwise the origin moves horizontally by the camera's
     * offset from the node, turns by the yaw alignment (so its forward becomes
     * that of the new rotation), and the flag is set.
     */
    twostate predicate AlignEffect(nodeId: Option<string>, arCamera: Transform?, arOrigin: Transform?, db: NodeDatabase?)
      requires old(db != null ==> db.Valid())
      reads this, arCamera, arOrigin, db
    {
      var node := if db == null then None else old(db.FindNodeById(nodeId));
      if old(isCalibrated) || arCamera == null || arOrigin == null || node.None? then
        unchanged(this) && (arOrigin != null ==> unchanged(arOrigin))
      else
        && isCalibrated
        && arOrigin.position == Add(old(arOrigin.position), Offset(old(arCamera.position), node.value.position))
        && arOrigin.position.y == old(arOrigin.position.y)
        && arOrigin.rotation == QMul(YawAlignment(geo, node.value.forward, old(arCamera.forward)), old(arOrigin.rotation))
        && arOrigin.forward == geo.forwardOf(arOrigin.rotation)
    }

    /**
     * AlignNodeToCamera. `db` is the NodeDatabase found in the scene (null if
     * none); the node is resolved by id only.
     */
    method AlignNodeToCamera(nodeId: Option<string>, arCamera: Transform?, arOrigin: Transform?, db: NodeDatabase?)
      requires db != null ==> db.Valid()
      modifies this, arOrigin
      ensures AlignEffect(nodeId, arCamera, arOrigin, db)
    {
      if isCalibrated {
        return;   // already calibrated: skipping
      }
      if arCamera == null || arOrigin == null {
        return;   // missing camera or origin
      }
      var node := if db == null then None else db.FindNodeById(nodeId);
      if node.None? {
        return;   // node not found
      }

      var camPos := arCamera.position;
      var nodePos := node.value.position;
      var offset := Offset(camPos, nodePos);
      arOrigin.position := Add(arOrigin.position, offset);

      var camForward := arCamera.forward;
      var nodeForward := node.value.forward;
      var deltaRotation := YawAlignment(geo, nodeForward, camForward);
      arOrigin.rotation := QMul(deltaRotation, arOrigin.rotation);
      arOrigin.forward := geo.forwardOf(arOrigin.rotation);   // forward follows the new rotation

      isCalibrated := true;
    }

    /** ResetCalibration: clears the flag unconditionally. */
    method ResetCalibration()
      modifies this
      ensures !isCalibrated
    {
      isCalibrated := false;
    }
  }
}
