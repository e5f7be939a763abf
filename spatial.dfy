// Shared vocabulary: optional values, 3D vectors, quaternions, transforms,
// and the floating-point library calls the navigation code relies on.

module Wrappers {
  /** Stands for a C# reference or string that may be null. */
  datatype Option<+T> = None | Some(value: T)
}

module Spatial {

  /** UnityEngine.Vector3, over unbounded reals. */
  datatype Vec3 = Vec3(x: real, y: real, z: real)

  /** UnityEngine.Quaternion. */
  datatype Quat = Quat(x: real, y: real, z: real, w: real)

  function Add(a: Vec3, b: Vec3): Vec3 { Vec3(a.x + b.x, a.y + b.y, a.z + b.z) }

  function Sub(a: Vec3, b: Vec3): Vec3 { Vec3(a.x - b.x, a.y - b.y, a.z - b.z) }

  /** `new Vector3(v.x, 0f, v.z)`, which is also Vector3.ProjectOnPlane(v, Vector3.up). */
  function Flat(v: Vec3): Vec3 { Vec3(v.x, 0.0, v.z) }

  function FlatAll(s: seq<Vec3>): (r: seq<Vec3>)
    ensures |r| == |s|
    ensures forall i :: 0 <= i < |s| ==> r[i] == Flat(s[i])
  {
    seq(|s|, i requires 0 <= i < |s| => Flat(s[i]))
  }

  /** Vector3.SqrMagnitude(a - b). */
  function SqrDistance(a: Vec3, b: Vec3): real
  {
    var d := Sub(a, b);
    d.x * d.x + d.y * d.y + d.z * d.z
  }

  /** Quaternion multiplication `a * b` (apply b, then a). */
  function QMul(a: Quat, b: Quat): Quat
  {
    Quat(a.w * b.x + a.x * b.w + a.y * b.z - a.z * b.y,
         a.w * b.y + a.y * b.w + a.z * b.x - a.x * b.z,
         a.w * b.z + a.z * b.w + a.x * b.y - a.y * b.x,
         a.w * b.w - a.x * b.x - a.y * b.y - a.z * b.z)
  }

  function Abs(x: real): real { if x < 0.0 then -x else x }

  /** float.MaxValue, the starting "best distance" of a nearest-node scan. */
  const FloatMax: real := 340282346638528859811704183484516925440.0

  /** A length: Vector3.Distance is never negative. */
  type Length = r: real | r >= 0.0

  /**
   * The Unity math the navigation code calls but this model does not verify:
   * Vector3.Distance, Vector3.normalized, Vector3.SignedAngle about Vector3.up,
   * Quaternion.FromToRotation, Vector3.GetHashCode, and Transform.forward as a
   * function of Transform.rotation (the rotation applied to Vector3.forward).
   */
  datatype Geometry = Geometry(
    distance: (Vec3, Vec3) -> Length,
    normalized: Vec3 -> Vec3,
    signedAngle: (Vec3, Vec3) -> real,
    fromToRotation: (Vec3, Vec3) -> Quat,
    hashCode: Vec3 -> int,
    forwardOf: Quat -> Vec3)

  /** A UnityEngine.Transform: the pose of the AR camera, of the AR session origin. */
  class Transform {
    var position: Vec3
    var rotation: Quat
    var forward: Vec3

    constructor (position: Vec3, rotation: Quat, forward: Vec3)
      ensures this.position == position && this.rotation == rotation && this.forward == forward
    {
      this.position := position;
      this.rotation := rotation;
      this.forward := forward;
    }
  }

  /** Sum of the lengths of consecutive segments s[0]-s[1], s[1]-s[2], ... */
  function PathLength(g: Geometry, s: seq<Vec3>): real
  {
    if |s| < 2 then 0.0 else g.distance(s[0], s[1]) + PathLength(g, s[1..])
  }

  /** Extending a path by one point adds exactly the new last segment; the loops accumulate this way. */
  lemma {:induction false} PathLengthSnoc(g: Geometry, s: seq<Vec3>, p: Vec3)
    requires |s| >= 1
    ensures PathLength(g, s + [p]) == PathLength(g, s) + g.distance(s[|s| - 1], p)
  {
    if |s| == 1 {
      assert (s + [p])[1..] == [p];
    } else {
      assert (s + [p])[1..] == s[1..] + [p];
      PathLengthSnoc(g, s[1..], p);
    }
  }

  lemma {:induction false} PathLengthNonNegative(g: Geometry, s: seq<Vec3>)
    ensures PathLength(g, s) >= 0.0
  {
    if |s| >= 2 {
      PathLengthNonNegative(g, s[1..]);
    }
  }

  /**
   * `x.ToString("0.0")` read back with float.TryParse: the value rounded to one
   * decimal, halves away from zero.
   */
  function Round1(x: real): real
  {
    if x >= 0.0 then (x * 10.0 + 0.5).Floor as real / 10.0
    else -(((-x) * 10.0 + 0.5).Floor as real / 10.0)
  }

  /** The rounded text is within half a decimal of the value and keeps its sign. */
  lemma Round1Close(x: real)
    ensures x - 0.05 <= Round1(x) <= x + 0.05
    ensures x >= 0.0 ==> Round1(x) >= 0.0
  {
    if x >= 0.0 {
      var f := (x * 10.0 + 0.5).Floor;
      assert f as real <= x * 10.0 + 0.5 < f as real + 1.0;
    } else {
      var f := ((-x) * 10.0 + 0.5).Floor;
      assert f as real <= (-x) * 10.0 + 0.5 < f as real + 1.0;
    }
  }

  const TwoTo32: int := 0x1_0000_0000

  /** C# `unchecked` int arithmetic: reduce to the signed 32-bit range. */
  function Wrap32(x: int): (r: int)
    ensures -0x8000_0000 <= r < 0x8000_0000
    ensures (x - r) % TwoTo32 == 0
  {
    (x + 0x8000_0000) % TwoTo32 - 0x8000_0000
  }
}
