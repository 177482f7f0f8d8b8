/// The values the path-manager system works with (scripts/path-manager.js):
/// scene positions, the entries of the narrative graph PATH_GRAPH, the
/// camera orientation and the spheres the system spawns.
module Paths {

  datatype Option<T> = None | Some(value: T)

  /** A point or a direction in scene coordinates (a THREE.Vector3). */
  datatype Vec3 = Vec3(x: real, y: real, z: real)

  function Add(a: Vec3, b: Vec3): Vec3 {
    Vec3(a.x + b.x, a.y + b.y, a.z + b.z)
  }

  function Scale(a: Vec3, k: real): Vec3 {
    Vec3(a.x * k, a.y * k, a.z * k)
  }

  /** Where a successor goes relative to its parent; either delta may be absent. */
  datatype Offset = Offset(forward: Option<real>, right: Option<real>)

  /** `offset.forward || 0`: an absent delta counts as zero. */
  function OrZero(d: Option<real>): real {
    match d
    case Some(v) => v
    case None => 0.0
  }

  /** One entry of PATH_GRAPH: placement, colour and successor ids. */
  datatype NodeDef = NodeDef(offset: Offset, color: string, next: seq<string>)

  /** PATH_GRAPH itself, which this model takes as a parameter. */
  type Graph = map<string, NodeDef>

  /**
   * The camera's orientation, given by the two axes its quaternion maps the
   * canonical forward (0, 0, -1) and right (1, 0, 0) vectors to.
   */
  datatype Pose = Pose(forwardAxis: Vec3, rightAxis: Vec3)

  /** A camera that has not turned. */
  const Unrotated: Pose := Pose(Vec3(0.0, 0.0, -1.0), Vec3(1.0, 0.0, 0.0))

  /** A spawned `a-sphere` with the data of its `path-node` component. */
  datatype Sphere = Sphere(id: string, position: Vec3, color: string, next: seq<string>)

  /**
   * `forward(m)`: a world-axis root position, where an unturned camera at the
   * start position (0, 1, 0) would place a node m units ahead.
   */
  function Forward(m: real): (p: Vec3)
    ensures p.y == 1.0
  {
    Vec3(0.0, 1.0, -m)
  }

  /**
   * `right(m)`: a world-axis root position, where an unturned camera at the
   * start position (0, 1, 0) would place a node m units to the right.
   */
  function Right(m: real): (p: Vec3)
    ensures p.y == 1.0
  {
    Vec3(m, 1.0, 0.0)
  }

  /**
   * `computePosition`: the origin moved along the camera's forward axis by the
   * offset's forward delta and along its right axis by the right delta.
   */
  function ComputePosition(origin: Vec3, offset: Offset, pose: Pose): (p: Vec3)
    ensures pose.forwardAxis.y == 0.0 && pose.rightAxis.y == 0.0 ==> p.y == origin.y
    ensures OrZero(offset.forward) == 0.0 && OrZero(offset.right) == 0.0 ==> p == origin
  {
    Add(Add(origin, Scale(pose.forwardAxis, OrZero(offset.forward))),
        Scale(pose.rightAxis, OrZero(offset.right)))
  }

  /** An offset with neither delta leaves the successor on its parent. */
  lemma ComputePositionNoOffset(origin: Vec3, pose: Pose)
    ensures ComputePosition(origin, Offset(None, None), pose) == origin
  {
  }

  /**
   * With the camera unturned, "forward" is -z and "right" is +x, and the
   * height of the parent is kept.
   */
  lemma ComputePositionUnrotated(origin: Vec3, offset: Offset)
    ensures ComputePosition(origin, offset, Unrotated)
         == Vec3(origin.x + OrZero(offset.right), origin.y, origin.z - OrZero(offset.forward))
  {
  }

  /**
   * The root positions are where an unturned camera at the start position
   * (0, 1, 0) would place a node m units ahead (`forward`) or m units to the
   * right (`right`).
   */
  lemma RootPositionsAreUnrotatedPlacements(m: real)
    ensures Forward(m) == ComputePosition(Vec3(0.0, 1.0, 0.0), Offset(Some(m), None), Unrotated)
    ensures Right(m) == ComputePosition(Vec3(0.0, 1.0, 0.0), Offset(None, Some(m)), Unrotated)
  {
    ComputePositionUnrotated(Vec3(0.0, 1.0, 0.0), Offset(Some(m), None));
    ComputePositionUnrotated(Vec3(0.0, 1.0, 0.0), Offset(None, Some(m)));
  }

  /**
   * The height is not pinned: a camera pitched up lifts a successor placed
   * ahead of its parent (forward axis (0, 0.6, -0.8), one unit ahead).
   */
  lemma ComputePositionFollowsPitch()
    ensures ComputePosition(Vec3(0.0, 1.0, 0.0), Offset(Some(1.0), None),
                            Pose(Vec3(0.0, 0.6, -0.8), Vec3(1.0, 0.0, 0.0))).y == 1.6
  {
    assert Scale(Vec3(0.0, 0.6, -0.8), 1.0) == Vec3(0.0, 0.6, -0.8);
    assert Scale(Vec3(1.0, 0.0, 0.0), 0.0) == Vec3(0.0, 0.0, 0.0);
  }
}
