/** Data model of the reachability engine: poses, joint states, the closed
    classification of a workspace point, and the workspace report that the
    caller owns and the engine fills in place. */
module Types {

  datatype Option<T> = None | Some(value: T)

  /** A Cartesian point (geometry_msgs/Point). */
  datatype Point3 = Point3(x: real, y: real, z: real)

  /** An orientation (geometry_msgs/Quaternion); the engine never interprets
      its components itself, it only compares two of them through the
      angle oracle of the transform library. */
  datatype Quaternion = Quaternion(x: real, y: real, z: real, w: real)

  datatype Pose = Pose(position: Point3, orientation: Quaternion)

  /** A pose together with the frame it is expressed in (PoseStamped). */
  datatype PoseStamped = PoseStamped(frame: string, pose: Pose)

  /** A joint configuration: joint names paired with joint values. */
  datatype RobotState = RobotState(names: seq<string>, positions: seq<real>)

  /** The value-initialised message types: all-zero fields, empty vectors. */
  const ZeroPoint := Point3(0.0, 0.0, 0.0)
  const ZeroPose := Pose(ZeroPoint, Quaternion(0.0, 0.0, 0.0, 0.0))
  const EmptyState := RobotState([], [])

  /** The classification of a workspace point. `Unset` is the value a
      freshly sampled point carries before any IK query; `Evaluating` is the
      transient state only the progress display uses. */
  datatype SolutionCode = Unset | Success | NoIKSolution | PlanningFailed | Evaluating
  {
    /** A classification a finished query can leave behind. */
    predicate IsFinal() {
      Success? || NoIKSolution? || PlanningFailed?
    }
  }

  /** The codes the IK service reports. */
  type FinalCode = c: SolutionCode | c.IsFinal() witness Success

  datatype WorkspacePoint = WorkspacePoint(pose: Pose, state: RobotState, code: SolutionCode)

  /** A point as the sampler creates it: only the pose is filled in. */
  function SampledPoint(pose: Pose): WorkspacePoint {
    WorkspacePoint(pose, EmptyState, Unset)
  }

  /** The identity transform (setIdentity). */
  const IdentityPose := Pose(ZeroPoint, Quaternion(0.0, 0.0, 0.0, 1.0))

  /** A constraint-aware position IK request: the target (already in the
      solver's end-effector frame), the link that must reach it, the seed
      configuration and the solver timeout. */
  datatype IKRequest = IKRequest(target: PoseStamped, ikLink: string, seed: RobotState, timeout: real)

  /** What the IK service answers. */
  datatype IKResponse = IKResponse(code: FinalCode, solution: RobotState)

  /** The bounding region of the workspace (min and max corner). */
  datatype BoundingBox = BoundingBox(minCorner: Point3, maxCorner: Point3)

  /** The workspace report (kinematics_reachability/WorkspacePoints). It is
      owned by the caller and updated in place by the engine. */
  class Workspace {
    var groupName: string
    var frame: string
    var box: BoundingBox
    var resolution: real
    var orientations: seq<Quaternion>
    var toolFrameOffset: Pose
    var ordered: bool
    var points: seq<WorkspacePoint>

    constructor (groupName: string, frame: string, box: BoundingBox, resolution: real,
                 orientations: seq<Quaternion>, toolFrameOffset: Pose)
      ensures this.groupName == groupName && this.frame == frame && this.box == box
      ensures this.resolution == resolution && this.orientations == orientations
      ensures this.toolFrameOffset == toolFrameOffset
      ensures !ordered && points == []
    {
      this.groupName := groupName;
      this.frame := frame;
      this.box := box;
      this.resolution := resolution;
      this.orientations := orientations;
      this.toolFrameOffset := toolFrameOffset;
      ordered := false;
      points := [];
    }
  }
}
