/** What the two planner services send and what they make of a reply. */
module PlannerReplies {
  import opened Paths
  import opened Sequences
  import opened Wrappers

  datatype RobotState = RobotState(names: seq<string>, positions: seq<real>, velocities: seq<real>)

  /** A joint trajectory: the positions at each point, in the order of `jointNames`. */
  datatype Trajectory = Trajectory(jointNames: seq<string>, points: seq<seq<real>>)

  /** A plan result: the success flag of the source decides which fields it carries. */
  datatype PlanResult =
    | Planned(trajectories: seq<Trajectory>, pathIds: seq<string>, blended: bool)
    | Failed(error: PlanError)

  /** The failures a session can report, in place of the texts that describe them. */
  datatype PlanError =
    | SceneFailed            // the scene request raised, or the chain raised while handling it
    | NoRobotState
    | NoEndState             // the planned trajectories hold no last point
    | ClientNotReady
    | RequestNotBuilt
    | ReplyFailed            // handling the planner's reply raised
    | NoReply
    | Refused(code: int)     // the planner answered with an error code
    | CancelledByRequester
    | QueueNotInitialised

  datatype Service = Pilz | Ompl

  datatype PlannerReply =
    | ReplyRaised
    | NoResponse
    | PilzAnswer(pilzCode: int, sequencePlan: seq<Trajectory>)
    | OmplAnswer(omplCode: int, plan: Trajectory)

  /** What becomes of one `plan_group_async` call before any reply arrives. */
  datatype Dispatch = ClientMissing | BuildFails | SendRaises | Sent

  const MOVEIT_SUCCESS := 1

  /** PTP groups go to OMPL; the leading path decides. */
  function SelectService(group: seq<Path>): Service
    requires group != []
  {
    if group[0].motion == PTP then Ompl else Pilz
  }

  predicate ReplyFits(service: Service, reply: PlannerReply) {
    match reply
    case PilzAnswer(_, _) => service == Pilz
    case OmplAnswer(_, _) => service == Ompl
    case _ => true
  }

  /** The ids a success reports: OMPL plans only the leading path of what it was handed. */
  function ReportedIds(group: seq<Path>): seq<string>
    requires group != []
  {
    if SelectService(group) == Ompl then [group[0].pathId] else Ids(group)
  }

  /** The result a service delivers for a reply to the request that planned `group`. */
  function ToResult(group: seq<Path>, reply: PlannerReply): PlanResult
    requires group != []
  {
    match reply
    case ReplyRaised => Failed(ReplyFailed)
    case NoResponse => Failed(NoReply)
    case PilzAnswer(code, trajectories) =>
      if code != MOVEIT_SUCCESS then Failed(Refused(code))
      else Planned(trajectories, Ids(group), |group| > 1)
    case OmplAnswer(code, trajectory) =>
      if code != MOVEIT_SUCCESS then Failed(Refused(code))
      else Planned([trajectory], [group[0].pathId], false)
  }

  /** `state` is at rest where the last point of the last trajectory is. */
  ghost predicate LeftAt(trajectories: seq<Trajectory>, state: RobotState) {
    && trajectories != []
    && var last := trajectories[|trajectories| - 1];
    && last.points != []
    && state.names == last.jointNames
    && state.positions == last.points[|last.points| - 1]
    && |state.velocities| == |state.names|
    && forall i :: 0 <= i < |state.velocities| ==> state.velocities[i] == 0.0
  }

  /** The state a robot is left in by what was planned; without a last point the source raises. */
  function ExtractEndState(trajectories: seq<Trajectory>): (r: Result<RobotState, PlanError>)
    ensures r.Success? ==> LeftAt(trajectories, r.value)
    ensures r.Failure? <==> trajectories == [] || trajectories[|trajectories| - 1].points == []
  {
    if trajectories == [] || Last(trajectories).points == [] then Failure(NoEndState)
    else
      var last := Last(trajectories);
      Success(RobotState(last.jointNames, Last(last.points), seq(|last.jointNames|, _ => 0.0)))
  }
}
