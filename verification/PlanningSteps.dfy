/**
 The look-ahead planning chain as a step system: one function per callback of the coordinator.

 A callback runs to completion before the next one starts. Requests still waiting for a reply are
 part of the state, so that a reply is an event that picks one of them.
 */
module PlanningSteps {
  import opened Paths
  import opened PlannerReplies
  import opened Wrappers

  datatype QueueItem = Plan(dto: PlanResult) | Stop

  datatype Session = Session(groups: seq<seq<Path>>, currentGroup: seq<Path>)

  datatype Request = SceneRequest | PlanRequest(group: seq<Path>)

  datatype SceneReply = SceneRaised | SceneMissing | SceneState(robot: RobotState)

  datatype PlannerCall = PlannerCall(group: seq<Path>, start: RobotState)

  /** The coordinator's fields, followed by what an observer of one session can record. */
  datatype Chain = Chain(
    queue: Option<seq<QueueItem>>,
    cancelEvent: Option<bool>,
    session: Option<Session>,
    outstanding: seq<Request>,  // requests whose reply has not been handled
    seed: Option<RobotState>,   // the scene state that started planning
    calls: seq<PlannerCall>,    // every plan_group_async call
    puts: seq<QueueItem>,       // everything the callbacks (not cancel) put on the queue
    replies: nat                // replies handled
  )

  const CANCELLED := Plan(Failed(CancelledByRequester))

  predicate Cancelled(c: Chain) {
    c.cancelEvent == Some(true)
  }

  function Put(c: Chain, item: QueueItem): Chain {
    match c.queue
    case None => c
    case Some(q) => c.(queue := Some(q + [item]), puts := c.puts + [item])
  }

  function Abort(c: Chain, error: PlanError): Chain {
    Put(Put(c, Plan(Failed(error))), Stop)
  }

  /** Pops the head of the remaining groups; an exhausted session pops nothing. */
  function GetNextGroup(s: Session): (Session, Option<seq<Path>>) {
    if s.groups == [] then (s, None)
    else (Session(s.groups[1..], s.groups[0]), Some(s.groups[0]))
  }

  /** `_on_group_planned` for a failed result: it cannot raise. */
  function OnFailedGroup(c: Chain, error: PlanError): Chain {
    if Cancelled(c) then c else Put(Put(c, Plan(Failed(error))), Stop)
  }

  /** `_schedule_next`; the flag says whether the call raised. */
  function ScheduleNext(c: Chain, start: RobotState, d: Dispatch): (Chain, bool) {
    if Cancelled(c) then (c, false)
    else if c.session.None? || c.session.value.groups == [] then (Put(c, Stop), false)
    else
      var (session, group) := GetNextGroup(c.session.value);
      var c := c.(session := Some(session));
      if group.value == [] then (Put(c, Stop), false)
      else PlanGroupAsync(c.(calls := c.calls + [PlannerCall(group.value, start)]), group.value, d)
  }

  /** `plan_group_async` of either service: a failure before sending is delivered in the same step. */
  function PlanGroupAsync(c: Chain, group: seq<Path>, d: Dispatch): (Chain, bool) {
    match d
    case Sent => (c.(outstanding := c.outstanding + [PlanRequest(group)]), false)
    case SendRaises => (c, true)
    case ClientMissing => (OnFailedGroup(c, ClientNotReady), false)
    case BuildFails => (OnFailedGroup(c, RequestNotBuilt), false)
  }

  /** `_on_group_planned`; the flag says whether chaining raised. */
  function OnGroupPlanned(c: Chain, dto: PlanResult, d: Dispatch): (Chain, bool) {
    match dto
    case Failed(error) => (OnFailedGroup(c, error), false)
    case Planned(trajectories, _, _) =>
      if Cancelled(c) then (c, false)
      else
        var c := Put(c, Plan(dto));
        match ExtractEndState(trajectories)
        case Failure(e) => (Abort(c, e), false)
        case Success(end) => ScheduleNext(c, end, d)
  }

  /** `_on_plan_response` of either service: when chaining raises, the callback is entered again. */
  function OnPlanResponse(c: Chain, group: seq<Path>, reply: PlannerReply, d: Dispatch): Chain
    requires group != []
  {
    var (c, raised) := OnGroupPlanned(c, ToResult(group, reply), d);
    if raised then OnFailedGroup(c, ReplyFailed) else c
  }

  /** `_on_scene`: everything that raises inside it aborts the sequence. */
  function OnScene(c: Chain, reply: SceneReply, d: Dispatch): Chain {
    if Cancelled(c) then c
    else
      match reply
      case SceneRaised => Abort(c, SceneFailed)
      case SceneMissing => Abort(c, NoRobotState)
      case SceneState(robot) =>
        var (c, raised) := ScheduleNext(c.(seed := Some(robot)), robot, d);
        if raised then Abort(c, SceneFailed) else c
  }

  /** A reply leaves the list of outstanding requests before its callback runs. */
  function Take(c: Chain, i: nat): Chain
    requires i < |c.outstanding|
  {
    c.(outstanding := c.outstanding[..i] + c.outstanding[i + 1..], replies := c.replies + 1)
  }

  datatype SceneCall = Unavailable | CallRaises | Requested

  /** `plan_all`: a fresh session, whatever the coordinator held before; requests in flight stay in flight. */
  function PlanAll(c: Chain, groups: seq<seq<Path>>, scene: SceneCall): (Chain, Result<bool, PlanError>) {
    var clean := Chain(Some([]), Some(false), Some(Session(groups, [])), c.outstanding, None, [], [], 0);
    match scene
    case Requested => (clean.(outstanding := c.outstanding + [SceneRequest]), Success(true))
    case CallRaises => (clean, Failure(SceneFailed))
    case Unavailable => (clean.(queue := None, cancelEvent := None, session := None), Success(false))
  }

  /** `cancel`: raises the event, empties the queue and leaves a failure and a sentinel on it. */
  function Cancel(c: Chain): Chain {
    c.(cancelEvent := if c.cancelEvent.Some? then Some(true) else None,
       queue := if c.queue.Some? then Some([CANCELLED, Stop]) else None)
  }

  /** One turn of `iterate_planned_trajectories`, which blocks while the queue is empty. */
  function Dequeue(c: Chain): (Chain, QueueItem)
    requires c.queue != Some([])
  {
    match c.queue
    case None => (c, Plan(Failed(QueueNotInitialised)))
    case Some(q) =>
      if q[0] == Stop then (c.(queue := None, cancelEvent := None, session := None), Stop)
      else (c.(queue := Some(q[1..])), q[0])
  }
}
