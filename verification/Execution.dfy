/**
 The execute callback, the planning chain and their environment as one step system.

 The two nested loops of `_execute_callback` appear as a program counter, because any callback may
 run between two of their iterations. An event that is not enabled leaves the state alone, so every
 sequence of events is an interleaving and every interleaving is a sequence of events.
 */
module Execution {
  import opened Paths
  import opened PlannerReplies
  import opened PlanningSteps
  import opened Wrappers

  datatype Feedback = Executing(ids: seq<string>) | Completed(ids: seq<string>)

  datatype Pc =
    | Starting
    | Waiting                              // blocked on the plan queue
    | Sending(plan: PlanResult, at: nat)   // about to send trajectory `at` of the plan
    | Awaiting(plan: PlanResult, at: nat)  // blocked until that trajectory's result arrives
    | Finished(outcome: Outcome)

  /** How a goal ends. */
  datatype Outcome =
    | Succeeded
    | NotInitialised
    | NothingPlanned
    | GoalCancelled
    | PlanningFailed(error: PlanError)
    | ExecutionFailed
    | UnknownException

  /** The execute callback's own state, and what an observer records of it. */
  datatype Consumer = Consumer(
    pc: Pc,
    handled: seq<QueueItem>,     // plans reported as completed
    completed: seq<string>,
    feedback: seq<Feedback>,
    taken: seq<QueueItem>,       // what it got from the queue
    sent: seq<Trajectory>,       // trajectories sent for execution
    succeeded: seq<Trajectory>   // trajectories whose execution returned SUCCEEDED
  )

  datatype World = World(groups: seq<seq<Path>>, chain: Chain, consumer: Consumer, cancelRequested: bool)

  datatype ExecutionReply = Raised | Answer(status: int, errorCode: Option<int>)

  datatype Readiness = NotReady | Ready(scene: SceneCall)

  datatype Event =
    | Begin(readiness: Readiness)
    | SceneArrives(i: nat, scene: SceneReply, d: Dispatch)
    | PlanArrives(i: nat, reply: PlannerReply, d: Dispatch)
    | CancelCallback
    | CancelAccepted
    | Consume
    | Send(raises: bool)
    | ResultArrives(outcome: ExecutionReply)

  const STATUS_SUCCEEDED := 4

  /**
   The state in which the goal is accepted. `leftover` is whatever earlier sessions left in the
   coordinator; what an observer records starts afresh.
   */
  function Init(groups: seq<seq<Path>>, leftover: Chain): World {
    var chain := leftover.(seed := None, calls := [], puts := [], replies := 0);
    World(groups, chain, Consumer(Starting, [], [], [], [], [], []), false)
  }

  function Fail(k: Consumer, outcome: Outcome): Consumer {
    k.(pc := Finished(outcome))
  }

  function Start(w: World, readiness: Readiness): World {
    match readiness
    case NotReady => w.(consumer := Fail(w.consumer, NotInitialised))
    case Ready(scene) =>
      var (chain, started) := PlanAll(w.chain, w.groups, scene);
      var consumer :=
        match started
        case Success(true) => w.consumer.(pc := Waiting)
        case Success(false) => Fail(w.consumer, NothingPlanned)
        case Failure(_) => Fail(w.consumer, UnknownException);
      w.(chain := chain, consumer := consumer)
  }

  /** The inner loop's head: send the next trajectory, or report the plan as completed. */
  function Advance(k: Consumer, plan: PlanResult, at: nat): Consumer
    requires plan.Planned? && at <= |plan.trajectories|
  {
    if at < |plan.trajectories| then k.(pc := Sending(plan, at))
    else k.(pc := Waiting, handled := k.handled + [Plan(plan)], completed := k.completed + plan.pathIds,
            feedback := k.feedback + [Completed(plan.pathIds)])
  }

  /** One item from the queue: the sentinel ends the loop, a failure or a cancelled goal ends the goal. */
  function HandleItem(k: Consumer, item: QueueItem, cancelRequested: bool): (r: Consumer)
    ensures r.pc == Finished(Succeeded) <==> item == Stop
    ensures r.pc == Finished(GoalCancelled) <==> item != Stop && cancelRequested
    ensures !r.pc.Finished? <==> item.Plan? && item.dto.Planned? && !cancelRequested
  {
    var k := k.(taken := k.taken + [item]);
    match item
    case Stop => k.(pc := Finished(Succeeded))
    case Plan(dto) =>
      if cancelRequested then Fail(k, GoalCancelled)
      else if dto.Failed? then Fail(k, PlanningFailed(dto.error))
      else Advance(k.(feedback := k.feedback + [Executing(dto.pathIds)]), dto, 0)
  }

  function SendTrajectory(k: Consumer, cancelRequested: bool, raises: bool): (r: Consumer)
    requires k.pc.Sending? && k.pc.plan.Planned? && k.pc.at < |k.pc.plan.trajectories|
    ensures !r.pc.Finished? <==> !cancelRequested && !raises
    ensures r.sent == k.sent <==> r.pc.Finished?
  {
    if cancelRequested then Fail(k, ExecutionFailed)
    else if raises then Fail(k, UnknownException)
    else k.(pc := Awaiting(k.pc.plan, k.pc.at), sent := k.sent + [k.pc.plan.trajectories[k.pc.at]])
  }

  /** The flag says whether planning is cancelled as well: it is not when MoveIt reports a cancellation. */
  function HandleExecution(k: Consumer, outcome: ExecutionReply): (r: (Consumer, bool))
    requires k.pc.Awaiting? && k.pc.plan.Planned? && k.pc.at < |k.pc.plan.trajectories|
    ensures !r.0.pc.Finished? <==> outcome == Answer(4, Some(1))
    ensures r.1 <==> outcome.Answer? && outcome.status != 5 && outcome.status != 6 && outcome != Answer(4, Some(1))
  {
    match outcome
    case Raised => (Fail(k, UnknownException), false)
    case Answer(status, errorCode) =>
      if status == 5 || status == 6 then (Fail(k, ExecutionFailed), false)
      else if status != STATUS_SUCCEEDED || errorCode != Some(MOVEIT_SUCCESS) then
        (Fail(k, ExecutionFailed), true)
      else
        (Advance(k.(succeeded := k.succeeded + [k.pc.plan.trajectories[k.pc.at]]), k.pc.plan, k.pc.at + 1), false)
  }

  /** A reply needs its request, a queue item is awaited, and the loop is at one place at a time. */
  predicate CanHappen(outstanding: seq<Request>, queue: Option<seq<QueueItem>>, pc: Pc, e: Event) {
    match e
    case Begin(_) => pc.Starting?
    case SceneArrives(i, _, _) => i < |outstanding| && outstanding[i].SceneRequest?
    case PlanArrives(i, reply, _) =>
      && i < |outstanding|
      && outstanding[i].PlanRequest?
      && outstanding[i].group != []
      && ReplyFits(SelectService(outstanding[i].group), reply)
    case CancelCallback => true
    case CancelAccepted => true
    case Consume => pc.Waiting? && queue != Some([])
    case Send(_) => pc.Sending? && pc.plan.Planned? && pc.at < |pc.plan.trajectories|
    case ResultArrives(_) => pc.Awaiting? && pc.plan.Planned? && pc.at < |pc.plan.trajectories|
  }

  predicate Enabled(w: World, e: Event) {
    CanHappen(w.chain.outstanding, w.chain.queue, w.consumer.pc, e)
  }

  function Step(w: World, e: Event): World {
    if !Enabled(w, e) then w
    else
      match e
      case Begin(readiness) => Start(w, readiness)
      case SceneArrives(i, scene, d) => w.(chain := OnScene(Take(w.chain, i), scene, d))
      case PlanArrives(i, reply, d) =>
        w.(chain := OnPlanResponse(Take(w.chain, i), w.chain.outstanding[i].group, reply, d))
      case CancelCallback => w.(chain := Cancel(w.chain))
      case CancelAccepted => w.(cancelRequested := true)
      case Consume =>
        var (chain, item) := Dequeue(w.chain);
        w.(chain := chain, consumer := HandleItem(w.consumer, item, w.cancelRequested))
      case Send(raises) => w.(consumer := SendTrajectory(w.consumer, w.cancelRequested, raises))
      case ResultArrives(outcome) =>
        var (consumer, cancels) := HandleExecution(w.consumer, outcome);
        w.(chain := if cancels then Cancel(w.chain) else w.chain, consumer := consumer)
  }

  function Run(w: World, events: seq<Event>): World
    decreases |events|
  {
    if events == [] then w else Run(Step(w, events[0]), events[1..])
  }

  lemma {:induction false} RunAppend(w: World, before: seq<Event>, after: seq<Event>)
    ensures Run(w, before + after) == Run(Run(w, before), after)
    decreases |before|
  {
    if before == [] {
      assert before + after == after;
    } else {
      RunAppend(Step(w, before[0]), before[1..], after);
      assert (before + after)[1..] == before[1..] + after;
    }
  }
}
