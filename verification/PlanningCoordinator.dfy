/**
 The coordinator as an object that its callbacks update in place, proved against the step functions.

 What a ROS future would do is a parameter: whether a call can be sent, and what a reply holds. The
 requests in flight are a field, so that a reply names the one it answers.
 */
module Coordinator {
  import opened Cancellation
  import opened EndToEnd
  import opened Execution
  import opened Paths
  import opened PlannerReplies
  import opened PlanningSteps
  import opened RepliesSeen
  import opened Sequences
  import opened TrajectoryGrouper
  import opened Wrappers

  /** The thread-safe queue between the callbacks and the execute callback. */
  class PlanQueue {
    var items: seq<QueueItem>

    constructor ()
      ensures items == []
    {
      items := [];
    }

    method Put(item: QueueItem)
      modifies this
      ensures items == old(items) + [item]
    {
      items := items + [item];
    }

    method Clear()
      modifies this
      ensures items == []
    {
      items := [];
    }

    /** Called only when an item is there: the source blocks until then. */
    method Get() returns (item: QueueItem)
      requires items != []
      modifies this
      ensures item == old(items)[0] && items == old(items)[1..]
    {
      item := items[0];
      items := items[1..];
    }
  }

  class CancelEvent {
    var isSet: bool

    constructor ()
      ensures !isSet
    {
      isSet := false;
    }
  }

  class PlanningSession {
    var groups: seq<seq<Path>>
    var currentGroup: seq<Path>

    constructor (groups: seq<seq<Path>>)
      ensures this.groups == groups && currentGroup == []
    {
      this.groups := groups;
      currentGroup := [];
    }

    /** Pops and remembers the first group; an exhausted session is left as it is. */
    method PopNextGroup() returns (group: Option<seq<Path>>)
      modifies this
      ensures (Session(groups, currentGroup), group) == GetNextGroup(old(Session(groups, currentGroup)))
      ensures group.Some? ==> [group.value] + groups == old(groups) && currentGroup == group.value
    {
      if groups != [] {
        currentGroup := groups[0];
        groups := groups[1..];
        return Some(currentGroup);
      }
      return None;
    }
  }

  /** A delivered result dispatches at most one group, from where that result leaves the robot. */
  lemma NextGroupStarts(c: Chain, dto: PlanResult, d: Dispatch)
    ensures var calls := OnGroupPlanned(c, dto, d).0.calls;
      || calls == c.calls
      || (dto.Planned? && |calls| == |c.calls| + 1 && calls[..|c.calls|] == c.calls
          && LeftAt(dto.trajectories, Last(calls).start))
  {
  }

  lemma FailureIsDelivered(c: Chain, error: PlanError, d: Dispatch)
    ensures OnGroupPlanned(c, Failed(error), d) == (OnFailedGroup(c, error), false)
  {
  }

  class PlanningCoordinator {
    var planQueue: PlanQueue?
    var cancelEvent: CancelEvent?
    var session: PlanningSession?
    var outstanding: seq<Request>

    ghost var seed: Option<RobotState>
    ghost var calls: seq<PlannerCall>
    ghost var puts: seq<QueueItem>
    ghost var replies: nat

    ghost function Footprint(): set<object>
      reads this
    {
      {this}
      + (if planQueue == null then {} else {planQueue})
      + (if cancelEvent == null then {} else {cancelEvent})
      + (if session == null then {} else {session})
    }

    function Queue(): Option<seq<QueueItem>>
      reads this, planQueue
    {
      if planQueue == null then None else Some(planQueue.items)
    }

    /** The value the step functions work on. */
    ghost function State(): Chain
      reads this, planQueue, cancelEvent, session
    {
      Chain(Queue(),
            if cancelEvent == null then None else Some(cancelEvent.isSet),
            if session == null then None else Some(Session(session.groups, session.currentGroup)),
            outstanding, seed, calls, puts, replies)
    }

    constructor ()
      ensures State() == Chain(None, None, None, [], None, [], [], 0)
      ensures fresh(Footprint())
    {
      planQueue, cancelEvent, session, outstanding := null, null, null, [];
      seed, calls, puts, replies := None, [], [], 0;
    }

    method PutIfOpen(item: QueueItem)
      modifies Footprint()
      ensures State() == Put(old(State()), item)
      ensures Footprint() == old(Footprint())
    {
      if planQueue != null {
        planQueue.Put(item);
        puts := puts + [item];
      }
    }

    method AbortPlanning(error: PlanError)
      modifies Footprint()
      ensures State() == Abort(old(State()), error)
      ensures Footprint() == old(Footprint())
    {
      PutIfOpen(Plan(Failed(error)));
      PutIfOpen(Stop);
    }

    predicate IsCancelled()
      reads this, cancelEvent
    {
      cancelEvent != null && cancelEvent.isSet
    }

    method ScheduleNextGroup(start: RobotState, d: Dispatch) returns (raised: bool)
      modifies Footprint()
      ensures (State(), raised) == ScheduleNext(old(State()), start, d)
      ensures Footprint() == old(Footprint())
      decreases 1
    {
      if IsCancelled() {
        return false;
      }
      var group: Option<seq<Path>> := None;
      if session != null {
        group := session.PopNextGroup();
      }
      if group.None? || group.value == [] {
        PutIfOpen(Stop);
        return false;
      }
      calls := calls + [PlannerCall(group.value, start)];
      match d {
        case Sent =>
          outstanding := outstanding + [PlanRequest(group.value)];
          raised := false;
        case SendRaises =>
          raised := true;
        case ClientMissing =>
          raised := GroupPlanned(Failed(ClientNotReady), d);
        case BuildFails =>
          raised := GroupPlanned(Failed(RequestNotBuilt), d);
      }
    }

    method GroupPlanned(dto: PlanResult, d: Dispatch) returns (raised: bool)
      modifies Footprint()
      ensures (State(), raised) == OnGroupPlanned(old(State()), dto, d)
      ensures calls == old(calls) || (calls != [] && dto.Planned? && LeftAt(dto.trajectories, Last(calls).start))
      ensures Footprint() == old(Footprint())
      decreases if dto.Planned? then 2 else 0
    {
      NextGroupStarts(State(), dto, d);
      if IsCancelled() {
        return false;
      }
      PutIfOpen(Plan(dto));
      if dto.Failed? {
        PutIfOpen(Stop);
        return false;
      }
      match ExtractEndState(dto.trajectories) {
        case Failure(e) =>
          AbortPlanning(e);
          raised := false;
        case Success(end) =>
          raised := ScheduleNextGroup(end, d);
      }
    }

    /** A planner reply: the callback is entered again when handling a success raises. */
    method PlannerReplied(i: nat, reply: PlannerReply, d: Dispatch)
      requires i < |outstanding| && outstanding[i].PlanRequest? && outstanding[i].group != []
      requires ReplyFits(SelectService(outstanding[i].group), reply)
      modifies Footprint()
      ensures State() == OnPlanResponse(old(Take(State(), i)), old(outstanding[i].group), reply, d)
      ensures Footprint() == old(Footprint())
    {
      hide OnGroupPlanned, ScheduleNext, ToResult, OnFailedGroup;
      ghost var taken := Take(State(), i);
      var group := outstanding[i].group;
      outstanding := outstanding[..i] + outstanding[i + 1..];
      replies := replies + 1;
      assert State() == taken;
      var raised := GroupPlanned(ToResult(group, reply), d);
      if raised {
        FailureIsDelivered(State(), ReplyFailed, d);
        raised := GroupPlanned(Failed(ReplyFailed), d);
      }
    }

    method SceneReplied(i: nat, reply: SceneReply, d: Dispatch)
      requires i < |outstanding| && outstanding[i].SceneRequest?
      modifies Footprint()
      ensures State() == OnScene(old(Take(State(), i)), reply, d)
      ensures Footprint() == old(Footprint())
    {
      hide ScheduleNext, Abort;
      outstanding := outstanding[..i] + outstanding[i + 1..];
      replies := replies + 1;
      if IsCancelled() {
        return;
      }
      match reply {
        case SceneRaised => AbortPlanning(SceneFailed);
        case SceneMissing => AbortPlanning(NoRobotState);
        case SceneState(robot) =>
          seed := Some(robot);
          var raised := ScheduleNextGroup(robot, d);
          if raised {
            AbortPlanning(SceneFailed);
          }
      }
    }

    /** A fresh event, queue and session, whatever was there before. */
    method OpenSession(groups: seq<seq<Path>>)
      modifies this
      ensures State() == PlanAll(old(State()), groups, CallRaises).0
      ensures fresh(Footprint() - {this})
    {
      cancelEvent := new CancelEvent();
      planQueue := new PlanQueue();
      session := new PlanningSession(groups);
      seed, calls, puts, replies := None, [], [], 0;
    }

    method StartPlanning(groups: seq<seq<Path>>, scene: SceneCall) returns (started: Result<bool, PlanError>)
      modifies this
      ensures (State(), started) == PlanAll(old(State()), groups, scene)
      ensures fresh(Footprint() - {this})
    {
      OpenSession(groups);
      if scene == Requested {
        outstanding := outstanding + [SceneRequest];
        return Success(true);
      } else if scene == CallRaises {
        return Failure(SceneFailed);
      }
      cancelEvent, planQueue, session := null, null, null;
      return Success(false);
    }

    method CancelPlanning()
      modifies Footprint()
      ensures State() == Cancel(old(State()))
      ensures Footprint() == old(Footprint())
    {
      if cancelEvent != null && !cancelEvent.isSet {
        cancelEvent.isSet := true;
      }
      if planQueue != null {
        planQueue.Clear();
        planQueue.Put(CANCELLED);
        planQueue.Put(Stop);
        assert planQueue.items == [CANCELLED, Stop];
      }
    }

    /** One turn of the generator; the source blocks while the queue is empty. */
    method NextPlan() returns (item: QueueItem)
      requires State().queue != Some([])
      modifies Footprint()
      ensures (State(), item) == Dequeue(old(State()))
      ensures Footprint() <= old(Footprint())
    {
      if planQueue == null {
        return Plan(Failed(QueueNotInitialised));
      }
      item := planQueue.Get();
      if item == Stop {
        planQueue, cancelEvent, session := null, null, null;
      }
    }
  }

  /** One event, acted out on the object and on the execute callback's locals. */
  method Act(planner: PlanningCoordinator, groups: seq<seq<Path>>, k: Consumer, cancelRequested: bool, e: Event)
    returns (k': Consumer, cancelRequested': bool)
    modifies planner.Footprint()
    ensures World(groups, planner.State(), k', cancelRequested')
         == Step(old(World(groups, planner.State(), k, cancelRequested)), e)
    ensures e.ResultArrives? && old(CanHappen(planner.outstanding, planner.Queue(), k.pc, e)) ==>
              && (!k'.pc.Finished? <==> e.outcome == Answer(4, Some(1)))
              && (planner.IsCancelled() <==>
                    old(planner.IsCancelled()) || (old(planner.cancelEvent) != null && CancelsPlanning(e.outcome)))
    ensures fresh(planner.Footprint() - old(planner.Footprint()))
  {
    k', cancelRequested' := k, cancelRequested;
    if !CanHappen(planner.outstanding, planner.Queue(), k.pc, e) {
      return;
    }
    match e {
      case Begin(NotReady) =>
        k' := Fail(k, NotInitialised);
      case Begin(Ready(scene)) =>
        var started := planner.StartPlanning(groups, scene);
        match started {
          case Success(true) => k' := k.(pc := Waiting);
          case Success(false) => k' := Fail(k, NothingPlanned);
          case Failure(_) => k' := Fail(k, UnknownException);
        }
      case SceneArrives(i, scene, d) =>
        planner.SceneReplied(i, scene, d);
      case PlanArrives(i, reply, d) =>
        planner.PlannerReplied(i, reply, d);
      case CancelCallback =>
        planner.CancelPlanning();
      case CancelAccepted =>
        cancelRequested' := true;
      case Consume =>
        var item := planner.NextPlan();
        k' := HandleItem(k, item, cancelRequested);
      case Send(raises) =>
        k' := SendTrajectory(k, cancelRequested, raises);
      case ResultArrives(outcome) =>
        var (consumer, cancels) := HandleExecution(k, outcome);
        k' := consumer;
        if cancels {
          planner.CancelPlanning();
        }
    }
  }

  /**
   A whole goal on the objects: validation, grouping, and then whatever the schedule brings. The schedule
   is arbitrary, so what holds of the result holds under every interleaving.
   */
  method ExecuteGoal(planner: PlanningCoordinator, request: seq<Path>, schedule: seq<Event>)
    returns (r: Result<Consumer, GoalError>)
    requires planner.outstanding == []
    modifies planner.Footprint()
    ensures r.Success? <==> request != [] && UniqueIds(request)
    ensures r.Success? ==> r.value.completed <= Ids(request)
    ensures r.Success? && r.value.pc == Finished(Succeeded) ==>
              r.value.completed == Ids(request) && r.value.sent == r.value.succeeded && planner.outstanding == []
    ensures r.Success? && r.value.pc == Finished(Succeeded) ==>
              exists groups :: IsGrouping(request, groups) &&
                var start := Init(groups, old(planner.State()));
                && AllExecuted(ExecutionsSeen(start, schedule), |r.value.sent|)
                && r.value.sent == AnswersOf(PlansSeen(start, schedule))
  {
    var validated := ValidatePaths(request);
    if validated.Failure? {
      return Failure(validated.error);
    }
    var grouped := Group(request);
    var groups := grouped.value;
    ghost var leftover := planner.State();
    var k := RunSchedule(planner, groups, schedule);
    hide After, IsGrouping, NonEmptyParts;
    CompletedIsPrefix(request, groups, leftover, schedule);
    SettledGoalLeavesNothing(groups, leftover, schedule);
    if k.pc == Finished(Succeeded) {
      SuccessMeansEverything(request, groups, leftover, schedule);
      SuccessIsWhatWasAnswered(request, groups, leftover, schedule);
    }
    return Success(k);
  }

  /** The callbacks and the execute callback take turns as the schedule says. */
  method RunSchedule(planner: PlanningCoordinator, groups: seq<seq<Path>>, schedule: seq<Event>)
    returns (k: Consumer)
    modifies planner.Footprint()
    ensures var w := After(groups, old(planner.State()), schedule); k == w.consumer && planner.State() == w.chain
  {
    ghost var leftover := planner.State();
    planner.seed, planner.calls, planner.puts, planner.replies := None, [], [], 0;
    var cancelRequested := false;
    k := Consumer(Starting, [], [], [], [], [], []);
    for n := 0 to |schedule|
      invariant World(groups, planner.State(), k, cancelRequested) == After(groups, leftover, schedule[..n])
      invariant fresh(planner.Footprint() - old(planner.Footprint()))
    {
      k, cancelRequested := Act(planner, groups, k, cancelRequested, schedule[n]);
      AfterOneMore(groups, leftover, schedule, n);
    }
    assert schedule[..|schedule|] == schedule;
  }

  lemma AfterOneMore(groups: seq<seq<Path>>, leftover: Chain, schedule: seq<Event>, n: nat)
    requires n < |schedule|
    ensures After(groups, leftover, schedule[..n + 1]) == Step(After(groups, leftover, schedule[..n]), schedule[n])
  {
    assert schedule[..n + 1] == schedule[..n] + [schedule[n]];
    RunAppend(Init(groups, leftover), schedule[..n], [schedule[n]]);
    var w := After(groups, leftover, schedule[..n]);
    assert Run(w, [schedule[n]]) == Run(Step(w, schedule[n]), []);
  }
}
