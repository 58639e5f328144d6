/**
 Where stale replies come from: goals that end while a reply is still to come, and what that does to the
 goal after them. Every history here begins with the coordinator as the node creates it.
 */
module AbandonedGoals {
  import opened EndToEnd
  import opened Execution
  import opened Paths
  import opened PlannerReplies
  import opened PlanningSteps
  import opened StaleReplies
  import opened TrajectoryGrouper
  import opened Wrappers

  const FRESH := Chain(None, None, None, [], None, [], [], 0)

  /** A goal's groups, and what happened from its acceptance until the next goal. */
  datatype PastGoal = PastGoal(groups: seq<seq<Path>>, events: seq<Event>)

  /** What a sequence of goals leaves in the coordinator. */
  function ChainAfter(history: seq<PastGoal>): Chain {
    if history == [] then FRESH
    else
      var last := history[|history| - 1];
      After(last.groups, ChainAfter(history[..|history| - 1]), last.events).chain
  }

  // Requests are well formed in every history.

  lemma ScheduleKeepsRequests(c: Chain, start: RobotState, d: Dispatch)
    requires WellFormedRequests(c.outstanding)
    ensures WellFormedRequests(ScheduleNext(c, start, d).0.outstanding)
  {
  }

  lemma GroupPlannedKeepsRequests(c: Chain, dto: PlanResult, d: Dispatch)
    requires WellFormedRequests(c.outstanding)
    ensures WellFormedRequests(OnGroupPlanned(c, dto, d).0.outstanding)
  {
    if dto.Planned? && !Cancelled(c) {
      var put := Put(c, Plan(dto));
      match ExtractEndState(dto.trajectories)
      case Success(end) => ScheduleKeepsRequests(put, end, d);
      case Failure(_) =>
    }
    hide ScheduleNext;
  }

  lemma TakeKeepsRequests(c: Chain, i: nat)
    requires WellFormedRequests(c.outstanding) && i < |c.outstanding|
    ensures WellFormedRequests(Take(c, i).outstanding)
  {
  }

  lemma StepKeepsRequests(w: World, e: Event)
    requires WellFormedRequests(w.chain.outstanding)
    ensures WellFormedRequests(Step(w, e).chain.outstanding)
  {
    hide OnGroupPlanned, ScheduleNext, ToResult;
    if Enabled(w, e) {
      match e
      case SceneArrives(i, scene, d) =>
        TakeKeepsRequests(w.chain, i);
        if scene.SceneState? {
          ScheduleKeepsRequests(Take(w.chain, i).(seed := Some(scene.robot)), scene.robot, d);
        }
      case PlanArrives(i, reply, d) =>
        TakeKeepsRequests(w.chain, i);
        GroupPlannedKeepsRequests(Take(w.chain, i), ToResult(w.chain.outstanding[i].group, reply), d);
      case _ =>
    }
  }

  lemma {:induction false} RunKeepsRequests(w: World, events: seq<Event>)
    requires WellFormedRequests(w.chain.outstanding)
    ensures WellFormedRequests(Run(w, events).chain.outstanding)
    decreases |events|
  {
    if events != [] {
      StepKeepsRequests(w, events[0]);
      RunKeepsRequests(Step(w, events[0]), events[1..]);
    }
  }

  lemma {:induction false} HistoryKeepsRequests(history: seq<PastGoal>)
    ensures WellFormedRequests(ChainAfter(history).outstanding)
  {
    if history != [] {
      var last, before := history[|history| - 1], history[..|history| - 1];
      HistoryKeepsRequests(before);
      RunKeepsRequests(Init(last.groups, ChainAfter(before)), last.events);
    }
  }

  /** After any history: the next goal can be trusted if and only if nothing of the past is outstanding. */
  lemma NextGoalTrustworthyIff(history: seq<PastGoal>, paths: seq<Path>, groups: seq<seq<Path>>)
    requires paths != [] && UniqueIds(paths) && IsGrouping(paths, groups)
    ensures Trustworthy(paths, groups, ChainAfter(history)) <==> ChainAfter(history).outstanding == []
  {
    HistoryKeepsRequests(history);
    TrustworthyIffNothingStale(paths, groups, ChainAfter(history));
  }

  // Three ways to leave a reply behind.

  /** Cancelled before the scene reply. */
  lemma CancelLeavesScene(groups: seq<seq<Path>>)
    ensures var w := After(groups, FRESH, [BEGIN, CancelCallback, Consume]);
      w.consumer.pc == Finished(PlanningFailed(CancelledByRequester)) && w.chain.outstanding == [SceneRequest]
  {
    RunThree(Init(groups, FRESH), BEGIN, CancelCallback, Consume);
  }

  /** Cancelled while the first group is being planned. */
  lemma CancelLeavesPlan(groups: seq<seq<Path>>)
    requires groups != [] && NonEmptyParts(groups)
    ensures var w := After(groups, FRESH, [BEGIN, SCENE] + [CancelCallback, Consume]);
      w.consumer.pc == Finished(PlanningFailed(CancelledByRequester)) && w.chain.outstanding == [PlanRequest(groups[0])]
  {
    FirstGroupRequested(groups, FRESH);
    RunTwo(Init(groups, FRESH), BEGIN, SCENE, [CancelCallback, Consume]);
    var w := Step(Step(Init(groups, FRESH), BEGIN), SCENE);
    RunTwo(w, CancelCallback, Consume, []);
    assert [CancelCallback, Consume] + [] == [CancelCallback, Consume];
    hide ScheduleNext;
  }

  const ABORTED := ResultArrives(Answer(5, None))

  /** The execute callback's abort path: MoveIt reports the first trajectory as cancelled, nobody cancels planning. */
  lemma AbortLeavesPlan(groups: seq<seq<Path>>) returns (events: seq<Event>)
    requires |groups| >= 2 && NonEmptyParts(groups)
    ensures var w := After(groups, FRESH, events);
      && w.consumer.pc == Finished(ExecutionFailed)
      && !Cancelled(w.chain)
      && w.chain.outstanding == [PlanRequest(groups[1])]
  {
    var w0 := Init(groups, FRESH);
    FirstGroupRequested(groups, FRESH);
    var w2 := Step(Step(w0, BEGIN), SCENE);
    var planned := PlanArrives(0, GoodReply(groups[0]), Sent);
    var w3 := Step(w2, planned);
    SecondGroupRequested(w2, groups);
    var rest := [Consume, Send(false), ABORTED];
    events := [BEGIN, SCENE] + ([planned] + rest);
    RunTwo(w0, BEGIN, SCENE, [planned] + rest);
    assert ([planned] + rest)[1..] == rest;
    assert Run(w2, [planned] + rest) == Run(w3, rest);
    ExecutionAborts(w3, groups[0], groups[1]);
  }

  lemma SecondGroupRequested(w: World, groups: seq<seq<Path>>)
    requires |groups| >= 2 && NonEmptyParts(groups)
    requires w.consumer.pc == Waiting && !w.cancelRequested && Planning(w, [], groups[1..])
    requires w.chain.outstanding == [PlanRequest(groups[0])]
    ensures var w' := Step(w, PlanArrives(0, GoodReply(groups[0]), Sent));
      && w'.consumer.pc == Waiting && !w'.cancelRequested
      && w'.chain.queue == Some([GoodPlan(groups[0])])
      && w'.chain.cancelEvent == Some(false)
      && w'.chain.outstanding == [PlanRequest(groups[1])]
  {
    var e := PlanArrives(0, GoodReply(groups[0]), Sent);
    GoodPlanPlans(groups[0]);
    var put := Put(Take(w.chain, 0), GoodPlan(groups[0]));
    assert [] + [GoodPlan(groups[0])] == [GoodPlan(groups[0])];
    ScheduleSent(put, [GoodPlan(groups[0])], groups[1..], STILL);
    assert Step(w, e) == w.(chain := ScheduleNext(put, STILL, Sent).0);
    hide ScheduleNext, GoodPlan;
  }

  lemma ExecutionAborts(w: World, group: seq<Path>, next: seq<Path>)
    requires group != [] && w.consumer.pc == Waiting && !w.cancelRequested
    requires w.chain.queue == Some([GoodPlan(group)]) && w.chain.cancelEvent == Some(false)
    requires w.chain.outstanding == [PlanRequest(next)]
    ensures var w' := Run(w, [Consume, Send(false), ABORTED]);
      && w'.consumer.pc == Finished(ExecutionFailed)
      && !Cancelled(w'.chain)
      && w'.chain.outstanding == [PlanRequest(next)]
  {
    GoodPlanPlans(group);
    RunThree(w, Consume, Send(false), ABORTED);
    hide GoodPlan, ReportedIds;
  }

  // What the next goal makes of it.

  /**
   Two goals, the first given up while it executed: the second can succeed with the second group of the first
   executed, and reported, before its own paths.
   */
  lemma AbortedGoalLeaksIntoNext(paths: seq<Path>, groups: seq<seq<Path>>, next: seq<Path>, nextGroups: seq<seq<Path>>)
    returns (before: seq<Event>, after: seq<Event>)
    requires IsGrouping(paths, groups) && |groups| >= 2 && next != [] && IsGrouping(next, nextGroups)
    ensures var first := After(groups, FRESH, before);
      var second := After(nextGroups, first.chain, after);
      && first.consumer.pc == Finished(ExecutionFailed)
      && second.consumer.pc == Finished(Succeeded)
      && second.consumer.completed == Ids(groups[1]) + Ids(next) != Ids(next)
  {
    before := AbortLeavesPlan(groups);
    ReportedIsWhole(paths, groups, 1);
    after := StalePlanIsExecuted(next, nextGroups, After(groups, FRESH, before).chain);
  }

  /** The same after a client's cancel, with the first group of the cancelled goal. */
  lemma CancelledGoalLeaksIntoNext(paths: seq<Path>, groups: seq<seq<Path>>, next: seq<Path>,
                                   nextGroups: seq<seq<Path>>)
    returns (before: seq<Event>, after: seq<Event>)
    requires IsGrouping(paths, groups) && groups != [] && next != [] && IsGrouping(next, nextGroups)
    ensures var first := After(groups, FRESH, before);
      var second := After(nextGroups, first.chain, after);
      && first.consumer.pc == Finished(PlanningFailed(CancelledByRequester))
      && second.consumer.pc == Finished(Succeeded)
      && second.consumer.completed == Ids(groups[0]) + Ids(next) != Ids(next)
  {
    before := [BEGIN, SCENE] + [CancelCallback, Consume];
    CancelLeavesPlan(groups);
    ReportedIsWhole(paths, groups, 0);
    after := StalePlanIsExecuted(next, nextGroups, After(groups, FRESH, before).chain);
  }

  /** A goal cancelled before its scene reply can make the next one succeed without its first group. */
  lemma CancelledGoalHidesGroupOfNext(groups: seq<seq<Path>>, next: seq<Path>, nextGroups: seq<seq<Path>>)
    returns (before: seq<Event>, after: seq<Event>)
    requires next != [] && IsGrouping(next, nextGroups)
    ensures var first := After(groups, FRESH, before);
      var second := After(nextGroups, first.chain, after);
      && first.consumer.pc == Finished(PlanningFailed(CancelledByRequester))
      && second.consumer.pc == Finished(Succeeded)
      && second.consumer.completed == Ids(next[|nextGroups[0]|..]) != Ids(next)
  {
    before := [BEGIN, CancelCallback, Consume];
    CancelLeavesScene(groups);
    EmptyGrouping(next, nextGroups);
    after := StaleSceneSkipsGroup(next, nextGroups, After(groups, FRESH, before).chain);
  }
}
