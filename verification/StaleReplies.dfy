/**
 The assumption about earlier sessions, measured: the callbacks act on whatever session the coordinator
 holds, so a reply that an earlier session still has coming is handled as if it belonged to this one.

 A goal can be trusted to complete exactly its own paths if and only if no such reply is outstanding.
 */
module StaleReplies {
  import opened EndToEnd
  import opened Execution
  import opened Paths
  import opened PlannerReplies
  import opened PlanningSteps
  import opened Sequences
  import opened TrajectoryGrouper
  import opened Wrappers

  /** Requests as the coordinator makes them: it never asks for an empty group. */
  ghost predicate WellFormedRequests(requests: seq<Request>) {
    forall i :: 0 <= i < |requests| && requests[i].PlanRequest? ==> requests[i].group != []
  }

  const MOTION := Trajectory([], [[]])
  const STILL := RobotState([], [], [])
  const DONE := ResultArrives(Answer(STATUS_SUCCEEDED, Some(MOVEIT_SUCCESS)))

  /** A reply with which a planner plans `group` by one trajectory. */
  function GoodReply(group: seq<Path>): PlannerReply
    requires group != []
  {
    if SelectService(group) == Ompl then OmplAnswer(MOVEIT_SUCCESS, MOTION) else PilzAnswer(MOVEIT_SUCCESS, [MOTION])
  }

  function GoodPlan(group: seq<Path>): QueueItem
    requires group != []
  {
    Plan(ToResult(group, GoodReply(group)))
  }

  function GoodPlans(groups: seq<seq<Path>>): (plans: seq<QueueItem>)
    requires forall k :: 0 <= k < |groups| ==> groups[k] != []
    ensures |plans| == |groups|
    ensures forall k :: 0 <= k < |groups| ==> plans[k] == GoodPlan(groups[k])
  {
    seq(|groups|, k requires 0 <= k < |groups| => GoodPlan(groups[k]))
  }

  lemma GoodPlansCons(group: seq<Path>, rest: seq<seq<Path>>)
    requires group != [] && forall k :: 0 <= k < |rest| ==> rest[k] != []
    ensures GoodPlans([group] + rest) == [GoodPlan(group)] + GoodPlans(rest)
  {
    hide GoodPlan;
  }

  /** The ids reported for some groups, in order. */
  function ReportedBy(groups: seq<seq<Path>>): seq<string>
    requires forall k :: 0 <= k < |groups| ==> groups[k] != []
  {
    if groups == [] then [] else ReportedIds(groups[0]) + ReportedBy(groups[1..])
  }

  lemma GoodPlanPlans(group: seq<Path>)
    requires group != []
    ensures GoodPlan(group) == Plan(Planned([MOTION], ReportedIds(group), |ReportedIds(group)| > 1))
    ensures ExtractEndState([MOTION]) == Success(STILL)
  {
    assert ExtractEndState([MOTION]).value.velocities == [];
  }

  ghost predicate Planning(w: World, q: seq<QueueItem>, rest: seq<seq<Path>>) {
    && w.chain.queue == Some(q)
    && w.chain.cancelEvent == Some(false)
    && w.chain.session.Some?
    && w.chain.session.value.groups == rest
    && (forall k :: 0 <= k < |rest| ==> rest[k] != [])
  }

  /** Scheduling, when nothing goes wrong: the next group is requested, or the sentinel is put. */
  lemma ScheduleSent(c: Chain, q: seq<QueueItem>, rest: seq<seq<Path>>, start: RobotState)
    requires c.queue == Some(q) && c.cancelEvent == Some(false) && c.session.Some? && c.session.value.groups == rest
    requires rest != [] ==> rest[0] != []
    ensures var (c', raised) := ScheduleNext(c, start, Sent);
      && !raised
      && c'.cancelEvent == Some(false)
      && c'.session.Some?
      && if rest == [] then c'.queue == Some(q + [Stop])
         else
           && c'.queue == Some(q)
           && c'.session.value.groups == rest[1..]
           && c'.outstanding == c.outstanding + [PlanRequest(rest[0])]
  {
  }

  /** The newest request is answered by a plan. */
  lemma PlanOne(w: World, q: seq<QueueItem>, group: seq<Path>, rest: seq<seq<Path>>, e: Event)
    requires Planning(w, q, rest) && group != []
    requires w.chain.outstanding != [] && Last(w.chain.outstanding) == PlanRequest(group)
    requires e == PlanArrives(|w.chain.outstanding| - 1, GoodReply(group), Sent)
    ensures var w' := Step(w, e);
      && w'.consumer == w.consumer && w'.cancelRequested == w.cancelRequested
      && if rest == [] then w'.chain.queue == Some(q + [GoodPlan(group)] + [Stop])
         else
           && Planning(w', q + [GoodPlan(group)], rest[1..])
           && w'.chain.outstanding != [] && Last(w'.chain.outstanding) == PlanRequest(rest[0])
  {
    GoodPlanPlans(group);
    var put := Put(Take(w.chain, e.i), GoodPlan(group));
    ScheduleSent(put, q + [GoodPlan(group)], rest, STILL);
    assert Step(w, e) == w.(chain := ScheduleNext(put, STILL, Sent).0);
    hide ScheduleNext, GoodPlan;
  }

  /** The newest request and all groups after it are planned; the sentinel follows. */
  lemma {:induction false} DrivePlanning(w: World, q: seq<QueueItem>, group: seq<Path>, rest: seq<seq<Path>>)
    returns (events: seq<Event>)
    requires Planning(w, q, rest) && group != []
    requires w.chain.outstanding != [] && Last(w.chain.outstanding) == PlanRequest(group)
    ensures var w' := Run(w, events);
      && w'.consumer == w.consumer && w'.cancelRequested == w.cancelRequested
      && w'.chain.queue == Some(q + GoodPlans([group] + rest) + [Stop])
    decreases |rest|
  {
    var e := PlanArrives(|w.chain.outstanding| - 1, GoodReply(group), Sent);
    var w1 := Step(w, e);
    PlanOne(w, q, group, rest, e);
    hide Step, GoodPlan, GoodPlans, GoodReply;
    if rest == [] {
      events := [e];
      assert Run(w, events) == Run(w1, []);
      assert GoodPlans([group] + rest) == [GoodPlan(group)];
    } else {
      var later := DrivePlanning(w1, q + [GoodPlan(group)], rest[0], rest[1..]);
      events := [e] + later;
      assert events[1..] == later;
      assert [rest[0]] + rest[1..] == rest;
      GoodPlansCons(group, rest);
      AppendAssociates(q, [GoodPlan(group)], GoodPlans(rest));
    }
  }

  /** The consumer takes a plan of one trajectory, sends it and sees it succeed. */
  lemma ExecuteOne(w: World, group: seq<Path>, q: seq<QueueItem>)
    requires w.consumer.pc == Waiting && !w.cancelRequested && group != []
    requires w.chain.queue == Some([GoodPlan(group)] + q)
    ensures var w' := Run(w, [Consume, Send(false), DONE]);
      && w'.consumer.pc == Waiting
      && w'.cancelRequested == w.cancelRequested
      && w'.chain == w.chain.(queue := Some(q))
      && w'.consumer.completed == w.consumer.completed + ReportedIds(group)
  {
    GoodPlanPlans(group);
    RunThree(w, Consume, Send(false), DONE);
    assert ([GoodPlan(group)] + q)[1..] == q;
    hide GoodPlan, ReportedIds;
  }

  /** A consumer whose queue holds plans for `groups` and the sentinel can execute all of them. */
  lemma {:induction false} DriveExecution(w: World, groups: seq<seq<Path>>) returns (events: seq<Event>)
    requires w.consumer.pc == Waiting && !w.cancelRequested
    requires forall k :: 0 <= k < |groups| ==> groups[k] != []
    requires w.chain.queue == Some(GoodPlans(groups) + [Stop])
    ensures var w' := Run(w, events);
      && w'.consumer.pc == Finished(Succeeded)
      && w'.consumer.completed == w.consumer.completed + ReportedBy(groups)
    decreases |groups|
  {
    if groups == [] {
      assert GoodPlans(groups) + [Stop] == [Stop];
      events := [Consume];
      assert Run(w, events) == Run(Step(w, Consume), []);
    } else {
      hide Step, GoodPlan, GoodPlans, ReportedIds;
      var q := GoodPlans(groups[1..]) + [Stop];
      assert groups == [groups[0]] + groups[1..];
      GoodPlansCons(groups[0], groups[1..]);
      AppendAssociates([GoodPlan(groups[0])], GoodPlans(groups[1..]), [Stop]);
      ExecuteOne(w, groups[0], q);
      AppendAssociates(w.consumer.completed, ReportedIds(groups[0]), ReportedBy(groups[1..]));
      var first := [Consume, Send(false), DONE];
      var later := DriveExecution(Run(w, first), groups[1..]);
      events := first + later;
      RunAppend(w, first, later);
    }
  }

  lemma RunThree(w: World, a: Event, b: Event, c: Event)
    ensures Run(w, [a, b, c]) == Step(Step(Step(w, a), b), c)
  {
    assert [a, b, c][1..] == [b, c] && [b, c][1..] == [c] && [c][1..] == [];
    assert Run(w, [a, b, c]) == Run(Step(w, a), [b, c]);
    assert Run(Step(w, a), [b, c]) == Run(Step(Step(w, a), b), [c]);
  }

  /** The ids reported for a grouping are the goal's ids. */
  lemma {:induction false} ReportedByGrouping(paths: seq<Path>, groups: seq<seq<Path>>)
    requires IsGrouping(paths, groups)
    ensures ReportedBy(groups) == Ids(paths)
    decreases |groups|
  {
    if groups != [] {
      DropFirst(paths, groups);
      ReportedIsWhole(paths, groups, 0);
      var n := |groups[0]|;
      ReportedByGrouping(paths[n..], groups[1..]);
      IdsAppend(paths[..n], paths[n..]);
      assert paths == paths[..n] + paths[n..];
    }
  }

  /** From a state that is planning the last `rest` groups, a run that plans and executes them. */
  lemma DriveGoal(w: World, q: seq<seq<Path>>, group: seq<Path>, rest: seq<seq<Path>>) returns (events: seq<Event>)
    requires forall k :: 0 <= k < |q| ==> q[k] != []
    requires Planning(w, GoodPlans(q), rest) && group != []
    requires w.chain.outstanding != [] && Last(w.chain.outstanding) == PlanRequest(group)
    requires w.consumer.pc == Waiting && !w.cancelRequested
    ensures var w' := Run(w, events);
      && w'.consumer.pc == Finished(Succeeded)
      && w'.consumer.completed == w.consumer.completed + ReportedBy(q + [group] + rest)
  {
    var planning := DrivePlanning(w, GoodPlans(q), group, rest);
    var w1 := Run(w, planning);
    var all := q + [group] + rest;
    assert GoodPlans(q) + GoodPlans([group] + rest) == GoodPlans(all);
    var executing := DriveExecution(w1, all);
    events := planning + executing;
    RunAppend(w, planning, executing);
  }

  const BEGIN := Begin(Ready(Requested))
  const SCENE := SceneArrives(0, SceneState(STILL), Sent)

  /** Begun, and the first group requested. */
  lemma FirstGroupRequested(groups: seq<seq<Path>>, leftover: Chain)
    requires groups != [] && NonEmptyParts(groups) && leftover.outstanding == []
    ensures var w := Step(Step(Init(groups, leftover), BEGIN), SCENE);
      && w.consumer.pc == Waiting && !w.cancelRequested
      && Planning(w, [], groups[1..])
      && w.chain.outstanding == [PlanRequest(groups[0])]
  {
    var w1 := Step(Init(groups, leftover), BEGIN);
    assert w1.chain.outstanding == [SceneRequest];
    var c := Take(w1.chain, 0).(seed := Some(STILL));
    ScheduleSent(c, [], groups, STILL);
    assert Step(w1, SCENE) == w1.(chain := ScheduleNext(c, STILL, Sent).0);
    hide ScheduleNext;
  }

  /** The promise is not empty: every goal has an interleaving in which it succeeds. */
  lemma GoalCanSucceed(paths: seq<Path>, groups: seq<seq<Path>>, leftover: Chain) returns (events: seq<Event>)
    requires paths != [] && IsGrouping(paths, groups) && leftover.outstanding == []
    ensures After(groups, leftover, events).consumer.pc == Finished(Succeeded)
  {
    EmptyGrouping(paths, groups);
    FirstGroupRequested(groups, leftover);
    hide IsGrouping, Step;
    var w0 := Init(groups, leftover);
    assert GoodPlans([]) == [];
    var later := DriveGoal(Step(Step(w0, BEGIN), SCENE), [], groups[0], groups[1..]);
    events := [BEGIN, SCENE] + later;
    RunTwo(w0, BEGIN, SCENE, later);
  }

  lemma RunTwo(w: World, a: Event, b: Event, later: seq<Event>)
    ensures Run(w, [a, b] + later) == Run(Step(Step(w, a), b), later)
  {
    assert ([a, b] + later)[1..] == [b] + later && ([b] + later)[1..] == later;
    assert Run(w, [a, b] + later) == Run(Step(w, a), [b] + later);
  }

  /** A planner reply from an earlier session: its result is executed first, as if it were this goal's. */
  lemma StalePlanIsExecuted(paths: seq<Path>, groups: seq<seq<Path>>, leftover: Chain) returns (events: seq<Event>)
    requires paths != [] && IsGrouping(paths, groups)
    requires WellFormedRequests(leftover.outstanding) && leftover.outstanding != []
    requires leftover.outstanding[0].PlanRequest?
    ensures var w := After(groups, leftover, events);
      && w.consumer.pc == Finished(Succeeded)
      && w.consumer.completed == ReportedIds(leftover.outstanding[0].group) + Ids(paths)
      && w.consumer.completed != Ids(paths)
  {
    EmptyGrouping(paths, groups);
    var stale := leftover.outstanding[0].group;
    var w0 := Init(groups, leftover);
    var w1 := Step(w0, Begin(Ready(Requested)));
    var e := PlanArrives(0, GoodReply(stale), Sent);
    var w2 := Step(w1, e);
    GoodPlanPlans(stale);
    var put := Put(Take(w1.chain, 0), GoodPlan(stale));
    assert w1.chain.queue == Some([]) && [] + [GoodPlan(stale)] == [GoodPlan(stale)];
    ScheduleSent(put, [GoodPlan(stale)], groups, STILL);
    assert w2 == w1.(chain := ScheduleNext(put, STILL, Sent).0);
    assert GoodPlans([stale]) == [GoodPlan(stale)];
    var later := DriveGoal(w2, [stale], groups[0], groups[1..]);
    events := [Begin(Ready(Requested)), e] + later;
    RunTwo(w0, Begin(Ready(Requested)), e, later);
    assert ([stale] + [groups[0]] + groups[1..])[1..] == groups;
    ReportedByGrouping(paths, groups);
  }

  /** A scene reply from an earlier session: it takes the first group, which no result then covers. */
  lemma StaleSceneSkipsGroup(paths: seq<Path>, groups: seq<seq<Path>>, leftover: Chain) returns (events: seq<Event>)
    requires paths != [] && IsGrouping(paths, groups)
    requires leftover.outstanding != [] && leftover.outstanding[0].SceneRequest?
    ensures var w := After(groups, leftover, events);
      && w.consumer.pc == Finished(Succeeded)
      && w.consumer.completed == Ids(paths[|groups[0]|..])
      && w.consumer.completed != Ids(paths)
  {
    EmptyGrouping(paths, groups);
    DropFirst(paths, groups);
    var n := |leftover.outstanding|;
    var w0 := Init(groups, leftover);
    var w1 := Step(w0, Begin(Ready(Requested)));
    var w2 := Step(w1, SceneArrives(0, SceneState(STILL), Sent));
    ScheduleSent(Take(w1.chain, 0).(seed := Some(STILL)), [], groups, STILL);
    assert w2.chain.outstanding == leftover.outstanding[1..] + [SceneRequest] + [PlanRequest(groups[0])];
    var e := SceneArrives(n - 1, SceneState(STILL), Sent);
    var w3 := Step(w2, e);
    var rest := groups[1..];
    ScheduleSent(Take(w2.chain, n - 1).(seed := Some(STILL)), [], rest, STILL);
    var later;
    if rest == [] {
      assert w3.chain.queue.value == GoodPlans([]) + [Stop];
      later := DriveExecution(w3, []);
    } else {
      later := DriveGoal(w3, [], rest[0], rest[1..]);
      assert [] + [rest[0]] + rest[1..] == rest;
    }
    events := [Begin(Ready(Requested)), SceneArrives(0, SceneState(STILL), Sent), e] + later;
    RunAppend(w0, [Begin(Ready(Requested)), SceneArrives(0, SceneState(STILL), Sent), e], later);
    RunThree(w0, Begin(Ready(Requested)), SceneArrives(0, SceneState(STILL), Sent), e);
    ReportedByGrouping(paths[|groups[0]|..], rest);
  }

  /** Every successful run of the goal completes exactly its paths. */
  ghost predicate Trustworthy(paths: seq<Path>, groups: seq<seq<Path>>, leftover: Chain) {
    forall events ::
      After(groups, leftover, events).consumer.pc == Finished(Succeeded) ==>
        After(groups, leftover, events).consumer.completed == Ids(paths)
  }

  /** The exact condition, for every goal and every coordinator state a goal can find. */
  lemma TrustworthyIffNothingStale(paths: seq<Path>, groups: seq<seq<Path>>, leftover: Chain)
    requires paths != [] && UniqueIds(paths) && IsGrouping(paths, groups)
    requires WellFormedRequests(leftover.outstanding)
    ensures Trustworthy(paths, groups, leftover) <==> leftover.outstanding == []
  {
    if leftover.outstanding == [] {
      forall events | After(groups, leftover, events).consumer.pc == Finished(Succeeded)
        ensures After(groups, leftover, events).consumer.completed == Ids(paths)
      {
        SuccessMeansEverything(paths, groups, leftover, events);
      }
    } else if leftover.outstanding[0].PlanRequest? {
      var events := StalePlanIsExecuted(paths, groups, leftover);
    } else {
      var events := StaleSceneSkipsGroup(paths, groups, leftover);
    }
  }
}
