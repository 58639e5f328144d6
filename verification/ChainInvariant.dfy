/** What every callback of the planning chain keeps, stated on the chain alone. */
module ChainInvariant {
  import opened Paths
  import opened PlannerReplies
  import opened PlanningSteps
  import opened Sequences
  import opened TrajectoryGrouper
  import opened Wrappers

  predicate IsPlanned(item: QueueItem) {
    item.Plan? && item.dto.Planned?
  }

  predicate IsFailure(item: QueueItem) {
    item.Plan? && item.dto.Failed?
  }

  ghost predicate PlannedUpTo(items: seq<QueueItem>, n: int)
    requires n <= |items|
  {
    forall i :: 0 <= i < n ==> IsPlanned(items[i])
  }

  ghost predicate AllPlanned(items: seq<QueueItem>) {
    PlannedUpTo(items, |items|)
  }

  /** Successes and the sentinel: every group was planned. */
  ghost predicate CompleteWithoutFailure(puts: seq<QueueItem>) {
    puts != [] && Last(puts) == Stop && PlannedUpTo(puts, |puts| - 1)
  }

  /** Successes, one failure and the sentinel. */
  ghost predicate CompleteWithFailure(puts: seq<QueueItem>) {
    |puts| >= 2 && Last(puts) == Stop && IsFailure(puts[|puts| - 2]) && PlannedUpTo(puts, |puts| - 2)
  }

  ghost predicate Complete(puts: seq<QueueItem>) {
    CompleteWithoutFailure(puts) || CompleteWithFailure(puts)
  }

  ghost predicate Grammar(puts: seq<QueueItem>) {
    AllPlanned(puts) || Complete(puts)
  }

  /** Result i belongs to group i. */
  ghost predicate Delivers(item: QueueItem, group: seq<Path>)
    requires IsPlanned(item) && group != []
  {
    item.dto.pathIds == ReportedIds(group) && (item.dto.blended <==> |item.dto.pathIds| > 1)
  }

  /** Group i is planned from the scene state, or from where result i - 1 leaves the robot. */
  ghost predicate ChainedStart(seed: Option<RobotState>, calls: seq<PlannerCall>, puts: seq<QueueItem>, i: nat)
    requires i < |calls|
  {
    if i == 0 then seed == Some(calls[0].start)
    else
      && i - 1 < |puts|
      && IsPlanned(puts[i - 1])
      && LeftAt(puts[i - 1].dto.trajectories, calls[i].start)
  }

  ghost predicate ChainedCalls(seed: Option<RobotState>, calls: seq<PlannerCall>, puts: seq<QueueItem>,
                               groups: seq<seq<Path>>)
  {
    && |calls| <= |groups|
    && forall i :: 0 <= i < |calls| ==> calls[i].group == groups[i] && ChainedStart(seed, calls, puts, i)
  }

  ghost predicate DeliversInOrder(calls: seq<PlannerCall>, puts: seq<QueueItem>, groups: seq<seq<Path>>)
    requires NonEmptyParts(groups) && |calls| <= |groups|
  {
    forall i :: 0 <= i < |puts| && IsPlanned(puts[i]) ==> i < |calls| && Delivers(puts[i], groups[i])
  }

  ghost predicate Chained(c: Chain, groups: seq<seq<Path>>)
    requires NonEmptyParts(groups)
  {
    && Grammar(c.puts)
    && ChainedCalls(c.seed, c.calls, c.puts, groups)
    && DeliversInOrder(c.calls, c.puts, groups)
  }

  /** The first `n` results each give a state to start from. */
  ghost predicate ExtractedUpTo(items: seq<QueueItem>, n: int)
    requires n <= |items|
  {
    forall i :: 0 <= i < n ==> IsPlanned(items[i]) && ExtractEndState(items[i].dto.trajectories).Success?
  }

  /** Before the end exactly one request is in flight; after it, none. */
  ghost predicate Progress(c: Chain, groups: seq<seq<Path>>)
    requires c.session.Some?
  {
    if AllPlanned(c.puts) then
      if c.calls == [] then
        && c.outstanding == [SceneRequest]
        && c.puts == []
        && c.session.value.groups == groups
        && c.replies == 0
      else
        && |c.calls| == |c.puts| + 1
        && |c.calls| <= |groups|
        && c.outstanding == [PlanRequest(groups[|c.puts|])]
        && c.session.value.groups == groups[|c.calls|..]
        && c.replies == |c.calls|
    else
      && c.outstanding == []
      && c.replies <= |c.calls| + 1
      && (CompleteWithoutFailure(c.puts) ==> ExtractedUpTo(c.puts, |c.puts| - 1) && |c.puts| == |groups| + 1)
  }

  /** The coordinator holds a session that nobody cancelled; `taken` is what left its queue. */
  ghost predicate Active(c: Chain, taken: seq<QueueItem>) {
    && c.queue.Some?
    && c.cancelEvent == Some(false)
    && c.session.Some?
    && c.puts == taken + c.queue.value
  }

  ghost predicate Live(c: Chain, groups: seq<seq<Path>>, taken: seq<QueueItem>)
    requires NonEmptyParts(groups)
  {
    Active(c, taken) && Chained(c, groups) && Progress(c, groups)
  }

  /** Nothing is in flight and the sentinel is still to come. */
  ghost predicate Unfinished(c: Chain, groups: seq<seq<Path>>, taken: seq<QueueItem>)
    requires NonEmptyParts(groups)
  {
    && Active(c, taken)
    && Chained(c, groups)
    && AllPlanned(c.puts)
    && c.outstanding == []
    && c.replies <= |c.calls| + 1
  }

  /** A callback is about to chain: every planned group was delivered. */
  ghost predicate ReadyToChain(c: Chain, groups: seq<seq<Path>>, taken: seq<QueueItem>, start: RobotState)
    requires NonEmptyParts(groups)
  {
    && Unfinished(c, groups, taken)
    && |c.puts| == |c.calls|
    && ExtractedUpTo(c.puts, |c.puts|)
    && c.session.value.groups == groups[|c.calls|..]
    && c.replies == |c.calls| + 1
    && (if c.calls == [] then c.seed == Some(start)
        else LeftAt(Last(c.puts).dto.trajectories, start))
  }

  lemma StopCompletes(puts: seq<QueueItem>)
    requires AllPlanned(puts)
    ensures CompleteWithoutFailure(puts + [Stop]) && !AllPlanned(puts + [Stop])
    ensures ExtractedUpTo(puts, |puts|) ==> ExtractedUpTo(puts + [Stop], |puts|)
  {
    assert (puts + [Stop])[|puts|] == Stop;
  }

  lemma FailureCompletes(puts: seq<QueueItem>, error: PlanError)
    requires AllPlanned(puts)
    ensures var puts' := puts + [Plan(Failed(error)), Stop];
      CompleteWithFailure(puts') && !AllPlanned(puts') && !CompleteWithoutFailure(puts')
  {
    var puts' := puts + [Plan(Failed(error)), Stop];
    assert puts'[|puts|] == Plan(Failed(error));
  }

  /** Items other than successes, put at the end, change neither the calls nor the deliveries. */
  lemma PutKeepsChained(c: Chain, groups: seq<seq<Path>>, puts: seq<QueueItem>)
    requires NonEmptyParts(groups) && Chained(c, groups)
    requires c.puts <= puts && forall i :: |c.puts| <= i < |puts| ==> !IsPlanned(puts[i])
    ensures ChainedCalls(c.seed, c.calls, puts, groups) && DeliversInOrder(c.calls, puts, groups)
  {
    forall i | 0 <= i < |c.calls|
      ensures ChainedStart(c.seed, c.calls, puts, i)
    {
      assert ChainedStart(c.seed, c.calls, c.puts, i);
    }
    forall i | 0 <= i < |puts| && IsPlanned(puts[i])
      ensures i < |c.calls| && Delivers(puts[i], groups[i])
    {
      assert puts[i] == c.puts[i];
    }
  }

  lemma FailingEnds(c: Chain, groups: seq<seq<Path>>, taken: seq<QueueItem>, error: PlanError)
    requires NonEmptyParts(groups) && Unfinished(c, groups, taken)
    ensures Live(Abort(c, error), groups, taken) && OnFailedGroup(c, error) == Abort(c, error)
  {
    var c' := Abort(c, error);
    var failure := Plan(Failed(error));
    assert c'.puts == c.puts + [failure, Stop] == taken + c'.queue.value;
    PutKeepsChained(c, groups, c'.puts);
    FailureCompletes(c.puts, error);
    hide AllPlanned, CompleteWithFailure, CompleteWithoutFailure, ChainedCalls, DeliversInOrder;
  }

  lemma FinishingEnds(c: Chain, groups: seq<seq<Path>>, taken: seq<QueueItem>, start: RobotState)
    requires NonEmptyParts(groups) && ReadyToChain(c, groups, taken, start) && |c.calls| == |groups|
    ensures Live(Put(c, Stop), groups, taken)
  {
    hide PlannedUpTo, CompleteWithFailure, ChainedStart, Delivers, ExtractEndState, ChainedCalls, DeliversInOrder;
    var c' := Put(c, Stop);
    assert c'.puts == c.puts + [Stop] == taken + c'.queue.value;
    PutKeepsChained(c, groups, c'.puts);
    StopCompletes(c.puts);
    hide AllPlanned, CompleteWithoutFailure, ExtractedUpTo;
    assert |c'.puts| == |groups| + 1;
  }

  /** The state in which `plan_group_async` is entered for the next group. */
  function Called(c: Chain, groups: seq<seq<Path>>, start: RobotState): Chain
    requires |c.calls| < |groups|
  {
    var k := |c.calls|;
    c.(session := Some(Session(groups[k + 1..], groups[k])), calls := c.calls + [PlannerCall(groups[k], start)])
  }

  lemma CallingKeeps(c: Chain, groups: seq<seq<Path>>, taken: seq<QueueItem>, start: RobotState)
    requires NonEmptyParts(groups) && ReadyToChain(c, groups, taken, start) && |c.calls| < |groups|
    ensures Unfinished(Called(c, groups, start), groups, taken)
  {
    CalledIsChained(c, groups, start);
    hide Grammar, AllPlanned, ChainedCalls, ExtractedUpTo, ExtractEndState;
  }

  lemma CalledIsChained(c: Chain, groups: seq<seq<Path>>, start: RobotState)
    requires ChainedCalls(c.seed, c.calls, c.puts, groups) && AllPlanned(c.puts)
    requires |c.puts| == |c.calls| < |groups|
    requires if c.calls == [] then c.seed == Some(start)
             else LeftAt(Last(c.puts).dto.trajectories, start)
    ensures ChainedCalls(c.seed, Called(c, groups, start).calls, c.puts, groups)
  {
    hide ExtractEndState;
    var calls := Called(c, groups, start).calls;
    forall i | 0 <= i < |calls|
      ensures calls[i].group == groups[i] && ChainedStart(c.seed, calls, c.puts, i)
    {
      if i < |c.calls| {
        assert ChainedStart(c.seed, c.calls, c.puts, i);
      }
    }
  }

  lemma PlanGroupAsyncKeeps(c: Chain, groups: seq<seq<Path>>, taken: seq<QueueItem>, start: RobotState, d: Dispatch)
    requires NonEmptyParts(groups) && ReadyToChain(c, groups, taken, start) && |c.calls| < |groups|
    ensures var (c', raised) := PlanGroupAsync(Called(c, groups, start), groups[|c.calls|], d);
      if raised then Unfinished(c', groups, taken) else Live(c', groups, taken)
  {
    CallingKeeps(c, groups, taken, start);
    var called := Called(c, groups, start);
    match d
    case Sent =>
    case SendRaises =>
    case ClientMissing =>
      FailingEnds(called, groups, taken, ClientNotReady);
    case BuildFails =>
      FailingEnds(called, groups, taken, RequestNotBuilt);
  }

  lemma ScheduleNextPops(c: Chain, groups: seq<seq<Path>>, start: RobotState, d: Dispatch)
    requires NonEmptyParts(groups) && |c.calls| <= |groups|
    requires !Cancelled(c) && c.session.Some? && c.session.value.groups == groups[|c.calls|..]
    ensures |c.calls| == |groups| ==> ScheduleNext(c, start, d) == (Put(c, Stop), false)
    ensures |c.calls| < |groups| ==>
              ScheduleNext(c, start, d) == PlanGroupAsync(Called(c, groups, start), groups[|c.calls|], d)
  {
    var k := |c.calls|;
    if k < |groups| {
      assert groups[k..][0] == groups[k] && groups[k..][1..] == groups[k + 1..];
    }
  }

  lemma ScheduleNextKeeps(c: Chain, groups: seq<seq<Path>>, taken: seq<QueueItem>, start: RobotState, d: Dispatch)
    requires NonEmptyParts(groups) && ReadyToChain(c, groups, taken, start)
    ensures var (c', raised) := ScheduleNext(c, start, d);
      if raised then Unfinished(c', groups, taken) else Live(c', groups, taken)
  {
    var k := |c.calls|;
    assert k <= |groups|;
    ScheduleNextPops(c, groups, start, d);
    hide Live, Unfinished, ReadyToChain, ScheduleNext, PlanGroupAsync;
    if k == |groups| {
      FinishingEnds(c, groups, taken, start);
    } else {
      PlanGroupAsyncKeeps(c, groups, taken, start, d);
    }
  }

  lemma OnSceneKeeps(c: Chain, groups: seq<seq<Path>>, taken: seq<QueueItem>, scene: SceneReply, d: Dispatch)
    requires NonEmptyParts(groups) && Live(c, groups, taken) && c.outstanding == [SceneRequest]
    ensures Live(OnScene(Take(c, 0), scene, d), groups, taken)
  {
    var c0 := Take(c, 0);
    match scene
    case SceneRaised =>
      FailingEnds(c0, groups, taken, SceneFailed);
    case SceneMissing =>
      FailingEnds(c0, groups, taken, NoRobotState);
    case SceneState(robot) =>
      var seeded := c0.(seed := Some(robot));
      ScheduleNextKeeps(seeded, groups, taken, robot, d);
      var (c', raised) := ScheduleNext(seeded, robot, d);
      if raised {
        FailingEnds(c', groups, taken, SceneFailed);
      }
  }

  /** Once group k is being planned, results 0 to k - 1 gave a state to start from. */
  lemma StartsWereExtracted(c: Chain, groups: seq<seq<Path>>)
    requires NonEmptyParts(groups) && Chained(c, groups) && |c.calls| == |c.puts| + 1
    ensures ExtractedUpTo(c.puts, |c.puts|)
  {
    forall i | 0 <= i < |c.puts|
      ensures IsPlanned(c.puts[i]) && ExtractEndState(c.puts[i].dto.trajectories).Success?
    {
      assert ChainedStart(c.seed, c.calls, c.puts, i + 1);
    }
  }

  lemma ChainedCallsSnoc(seed: Option<RobotState>, calls: seq<PlannerCall>, puts: seq<QueueItem>,
                         groups: seq<seq<Path>>, item: QueueItem)
    requires ChainedCalls(seed, calls, puts, groups)
    ensures ChainedCalls(seed, calls, puts + [item], groups)
  {
    forall i | 0 <= i < |calls|
      ensures ChainedStart(seed, calls, puts + [item], i)
    {
      assert ChainedStart(seed, calls, puts, i);
    }
  }

  lemma DeliversSnoc(calls: seq<PlannerCall>, puts: seq<QueueItem>, groups: seq<seq<Path>>, item: QueueItem)
    requires NonEmptyParts(groups) && |puts| < |calls| <= |groups|
    requires DeliversInOrder(calls, puts, groups) && IsPlanned(item) && Delivers(item, groups[|puts|])
    ensures DeliversInOrder(calls, puts + [item], groups)
  {
    forall i | 0 <= i < |puts + [item]| && IsPlanned((puts + [item])[i])
      ensures i < |calls| && Delivers((puts + [item])[i], groups[i])
    {
      if i < |puts| {
        assert (puts + [item])[i] == puts[i];
      }
    }
  }

  /** A success is recorded under the next index, where its group is. */
  lemma PuttingSuccess(c: Chain, groups: seq<seq<Path>>, taken: seq<QueueItem>, dto: PlanResult)
    requires NonEmptyParts(groups) && Unfinished(c, groups, taken) && |c.calls| == |c.puts| + 1
    requires IsPlanned(Plan(dto)) && Delivers(Plan(dto), groups[|c.puts|])
    ensures Unfinished(Put(c, Plan(dto)), groups, taken)
  {
    ChainedCallsSnoc(c.seed, c.calls, c.puts, groups, Plan(dto));
    DeliversSnoc(c.calls, c.puts, groups, Plan(dto));
    assert AllPlanned(c.puts + [Plan(dto)]);
    hide ChainedCalls, DeliversInOrder, AllPlanned, Complete;
    assert c.puts + [Plan(dto)] == taken + (c.queue.value + [Plan(dto)]);
  }

  lemma SuccessIsReady(c: Chain, groups: seq<seq<Path>>, taken: seq<QueueItem>, dto: PlanResult, end: RobotState)
    requires NonEmptyParts(groups) && Unfinished(c, groups, taken)
    requires |c.calls| == |c.puts| + 1 && c.replies == |c.calls| + 1
    requires c.session.value.groups == groups[|c.calls|..]
    requires IsPlanned(Plan(dto)) && Delivers(Plan(dto), groups[|c.puts|])
    requires ExtractEndState(dto.trajectories) == Success(end)
    ensures ReadyToChain(Put(c, Plan(dto)), groups, taken, end)
  {
    StartsWereExtracted(c, groups);
    PuttingSuccess(c, groups, taken, dto);
    hide Chained, Active, AllPlanned, ExtractEndState;
  }

  /** The result of the group in flight, delivered to `_on_group_planned`. */
  lemma OnGroupPlannedKeeps(c: Chain, groups: seq<seq<Path>>, taken: seq<QueueItem>, dto: PlanResult, d: Dispatch)
    requires NonEmptyParts(groups) && Unfinished(c, groups, taken)
    requires |c.calls| == |c.puts| + 1 && c.replies == |c.calls| + 1
    requires c.session.value.groups == groups[|c.calls|..]
    requires dto.Planned? ==> Delivers(Plan(dto), groups[|c.puts|])
    ensures var (c', raised) := OnGroupPlanned(c, dto, d);
      if raised then Unfinished(c', groups, taken) else Live(c', groups, taken)
  {
    hide Live, Chained, AllPlanned, ReadyToChain, ExtractEndState;
    match dto
    case Failed(error) =>
      FailingEnds(c, groups, taken, error);
    case Planned(trajectories, _, _) =>
      PuttingSuccess(c, groups, taken, dto);
      var c1 := Put(c, Plan(dto));
      match ExtractEndState(trajectories) {
        case Failure(e) =>
          FailingEnds(c1, groups, taken, e);
        case Success(end) =>
          SuccessIsReady(c, groups, taken, dto, end);
          ScheduleNextKeeps(c1, groups, taken, end, d);
      }
  }

  lemma OnPlanResponseKeeps(c: Chain, groups: seq<seq<Path>>, taken: seq<QueueItem>, reply: PlannerReply, d: Dispatch)
    requires NonEmptyParts(groups) && Live(c, groups, taken) && c.outstanding != [] && c.outstanding[0].PlanRequest?
    requires c.outstanding[0].group != [] && ReplyFits(SelectService(c.outstanding[0].group), reply)
    ensures Live(OnPlanResponse(Take(c, 0), c.outstanding[0].group, reply, d), groups, taken)
  {
    var dto := ToResult(c.outstanding[0].group, reply);
    var c0 := Take(c, 0);
    assert Unfinished(c0, groups, taken);
    OnGroupPlannedKeeps(c0, groups, taken, dto, d);
    var (c', raised) := OnGroupPlanned(c0, dto, d);
    if raised {
      FailingEnds(c', groups, taken, ReplyFailed);
    }
  }
}
