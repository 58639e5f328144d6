/**
 What the replies delivered during a run make of it: which executions let a goal go on or cancel its
 planning, and which planner answers and scene states its plans consist of.
 */
module RepliesSeen {
  import opened ChainInvariant
  import opened Execution
  import opened Paths
  import opened PlannerReplies
  import opened PlanningSteps
  import opened ProtocolInvariant
  import opened Sequences
  import opened TrajectoryGrouper
  import opened Wrappers

  function ExecutionIn(w: World, e: Event): seq<ExecutionReply> {
    if e.ResultArrives? && Enabled(w, e) then [e.outcome] else []
  }

  /** The execution replies that a run delivers to the loop awaiting them. */
  function ExecutionsSeen(w: World, events: seq<Event>): seq<ExecutionReply>
    decreases |events|
  {
    if events == [] then [] else ExecutionIn(w, events[0]) + ExecutionsSeen(Step(w, events[0]), events[1..])
  }

  function PlanIn(w: World, e: Event): seq<PlannerReply> {
    if e.PlanArrives? && Enabled(w, e) && !Cancelled(w.chain) then [e.reply] else []
  }

  /** The planner replies that a run delivers before its session is cancelled. */
  function PlansSeen(w: World, events: seq<Event>): seq<PlannerReply>
    decreases |events|
  {
    if events == [] then [] else PlanIn(w, events[0]) + PlansSeen(Step(w, events[0]), events[1..])
  }

  // Execution replies: status 4 with code 1 is a success, and nothing else is.

  /** Successes first, one for each trajectory counted as executed, then at most one reply that ended the goal. */
  ghost predicate ExecutionsTell(k: Consumer, seen: seq<ExecutionReply>) {
    var n := |k.succeeded|;
    && n <= |seen| <= n + 1
    && (forall i :: 0 <= i < n ==> seen[i] == Answer(4, Some(1)))
    && (|seen| == n + 1 ==>
          && seen[n] != Answer(4, Some(1))
          && k.pc == Finished(if seen[n] == Raised then UnknownException else ExecutionFailed))
  }

  lemma ConsumerSucceedsOnlyByResults(w: World, e: Event)
    requires !(e.ResultArrives? && Enabled(w, e))
    ensures var k' := Step(w, e).consumer;
      && k'.succeeded == w.consumer.succeeded
      && (w.consumer.pc.Finished? ==> k'.pc == w.consumer.pc)
  {
    hide PlanAll, OnScene, OnPlanResponse, Cancel, Dequeue;
  }

  lemma ExecutionsTellStep(w: World, e: Event, seen: seq<ExecutionReply>)
    requires ExecutionsTell(w.consumer, seen)
    ensures ExecutionsTell(Step(w, e).consumer, seen + ExecutionIn(w, e))
  {
    if e.ResultArrives? && Enabled(w, e) {
      assert |seen| == |w.consumer.succeeded|;
      hide Cancel;
    } else {
      ConsumerSucceedsOnlyByResults(w, e);
      assert seen + [] == seen;
      hide Step;
    }
  }

  lemma {:induction false} ExecutionsTellRun(w: World, events: seq<Event>, seen: seq<ExecutionReply>)
    requires ExecutionsTell(w.consumer, seen)
    ensures ExecutionsTell(Run(w, events).consumer, seen + ExecutionsSeen(w, events))
    decreases |events|
  {
    hide Step, ExecutionIn, ExecutionsTell;
    if events == [] {
      assert seen + [] == seen;
    } else {
      ExecutionsTellStep(w, events[0], seen);
      var seen', rest := seen + ExecutionIn(w, events[0]), ExecutionsSeen(Step(w, events[0]), events[1..]);
      ExecutionsTellRun(Step(w, events[0]), events[1..], seen');
      AppendAssociates(seen, ExecutionIn(w, events[0]), rest);
    }
  }

  /**
   After any events the replies delivered are one `Answer(4, Some(1))` for each trajectory counted as executed and
   at most one other reply, which ended the goal.
   */
  lemma ExecutionsDecide(groups: seq<seq<Path>>, leftover: Chain, events: seq<Event>)
    ensures ExecutionsTell(Run(Init(groups, leftover), events).consumer, ExecutionsSeen(Init(groups, leftover), events))
  {
    var w := Init(groups, leftover);
    assert ExecutionsTell(w.consumer, []);
    ExecutionsTellRun(w, events, []);
    assert [] + ExecutionsSeen(w, events) == ExecutionsSeen(w, events);
  }

  /** The loop was entered. */
  ghost predicate Began(w: World) {
    PhaseOf(w.consumer.pc) == Looping || w.consumer.taken != []
  }

  /** A reply that also cancels planning: any failure but an exception, a cancellation (5) or an abort (6). */
  predicate CancelsPlanning(r: ExecutionReply) {
    r.Answer? && r.status != 5 && r.status != 6 && r != Answer(4, Some(1))
  }

  ghost predicate CancelTold(w: World, seen: seq<ExecutionReply>) {
    Began(w) ==> (Cancelled(w.chain) <==> exists r :: r in seen && CancelsPlanning(r))
  }

  /** The callbacks never touch the cancel event, and do nothing once it is set. */
  lemma ScheduleNextKeepsEvent(c: Chain, start: RobotState, d: Dispatch)
    ensures ScheduleNext(c, start, d).0.cancelEvent == c.cancelEvent
  {
  }

  lemma GroupPlannedKeepsEvent(c: Chain, dto: PlanResult, d: Dispatch)
    ensures OnGroupPlanned(c, dto, d).0.cancelEvent == c.cancelEvent
    ensures Cancelled(c) ==> OnGroupPlanned(c, dto, d) == (c, false)
  {
    if dto.Planned? && !Cancelled(c) {
      var put := Put(c, Plan(dto));
      match ExtractEndState(dto.trajectories)
      case Success(end) => ScheduleNextKeepsEvent(put, end, d);
      case Failure(_) =>
    }
    hide ScheduleNext, ExtractEndState;
  }

  lemma PlanResponseKeepsEvent(c: Chain, group: seq<Path>, reply: PlannerReply, d: Dispatch)
    requires group != []
    ensures OnPlanResponse(c, group, reply, d).cancelEvent == c.cancelEvent
    ensures Cancelled(c) ==> OnPlanResponse(c, group, reply, d) == c
  {
    GroupPlannedKeepsEvent(c, ToResult(group, reply), d);
    hide OnGroupPlanned, ToResult;
  }

  lemma SceneKeepsEvent(c: Chain, reply: SceneReply, d: Dispatch)
    ensures OnScene(c, reply, d).cancelEvent == c.cancelEvent
    ensures Cancelled(c) ==> OnScene(c, reply, d) == c
  {
    if reply.SceneState? {
      ScheduleNextKeepsEvent(c.(seed := Some(reply.robot)), reply.robot, d);
    }
    hide ScheduleNext;
  }

  /** Events other than a cancel callback, an execution reply and the beginning leave a begun session's event alone. */
  lemma OthersKeepCancelled(w: World, e: Event)
    requires Inv(w) && Began(w) && !e.CancelCallback? && !(e.ResultArrives? && Enabled(w, e))
    ensures Cancelled(Step(w, e).chain) <==> Cancelled(w.chain)
  {
    if Enabled(w, e) {
      match e
      case SceneArrives(i, scene, d) =>
        hide OnScene;
        SceneKeepsEvent(Take(w.chain, i), scene, d);
      case PlanArrives(i, reply, d) =>
        hide OnPlanResponse;
        PlanResponseKeepsEvent(Take(w.chain, i), w.chain.outstanding[i].group, reply, d);
      case Consume =>
        if Cancelled(w.chain) {
          DequeueKeepsStopped(w.chain, w.groups, w.consumer.taken);
        }
      case _ =>
    }
  }

  lemma BeginningTells(w: World, e: Event, seen: seq<ExecutionReply>)
    requires Inv(w) && !Began(w) && ExecutionsTell(w.consumer, seen)
    ensures Began(Step(w, e)) ==> seen == [] && !Cancelled(Step(w, e).chain) && !e.ResultArrives?
  {
    hide OnScene, OnPlanResponse, Cancel, Dequeue;
  }

  lemma CancelToldStep(w: World, e: Event, seen: seq<ExecutionReply>)
    requires Inv(w) && !e.CancelCallback? && ExecutionsTell(w.consumer, seen) && CancelTold(w, seen)
    ensures CancelTold(Step(w, e), seen + ExecutionIn(w, e))
  {
    if !Began(w) {
      BeginningTells(w, e, seen);
      hide Step, Inv;
    } else if e.ResultArrives? && Enabled(w, e) {
      assert w.chain.cancelEvent.Some? by {
        hide Live, Stopped, Accounts;
      }
      hide Inv;
      assert e.outcome in seen + [e.outcome];
    } else {
      OthersKeepCancelled(w, e);
      assert seen + [] == seen;
      hide Step, Inv;
    }
  }

  lemma {:induction false} CancelToldRun(w: World, events: seq<Event>, seen: seq<ExecutionReply>)
    requires Inv(w) && CancelCallback !in events && ExecutionsTell(w.consumer, seen) && CancelTold(w, seen)
    ensures CancelTold(Run(w, events), seen + ExecutionsSeen(w, events))
    decreases |events|
  {
    hide Step, ExecutionIn, ExecutionsTell, CancelTold, Inv;
    if events == [] {
      assert seen + [] == seen;
    } else {
      CancelToldStep(w, events[0], seen);
      ExecutionsTellStep(w, events[0], seen);
      StepKeeps(w, events[0]);
      var rest := ExecutionsSeen(Step(w, events[0]), events[1..]);
      CancelToldRun(Step(w, events[0]), events[1..], seen + ExecutionIn(w, events[0]));
      AppendAssociates(seen, ExecutionIn(w, events[0]), rest);
    }
  }

  /**
   Without a cancel callback planning is cancelled exactly by an execution reply that is neither a success nor an
   exception, a cancellation or an abort.
   */
  lemma ExecutionCancelsPlanningIff(groups: seq<seq<Path>>, leftover: Chain, events: seq<Event>)
    requires NonEmptyParts(groups) && leftover.outstanding == [] && CancelCallback !in events
    requires Began(Run(Init(groups, leftover), events))
    ensures Cancelled(Run(Init(groups, leftover), events).chain)
            <==> exists r :: r in ExecutionsSeen(Init(groups, leftover), events)
                             && r.Answer? && r.status != 5 && r.status != 6 && r != Answer(4, Some(1))
  {
    var w := Init(groups, leftover);
    InitEstablishes(groups, leftover);
    assert ExecutionsTell(w.consumer, []) && CancelTold(w, []);
    CancelToldRun(w, events, []);
    var seen := ExecutionsSeen(w, events);
    assert [] + seen == seen;
    hide Inv, Run, ExecutionsSeen;
    assert forall r :: CancelsPlanning(r) <==> r.Answer? && r.status != 5 && r.status != 6 && r != Answer(4, Some(1));
  }

  // Planner replies: the results are the answers, and nothing else is.

  /** The result that a reply becomes. */
  predicate Tells(reply: PlannerReply, item: QueueItem) {
    match reply
    case ReplyRaised => item == Plan(Failed(ReplyFailed))
    case NoResponse => item == Plan(Failed(NoReply))
    case PilzAnswer(code, plans) =>
      if code == 1 then IsPlanned(item) && item.dto.trajectories == plans else item == Plan(Failed(Refused(code)))
    case OmplAnswer(code, plan) =>
      if code == 1 then IsPlanned(item) && item.dto.trajectories == [plan] else item == Plan(Failed(Refused(code)))
  }

  /** Reply i became result i, a success only for a group of its planner; no result without a reply is a success. */
  ghost predicate PlansTell(puts: seq<QueueItem>, groups: seq<seq<Path>>, seen: seq<PlannerReply>) {
    && |seen| <= |puts|
    && (forall i :: 0 <= i < |seen| ==> Tells(seen[i], puts[i]))
    && (forall i :: 0 <= i < |puts| && IsPlanned(puts[i]) ==>
          && i < |seen| && i < |groups| && groups[i] != []
          && (seen[i].OmplAnswer? <==> groups[i][0].motion == PTP))
    && (AllPlanned(puts) ==> |seen| == |puts|)
  }

  /** More was put, but no success. */
  ghost predicate PutsNoSuccess(puts: seq<QueueItem>, puts': seq<QueueItem>) {
    puts <= puts' && forall i :: |puts| <= i < |puts'| ==> !IsPlanned(puts'[i])
  }

  lemma SchedulingPuts(c: Chain, start: RobotState, d: Dispatch)
    ensures PutsNoSuccess(c.puts, ScheduleNext(c, start, d).0.puts)
  {
  }

  /** A handled reply puts its result, and then possibly what ends the sequence. */
  lemma ReplyPuts(c: Chain, group: seq<Path>, reply: PlannerReply, d: Dispatch)
    requires group != [] && !Cancelled(c) && c.queue.Some?
    ensures var n, puts := |c.puts|, OnPlanResponse(c, group, reply, d).puts;
      && n < |puts| && puts[..n] == c.puts
      && Tells(reply, puts[n])
      && (forall i :: n < i < |puts| ==> !IsPlanned(puts[i]))
  {
    var dto := ToResult(group, reply);
    assert Tells(reply, Plan(dto));
    var c1 := Put(c, Plan(dto));
    var puts := OnPlanResponse(c, group, reply, d).puts;
    assert PutsNoSuccess(c1.puts, puts) by {
      hide ExtractEndState, ToResult, ScheduleNext;
      if dto.Planned? && ExtractEndState(dto.trajectories).Success? {
        SchedulingPuts(c1, ExtractEndState(dto.trajectories).value, d);
      }
    }
    hide ExtractEndState, ToResult, ScheduleNext, OnPlanResponse;
    assert puts[..|c.puts|] == c1.puts[..|c.puts|] == c.puts;
    assert puts[|c.puts|] == c1.puts[|c.puts|];
  }

  lemma ScenePuts(c: Chain, scene: SceneReply, d: Dispatch)
    requires c.puts == [] && c.queue.Some?
    ensures forall i :: 0 <= i < |OnScene(c, scene, d).puts| ==> !IsPlanned(OnScene(c, scene, d).puts[i])
  {
  }

  lemma PlansTellStep(w: World, e: Event, seen: seq<PlannerReply>)
    requires Inv(w) && PlansTell(w.chain.puts, w.groups, seen)
    ensures PlansTell(Step(w, e).chain.puts, w.groups, seen + PlanIn(w, e))
  {
    if e.PlanArrives? && Enabled(w, e) && !Cancelled(w.chain) {
      PlanReplyTells(w, e.i, e.reply, e.d, seen);
    } else {
      assert seen + [] == seen;
      OtherPuts(w, e);
      hide Step, Inv;
    }
  }

  /** The reply in flight is that of the group after the last result. */
  lemma InFlight(w: World, i: nat, reply: PlannerReply, d: Dispatch)
    requires Inv(w) && Enabled(w, PlanArrives(i, reply, d)) && !Cancelled(w.chain)
    ensures i == 0 && w.chain.queue.Some? && AllPlanned(w.chain.puts) && |w.chain.puts| < |w.groups|
    ensures w.chain.outstanding == [PlanRequest(w.groups[|w.chain.puts|])]
  {
    hide Chained, Accounts;
    assert Live(w.chain, w.groups, w.consumer.taken);
  }

  /** One more result, told by one more reply, and then no success. */
  lemma PlansTellMore(puts: seq<QueueItem>, puts': seq<QueueItem>, groups: seq<seq<Path>>, seen: seq<PlannerReply>,
                      reply: PlannerReply)
    requires PlansTell(puts, groups, seen) && AllPlanned(puts)
    requires |puts| < |groups| && groups[|puts|] != [] && ReplyFits(SelectService(groups[|puts|]), reply)
    requires |puts| < |puts'| && puts'[..|puts|] == puts && Tells(reply, puts'[|puts|])
    requires forall i :: |puts| < i < |puts'| ==> !IsPlanned(puts'[i])
    ensures PlansTell(puts', groups, seen + [reply])
  {
    var n := |puts|;
    assert |seen| == n;
    assert forall i :: 0 <= i < n ==> puts'[i] == puts'[..n][i] == puts[i];
    assert |puts'| > n + 1 ==> !IsPlanned(puts'[n + 1]);
  }

  lemma PlanReplyTells(w: World, i: nat, reply: PlannerReply, d: Dispatch, seen: seq<PlannerReply>)
    requires Inv(w) && PlansTell(w.chain.puts, w.groups, seen)
    requires Enabled(w, PlanArrives(i, reply, d)) && !Cancelled(w.chain)
    ensures PlansTell(Step(w, PlanArrives(i, reply, d)).chain.puts, w.groups, seen + [reply])
  {
    InFlight(w, i, reply, d);
    hide Inv, OnPlanResponse, PlansTell, Tells;
    var group := w.chain.outstanding[i].group;
    var puts' := OnPlanResponse(Take(w.chain, i), group, reply, d).puts;
    assert Step(w, PlanArrives(i, reply, d)).chain.puts == puts';
    ReplyPuts(Take(w.chain, i), group, reply, d);
    PlansTellMore(w.chain.puts, puts', w.groups, seen, reply);
  }

  /** Any other event keeps what was put, begins a session anew, or puts no success into an empty one. */
  lemma OtherPuts(w: World, e: Event)
    requires Inv(w) && !(e.PlanArrives? && Enabled(w, e) && !Cancelled(w.chain))
    ensures var puts := Step(w, e).chain.puts;
      puts == w.chain.puts || (w.chain.puts == [] && forall j :: 0 <= j < |puts| ==> !IsPlanned(puts[j]))
  {
    hide Inv, OnScene, OnPlanResponse;
    if Enabled(w, e) {
      match e
      case Begin(_) =>
        BeginPuts(w);
      case SceneArrives(i, scene, d) =>
        SceneEventPuts(w, i, scene, d);
      case PlanArrives(i, reply, d) =>
        PlanResponseKeepsEvent(Take(w.chain, i), w.chain.outstanding[i].group, reply, d);
      case _ =>
    }
  }

  lemma BeginPuts(w: World)
    requires Inv(w) && w.consumer.pc.Starting?
    ensures w.chain.puts == []
  {
  }

  lemma SceneEventPuts(w: World, i: nat, scene: SceneReply, d: Dispatch)
    requires Inv(w) && Enabled(w, SceneArrives(i, scene, d))
    ensures var puts := OnScene(Take(w.chain, i), scene, d).puts;
      puts == w.chain.puts || (w.chain.puts == [] && forall j :: 0 <= j < |puts| ==> !IsPlanned(puts[j]))
  {
    if Cancelled(w.chain) {
      SceneKeepsEvent(Take(w.chain, i), scene, d);
    } else {
      assert w.chain.puts == [] && w.chain.queue.Some? by {
        hide Accounts, Chained;
      }
      ScenePuts(Take(w.chain, i), scene, d);
    }
    hide Inv, OnScene;
  }

  lemma {:induction false} PlansTellRun(w: World, events: seq<Event>, seen: seq<PlannerReply>)
    requires Inv(w) && PlansTell(w.chain.puts, w.groups, seen)
    ensures PlansTell(Run(w, events).chain.puts, w.groups, seen + PlansSeen(w, events))
    decreases |events|
  {
    hide Step, PlanIn, PlansTell, Inv;
    if events == [] {
      assert seen + [] == seen;
    } else {
      PlansTellStep(w, events[0], seen);
      StepKeeps(w, events[0]);
      var rest := PlansSeen(Step(w, events[0]), events[1..]);
      PlansTellRun(Step(w, events[0]), events[1..], seen + PlanIn(w, events[0]));
      AppendAssociates(seen, PlanIn(w, events[0]), rest);
    }
  }

  /** After any events the results are the planner replies delivered, one for one and in order. */
  lemma PlansDecide(groups: seq<seq<Path>>, leftover: Chain, events: seq<Event>)
    requires NonEmptyParts(groups) && leftover.outstanding == []
    ensures var w := Init(groups, leftover); PlansTell(Run(w, events).chain.puts, groups, PlansSeen(w, events))
  {
    var w := Init(groups, leftover);
    InitEstablishes(groups, leftover);
    assert PlansTell(w.chain.puts, groups, []);
    PlansTellRun(w, events, []);
    assert [] + PlansSeen(w, events) == PlansSeen(w, events);
  }

  // The scene's state.

  ghost predicate SeedTold(w: World, scenes: seq<Event>) {
    w.chain.seed.Some? ==>
      exists e :: e in scenes && e.SceneArrives? && e.scene == SceneState(w.chain.seed.value)
  }

  /** Only a scene with a robot state seeds a session; the beginning forgets the seed. */
  lemma SeedChanges(w: World, e: Event)
    requires Enabled(w, e) && Step(w, e).chain.seed.Some?
    ensures Step(w, e).chain.seed == w.chain.seed
            || (e.SceneArrives? && e.scene == SceneState(Step(w, e).chain.seed.value))
  {
    if e.PlanArrives? {
      PlanKeepsSeed(Take(w.chain, e.i), w.chain.outstanding[e.i].group, e.reply, e.d);
      hide OnPlanResponse;
    }
  }

  lemma PlanKeepsSeed(c: Chain, group: seq<Path>, reply: PlannerReply, d: Dispatch)
    requires group != []
    ensures OnPlanResponse(c, group, reply, d).seed == c.seed
  {
    hide ToResult, ExtractEndState;
  }

  lemma {:induction false} SeedToldRun(w: World, events: seq<Event>, scenes: seq<Event>)
    requires SeedTold(w, scenes)
    ensures SeedTold(Run(w, events), scenes + events)
    decreases |events|
  {
    hide Step;
    if events == [] {
      assert scenes + events == scenes;
    } else {
      var e := events[0];
      assert SeedTold(Step(w, e), scenes + [e]) by {
        assert e in scenes + [e] && forall x :: x in scenes ==> x in scenes + [e];
        if Enabled(w, e) && Step(w, e).chain.seed.Some? {
          SeedChanges(w, e);
        } else {
          assert Enabled(w, e) || Step(w, e) == w by {
            DisabledStays(w, e);
          }
        }
      }
      hide SeedTold;
      SeedToldRun(Step(w, e), events[1..], scenes + [e]);
      assert scenes + [e] + events[1..] == scenes + events;
    }
  }

  lemma DisabledStays(w: World, e: Event)
    ensures !Enabled(w, e) ==> Step(w, e) == w
  {
  }

  /** The state that seeded a session is that of a scene reply among the events. */
  lemma SeedIsAScene(groups: seq<seq<Path>>, leftover: Chain, events: seq<Event>)
    ensures var c := Run(Init(groups, leftover), events).chain;
      c.seed.Some? ==> exists e :: e in events && e.SceneArrives? && e.scene == SceneState(c.seed.value)
  {
    var w := Init(groups, leftover);
    assert SeedTold(w, []);
    SeedToldRun(w, events, []);
    assert [] + events == events;
    hide Run, Init;
  }
}
