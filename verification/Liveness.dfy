/**
 Every goal ends. Until a goal has ended some event other than a cancel can happen; and every event that changes
 anything, cancels included, brings the end nearer.
 */
module Liveness {
  import opened ChainInvariant
  import opened EndToEnd
  import opened Execution
  import opened Paths
  import opened PlannerReplies
  import opened PlanningSteps
  import opened ProtocolInvariant
  import opened RepliesSeen
  import opened TrajectoryGrouper
  import opened Wrappers

  predicate IsCancel(e: Event) {
    e.CancelCallback? || e.CancelAccepted?
  }

  /** The event that the goal waits for. */
  function Awaited(w: World): Event {
    match w.consumer.pc
    case Starting => Begin(NotReady)
    case Sending(_, _) => Send(false)
    case Awaiting(_, _) => ResultArrives(Raised)
    case _ =>
      if w.chain.queue != Some([]) then Consume
      else if w.chain.outstanding != [] && w.chain.outstanding[0].PlanRequest? then PlanArrives(0, ReplyRaised, Sent)
      else SceneArrives(0, SceneRaised, Sent)
  }

  lemma OutstandingIsNamed(w: World)
    requires Inv(w) && w.consumer.pc == Waiting && w.chain.queue == Some([])
    ensures w.chain.outstanding == [SceneRequest]
            || exists k :: 0 <= k < |w.groups| && w.chain.outstanding == [PlanRequest(w.groups[k])]
  {
    hide Accounts, Grammar, ChainedCalls, DeliversInOrder, IsPlanned;
    assert Live(w.chain, w.groups, w.consumer.taken);
    assert Progress(w.chain, w.groups);
    assert AllPlanned(w.chain.puts) by {
      WaitingIsUnplanned(w);
    }
  }

  lemma WaitingIsUnplanned(w: World)
    requires Inv(w) && w.consumer.pc == Waiting && w.chain.queue == Some([])
    ensures AllPlanned(w.chain.puts)
  {
    assert Live(w.chain, w.groups, w.consumer.taken);
    assert w.chain.puts == w.consumer.taken;
  }

  // How far a goal still has to go.

  /** Not begun, looping, over. */
  function Rank(w: World): nat {
    match w.consumer.pc
    case Starting => 2
    case Finished(_) => 0
    case _ => 1
  }

  /** Cancels still to be felt: the callback and the accepted request. */
  function CancelsLeft(w: World): nat {
    (if Cancel(w.chain) == w.chain then 0 else 1) + (if w.cancelRequested then 0 else 1)
  }

  /** Groups to be requested count twice: for the request and for its reply. */
  function GroupsLeft(c: Chain): nat {
    (if c.session.Some? then 2 * |c.session.value.groups| else 0) + |c.outstanding|
  }

  function Queued(c: Chain): nat {
    if c.queue.Some? then |c.queue.value| else 0
  }

  /** Sends and results to come of the plan in hand. */
  function Unsent(pc: Pc): nat {
    match pc
    case Sending(plan, at) => if plan.Planned? && at <= |plan.trajectories| then 2 * (|plan.trajectories| - at) else 0
    case Awaiting(plan, at) =>
      if plan.Planned? && at < |plan.trajectories| then 2 * (|plan.trajectories| - at) - 1 else 0
    case _ => 0
  }

  /** Lexicographically nearer to the end. */
  predicate Nearer(w': World, w: World) {
    || Rank(w') < Rank(w)
    || (Rank(w') == Rank(w)
        && (|| CancelsLeft(w') < CancelsLeft(w)
            || (CancelsLeft(w') == CancelsLeft(w)
                && (|| GroupsLeft(w'.chain) < GroupsLeft(w.chain)
                    || (GroupsLeft(w'.chain) == GroupsLeft(w.chain)
                        && (|| Queued(w'.chain) < Queued(w.chain)
                            || (Queued(w'.chain) == Queued(w.chain)
                                && Unsent(w'.consumer.pc) < Unsent(w.consumer.pc))))))))
  }

  // Replies.

  lemma ScheduleNextPlans(c: Chain, start: RobotState, d: Dispatch)
    ensures GroupsLeft(ScheduleNext(c, start, d).0) <= GroupsLeft(c)
  {
  }

  lemma GroupPlannedPlans(c: Chain, dto: PlanResult, d: Dispatch)
    ensures GroupsLeft(OnGroupPlanned(c, dto, d).0) <= GroupsLeft(c)
  {
    if dto.Planned? && !Cancelled(c) {
      var put := Put(c, Plan(dto));
      match ExtractEndState(dto.trajectories)
      case Success(end) => ScheduleNextPlans(put, end, d);
      case Failure(_) =>
    }
    hide ScheduleNext, ExtractEndState;
  }

  lemma PlanResponsePlans(c: Chain, group: seq<Path>, reply: PlannerReply, d: Dispatch)
    requires group != []
    ensures GroupsLeft(OnPlanResponse(c, group, reply, d)) <= GroupsLeft(c)
  {
    GroupPlannedPlans(c, ToResult(group, reply), d);
    hide OnGroupPlanned, ToResult;
  }

  lemma ScenePlans(c: Chain, reply: SceneReply, d: Dispatch)
    ensures GroupsLeft(OnScene(c, reply, d)) <= GroupsLeft(c)
  {
    if reply.SceneState? {
      ScheduleNextPlans(c.(seed := Some(reply.robot)), reply.robot, d);
    }
    hide ScheduleNext;
  }

  /** A chain that a running loop can be linked to is cancelled or not, and then knows it. */
  ghost predicate Settled(c: Chain) {
    || c.cancelEvent == Some(false)
    || (Cancelled(c) && c.queue == Some([CANCELLED, Stop]))
  }

  lemma LoopingIsSettled(w: World)
    requires Inv(w) && PhaseOf(w.consumer.pc) == Looping
    ensures Settled(w.chain)
  {
    hide Accounts, Grammar, ChainedCalls, DeliversInOrder, Progress;
    assert Linked(w.chain, w.groups, w.consumer.taken, Looping);
  }

  lemma TakeGivesUpOne(c: Chain, i: nat)
    requires i < |c.outstanding|
    ensures GroupsLeft(Take(c, i)) < GroupsLeft(c) && Take(c, i).cancelEvent == c.cancelEvent
    ensures Settled(c) && Cancelled(c) ==> Cancel(Take(c, i)) == Take(c, i)
  {
  }

  /** A reply leaves the loop where it is and uses up a request. */
  lemma ReplyAdvances(w: World, e: Event)
    requires Settled(w.chain) && (e.SceneArrives? || e.PlanArrives?) && Enabled(w, e)
    ensures Nearer(Step(w, e), w)
  {
    hide OnScene, OnPlanResponse, GroupsLeft;
    var c := w.chain;
    TakeGivesUpOne(c, e.i);
    if e.SceneArrives? {
      ScenePlans(Take(c, e.i), e.scene, e.d);
      SceneKeepsEvent(Take(c, e.i), e.scene, e.d);
    } else {
      PlanResponsePlans(Take(c, e.i), c.outstanding[e.i].group, e.reply, e.d);
      PlanResponseKeepsEvent(Take(c, e.i), c.outstanding[e.i].group, e.reply, e.d);
    }
    hide Take;
  }

  lemma ConsumeAdvances(w: World)
    requires Settled(w.chain) && Enabled(w, Consume)
    ensures Nearer(Step(w, Consume), w)
  {
    var w' := Step(w, Consume);
    if !w'.consumer.pc.Finished? {
      assert w.chain.queue.Some? && w'.chain == w.chain.(queue := Some(w.chain.queue.value[1..]));
      assert w.chain.cancelEvent == Some(false);
    }
  }

  lemma CancelAdvances(w: World)
    requires !w.consumer.pc.Finished?
    ensures Step(w, CancelCallback) == w || Nearer(Step(w, CancelCallback), w)
  {
    assert Cancel(Cancel(w.chain)) == Cancel(w.chain);
  }

  lemma ExecutionAdvances(w: World, e: Event)
    requires Settled(w.chain) && (e.Send? || e.ResultArrives?) && Enabled(w, e)
    ensures Nearer(Step(w, e), w)
  {
  }

  /** Until a goal has ended, every event changes nothing or brings the end nearer. */
  lemma EventsAdvance(w: World, e: Event)
    requires Inv(w) && !w.consumer.pc.Finished?
    ensures Step(w, e) == w || Nearer(Step(w, e), w)
  {
    hide Nearer;
    if Enabled(w, e) {
      match e
      case Begin(_) => BeginAdvances(w, e.readiness);
      case CancelCallback => CancelAdvances(w);
      case CancelAccepted => AcceptAdvances(w);
      case _ =>
        StartingHasNothing(w, e);
        LoopingIsSettled(w);
        hide Inv;
        if e.Consume? {
          ConsumeAdvances(w);
        } else if e.Send? || e.ResultArrives? {
          ExecutionAdvances(w, e);
        } else {
          ReplyAdvances(w, e);
        }
    }
  }

  lemma BeginAdvances(w: World, readiness: Readiness)
    requires w.consumer.pc.Starting?
    ensures Nearer(Step(w, Begin(readiness)), w)
  {
  }

  lemma AcceptAdvances(w: World)
    ensures Step(w, CancelAccepted) == w || Nearer(Step(w, CancelAccepted), w)
  {
  }

  lemma StartingHasNothing(w: World, e: Event)
    requires Inv(w) && !w.consumer.pc.Finished? && Enabled(w, e) && !e.Begin? && !IsCancel(e)
    ensures PhaseOf(w.consumer.pc) == Looping
  {
    assert w.consumer.pc.Starting? ==> w.chain.outstanding == [];
  }

  /** No deadlock: in every reachable state of an unfinished goal something other than a cancel can happen and tell. */
  lemma NeverStuck(groups: seq<seq<Path>>, leftover: Chain, events: seq<Event>)
    requires NonEmptyParts(groups) && leftover.outstanding == []
    requires !After(groups, leftover, events).consumer.pc.Finished?
    ensures var w := After(groups, leftover, events);
      Enabled(w, Awaited(w)) && !IsCancel(Awaited(w)) && Step(w, Awaited(w)) != w
  {
    AfterKeeps(groups, leftover, events);
    WaitingHasOneRequest(groups, leftover, events);
    var w := After(groups, leftover, events);
    AwaitedCanHappen(w);
    AwaitedMoves(w);
    hide Inv;
  }

  lemma AwaitedCanHappen(w: World)
    requires Inv(w) && !w.consumer.pc.Finished?
    requires w.consumer.pc == Waiting && w.chain.queue == Some([]) ==> |w.chain.outstanding| == 1
    ensures Enabled(w, Awaited(w)) && !IsCancel(Awaited(w))
  {
    if w.consumer.pc == Waiting && w.chain.queue == Some([]) {
      OutstandingIsNamed(w);
    }
  }

  lemma AwaitedMoves(w: World)
    requires Inv(w) && !w.consumer.pc.Finished? && Enabled(w, Awaited(w))
    ensures Step(w, Awaited(w)) != w
  {
    var e := Awaited(w);
    if e.Begin? {
      BeginAdvances(w, e.readiness);
    } else {
      StartingHasNothing(w, e);
      LoopingIsSettled(w);
      hide Inv;
      if e.Consume? {
        ConsumeAdvances(w);
      } else if e.Send? || e.ResultArrives? {
        ExecutionAdvances(w, e);
      } else {
        ReplyAdvances(w, e);
      }
    }
  }

  // Every schedule that goes on long enough.

  /** The state after the first `n` events of a schedule. */
  function StateAt(w: World, schedule: nat -> Event, n: nat): World {
    if n == 0 then w else Step(StateAt(w, schedule, n - 1), schedule(n - 1))
  }

  function FirstEvents(schedule: nat -> Event, n: nat): seq<Event> {
    if n == 0 then [] else FirstEvents(schedule, n - 1) + [schedule(n - 1)]
  }

  lemma {:induction false} StateAtKeeps(w: World, schedule: nat -> Event, n: nat)
    requires Inv(w)
    ensures Inv(StateAt(w, schedule, n))
  {
    if n > 0 {
      StateAtKeeps(w, schedule, n - 1);
      StepKeeps(StateAt(w, schedule, n - 1), schedule(n - 1));
    }
  }

  /** The world goes on: as long as the goal has not ended, some later event changes something. */
  ghost predicate GoesOn(w: World, schedule: nat -> Event) {
    forall n: nat :: !StateAt(w, schedule, n).consumer.pc.Finished? ==> exists m: nat :: n <= m && Moves(w, schedule, m)
  }

  predicate Moves(w: World, schedule: nat -> Event, m: nat) {
    StateAt(w, schedule, m + 1) != StateAt(w, schedule, m)
  }

  /** The first event from `n` on that changes something. */
  lemma {:induction false} FirstMove(w: World, schedule: nat -> Event, n: nat, m: nat) returns (k: nat)
    requires n <= m && Moves(w, schedule, m)
    ensures n <= k <= m && Moves(w, schedule, k) && StateAt(w, schedule, k) == StateAt(w, schedule, n)
    decreases m - n
  {
    hide StateAt;
    if Moves(w, schedule, n) {
      k := n;
    } else {
      k := FirstMove(w, schedule, n + 1, m);
    }
  }

  lemma {:induction false} EndsFrom(w: World, schedule: nat -> Event, n: nat) returns (end: nat)
    requires Inv(w) && GoesOn(w, schedule)
    ensures StateAt(w, schedule, end).consumer.pc.Finished?
    decreases Rank(StateAt(w, schedule, n)), CancelsLeft(StateAt(w, schedule, n)),
              GroupsLeft(StateAt(w, schedule, n).chain), Queued(StateAt(w, schedule, n).chain),
              Unsent(StateAt(w, schedule, n).consumer.pc)
  {
    hide Rank, CancelsLeft, GroupsLeft, Queued, Unsent, StateAt, Inv, Step;
    var now := StateAt(w, schedule, n);
    if now.consumer.pc.Finished? {
      end := n;
    } else {
      var k := NextIsNearer(w, schedule, n);
      end := EndsFrom(w, schedule, k + 1);
    }
  }

  lemma NextIsNearer(w: World, schedule: nat -> Event, n: nat) returns (k: nat)
    requires Inv(w) && GoesOn(w, schedule) && !StateAt(w, schedule, n).consumer.pc.Finished?
    ensures n <= k && Nearer(StateAt(w, schedule, k + 1), StateAt(w, schedule, n))
  {
    hide Nearer, Inv, Step;
    var m: nat :| n <= m && Moves(w, schedule, m);
    k := FirstMove(w, schedule, n, m);
    StateAtKeeps(w, schedule, k);
    EventsAdvance(StateAt(w, schedule, k), schedule(k));
  }

  /**
   Every goal ends: on every infinite schedule of replies, executions and cancels on which something still
   happens while the goal is unfinished, it is finished after finitely many events.
   */
  lemma EveryGoalEnds(groups: seq<seq<Path>>, leftover: Chain, schedule: nat -> Event) returns (end: nat)
    requires NonEmptyParts(groups) && leftover.outstanding == [] && GoesOn(Init(groups, leftover), schedule)
    ensures After(groups, leftover, FirstEvents(schedule, end)).consumer.pc.Finished?
  {
    InitEstablishes(groups, leftover);
    end := EndsFrom(Init(groups, leftover), schedule, 0);
    StateAtIsRun(Init(groups, leftover), schedule, end);
  }

  lemma {:induction false} StateAtIsRun(w: World, schedule: nat -> Event, n: nat)
    ensures StateAt(w, schedule, n) == Run(w, FirstEvents(schedule, n))
  {
    hide Step;
    if n > 0 {
      StateAtIsRun(w, schedule, n - 1);
      RunAppend(w, FirstEvents(schedule, n - 1), [schedule(n - 1)]);
      var w' := Run(w, FirstEvents(schedule, n - 1));
      assert Run(w', [schedule(n - 1)]) == Run(Step(w', schedule(n - 1)), [schedule(n - 1)][1..]);
    }
  }
}
