/** The invariant of the whole system, kept by every event of every interleaving. */
module ProtocolInvariant {
  import opened ChainInvariant
  import opened Execution
  import opened Paths
  import opened PlannerReplies
  import opened PlanningSteps
  import opened Sequences
  import opened TrajectoryGrouper
  import opened Wrappers

  // What a consumer that handled `items` to the end has reported and executed.

  function IdsOf(items: seq<QueueItem>): seq<string> {
    if items == [] then []
    else IdsOf(items[..|items| - 1]) + (if IsPlanned(Last(items)) then Last(items).dto.pathIds else [])
  }

  function TrajectoriesOf(items: seq<QueueItem>): seq<Trajectory> {
    if items == [] then []
    else TrajectoriesOf(items[..|items| - 1]) + (if IsPlanned(Last(items)) then Last(items).dto.trajectories else [])
  }

  function FeedbackOf(items: seq<QueueItem>): seq<Feedback> {
    if items == [] then []
    else
      FeedbackOf(items[..|items| - 1])
      + (if IsPlanned(Last(items)) then [Executing(Last(items).dto.pathIds), Completed(Last(items).dto.pathIds)]
         else [])
  }

  lemma SnocOf(items: seq<QueueItem>, item: QueueItem)
    requires IsPlanned(item)
    ensures IdsOf(items + [item]) == IdsOf(items) + item.dto.pathIds
    ensures TrajectoriesOf(items + [item]) == TrajectoriesOf(items) + item.dto.trajectories
    ensures FeedbackOf(items + [item])
         == FeedbackOf(items) + [Executing(item.dto.pathIds), Completed(item.dto.pathIds)]
  {
    assert (items + [item])[..|items|] == items;
  }

  /** The plan that the consumer holds is the last item it took. */
  ghost predicate Holds(k: Consumer, plan: PlanResult, at: nat) {
    && plan.Planned?
    && k.taken == k.handled + [Plan(plan)]
    && at < |plan.trajectories|
    && k.feedback == FeedbackOf(k.handled) + [Executing(plan.pathIds)]
    && k.succeeded == TrajectoriesOf(k.handled) + plan.trajectories[..at]
  }

  /** The loop ended early: at most one plan is begun, and at most one trajectory is unanswered. */
  ghost predicate Halted(k: Consumer) {
    && (k.taken == k.handled || (k.taken != [] && k.taken == k.handled + [Last(k.taken)]))
    && (k.feedback == FeedbackOf(k.handled)
        || (k.taken != k.handled && IsPlanned(Last(k.taken))
            && k.feedback == FeedbackOf(k.handled) + [Executing(Last(k.taken).dto.pathIds)]))
    && k.succeeded <= k.sent <= TrajectoriesOf(k.taken)
    && |k.sent| <= |k.succeeded| + 1
  }

  /** What the consumer has reported, sent and seen succeed. */
  ghost predicate Accounts(k: Consumer) {
    && AllPlanned(k.handled)
    && k.completed == IdsOf(k.handled)
    && match k.pc
       case Starting => k.handled == [] && k.taken == [] && k.feedback == [] && k.sent == k.succeeded == []
       case Waiting =>
         && k.taken == k.handled
         && k.feedback == FeedbackOf(k.handled)
         && k.sent == k.succeeded == TrajectoriesOf(k.handled)
       case Sending(plan, at) => Holds(k, plan, at) && k.sent == k.succeeded
       case Awaiting(plan, at) => Holds(k, plan, at) && k.sent == k.succeeded + [plan.trajectories[at]]
       case Finished(outcome) =>
         if outcome == Succeeded then
           && k.taken == k.handled + [Stop]
           && k.feedback == FeedbackOf(k.handled)
           && k.sent == k.succeeded == TrajectoriesOf(k.handled)
         else
           && Halted(k)
           && (outcome.PlanningFailed? ==> k.taken != [] && Last(k.taken) == Plan(Failed(outcome.error)))
  }

  datatype Phase = NotBegun | Looping | Over(success: bool)

  function PhaseOf(pc: Pc): Phase {
    match pc
    case Starting => NotBegun
    case Finished(outcome) => Over(outcome == Succeeded)
    case _ => Looping
  }

  /** Every success the consumer took is the one the chain put at that place. */
  ghost predicate TakenFromPuts(taken: seq<QueueItem>, puts: seq<QueueItem>) {
    forall i :: 0 <= i < |taken| && IsPlanned(taken[i]) ==> i < |puts| && taken[i] == puts[i]
  }

  /** After a cancellation: what is in flight no longer matters, and a waiting consumer will meet the failure. */
  ghost predicate Stopped(c: Chain, groups: seq<seq<Path>>, taken: seq<QueueItem>, phase: Phase)
    requires NonEmptyParts(groups)
  {
    && c.queue.Some?
    && c.session.Some?
    && Chained(c, groups)
    && |c.outstanding| <= 1
    && TakenFromPuts(taken, c.puts)
    && (phase == Looping ==> c.queue == Some([CANCELLED, Stop]))
    && phase != Over(true)
  }

  /** After the sentinel was taken. */
  ghost predicate Closed(c: Chain, groups: seq<seq<Path>>, taken: seq<QueueItem>, phase: Phase)
    requires NonEmptyParts(groups)
  {
    && c.queue.None?
    && c.session.None?
    && Chained(c, groups)
    && CompleteWithoutFailure(c.puts)
    && ExtractedUpTo(c.puts, |c.puts| - 1)
    && |c.puts| == |groups| + 1
    && c.outstanding == []
    && c.replies <= |c.calls| + 1
    && taken == c.puts
    && phase == Over(true)
  }

  ghost predicate Untouched(c: Chain, taken: seq<QueueItem>) {
    c.outstanding == [] && c.puts == [] && c.calls == [] && c.replies == 0 && taken == []
  }

  /** How the consumer's progress and the chain's belong together. */
  ghost predicate Linked(c: Chain, groups: seq<seq<Path>>, taken: seq<QueueItem>, phase: Phase)
    requires NonEmptyParts(groups)
  {
    match c.cancelEvent
    case Some(false) => Live(c, groups, taken) && phase != Over(true)
    case Some(true) => Stopped(c, groups, taken, phase)
    case None => Closed(c, groups, taken, phase)
  }

  /** The goal failed before a scene request was sent, or it has not begun. */
  ghost predicate Dormant(c: Chain, taken: seq<QueueItem>, phase: Phase) {
    Untouched(c, taken) && (phase == NotBegun || phase == Over(false))
  }

  ghost predicate Inv(w: World) {
    var phase := PhaseOf(w.consumer.pc);
    && NonEmptyParts(w.groups)
    && Accounts(w.consumer)
    && (Dormant(w.chain, w.consumer.taken, phase)
        || (phase != NotBegun && Linked(w.chain, w.groups, w.consumer.taken, phase)))
  }

  lemma InitEstablishes(groups: seq<seq<Path>>, leftover: Chain)
    requires NonEmptyParts(groups) && leftover.outstanding == []
    ensures Inv(Init(groups, leftover))
  {
  }

  lemma PlanAllLinks(c: Chain, groups: seq<seq<Path>>)
    requires NonEmptyParts(groups) && c.outstanding == []
    ensures Linked(PlanAll(c, groups, Requested).0, groups, [], Looping)
  {
    var c' := PlanAll(c, groups, Requested).0;
    assert c'.outstanding == [SceneRequest];
    assert c'.puts == [] + c'.queue.value;
  }

  lemma StartKeeps(w: World, readiness: Readiness)
    requires Inv(w) && w.consumer.pc.Starting?
    ensures Inv(Start(w, readiness))
  {
    var w' := Start(w, readiness);
    if readiness == Ready(Requested) {
      PlanAllLinks(w.chain, w.groups);
      assert w'.consumer == w.consumer.(pc := Waiting);
      assert w'.chain == PlanAll(w.chain, w.groups, Requested).0;
    } else {
      assert w'.consumer == Fail(w.consumer, w'.consumer.pc.outcome);
      assert Untouched(w'.chain, w'.consumer.taken);
    }
  }

  lemma SceneKeepsLinked(c: Chain, groups: seq<seq<Path>>, taken: seq<QueueItem>, phase: Phase,
                         i: nat, scene: SceneReply, d: Dispatch)
    requires NonEmptyParts(groups) && Linked(c, groups, taken, phase)
    requires i < |c.outstanding| && c.outstanding[i].SceneRequest?
    ensures Linked(OnScene(Take(c, i), scene, d), groups, taken, phase)
  {
    assert i == 0;
    if !Cancelled(c) {
      assert c.outstanding == [SceneRequest];
      OnSceneKeeps(c, groups, taken, scene, d);
    }
  }

  lemma PlanKeepsLinked(c: Chain, groups: seq<seq<Path>>, taken: seq<QueueItem>, phase: Phase,
                        i: nat, reply: PlannerReply, d: Dispatch)
    requires NonEmptyParts(groups) && Linked(c, groups, taken, phase)
    requires i < |c.outstanding| && c.outstanding[i].PlanRequest? && c.outstanding[i].group != []
    requires ReplyFits(SelectService(c.outstanding[i].group), reply)
    ensures Linked(OnPlanResponse(Take(c, i), c.outstanding[i].group, reply, d), groups, taken, phase)
  {
    assert i == 0;
    if Cancelled(c) {
      assert OnPlanResponse(Take(c, i), c.outstanding[i].group, reply, d) == Take(c, i);
    } else {
      OnPlanResponseKeeps(c, groups, taken, reply, d);
    }
  }

  lemma CancelKeepsLinked(c: Chain, groups: seq<seq<Path>>, taken: seq<QueueItem>, phase: Phase)
    requires NonEmptyParts(groups) && Linked(c, groups, taken, phase)
    ensures Linked(Cancel(c), groups, taken, phase)
  {
  }

  /** A waiting consumer gets the next item of the record. */
  lemma DequeueKeepsLive(c: Chain, groups: seq<seq<Path>>, taken: seq<QueueItem>)
    requires NonEmptyParts(groups) && Live(c, groups, taken) && c.queue != Some([]) && Dequeue(c).1 != Stop
    ensures Live(Dequeue(c).0, groups, taken + [Dequeue(c).1])
  {
    hide Grammar, ChainedCalls, DeliversInOrder, AllPlanned, CompleteWithoutFailure, ExtractedUpTo;
    var q := c.queue.value;
    assert q == [q[0]] + q[1..];
    assert (taken + [q[0]]) + q[1..] == taken + ([q[0]] + q[1..]);
  }

  /** After a cancellation it gets the failure that the cancellation left, and gives up. */
  lemma DequeueKeepsStopped(c: Chain, groups: seq<seq<Path>>, taken: seq<QueueItem>)
    requires NonEmptyParts(groups) && Stopped(c, groups, taken, Looping)
    ensures Dequeue(c) == (c.(queue := Some([Stop])), CANCELLED)
    ensures Stopped(Dequeue(c).0, groups, taken + [CANCELLED], Over(false))
  {
    assert TakenFromPuts(taken + [CANCELLED], c.puts);
    hide Grammar, ChainedCalls, DeliversInOrder, TakenFromPuts;
  }

  lemma DequeueKeepsLinked(c: Chain, groups: seq<seq<Path>>, taken: seq<QueueItem>)
    requires NonEmptyParts(groups) && Linked(c, groups, taken, Looping) && c.queue != Some([])
    requires Dequeue(c).1 != Stop
    ensures var (c', item) := Dequeue(c);
      && Linked(c', groups, taken + [item], Over(false))
      && (IsPlanned(item) ==> Linked(c', groups, taken + [item], Looping))
  {
    if Cancelled(c) {
      DequeueKeepsStopped(c, groups, taken);
    } else {
      DequeueKeepsLive(c, groups, taken);
    }
    hide Live, Stopped;
  }

  /** The sentinel is met only when every group was planned and every result was taken. */
  lemma SentinelCloses(c: Chain, groups: seq<seq<Path>>, taken: seq<QueueItem>)
    requires NonEmptyParts(groups) && Linked(c, groups, taken, Looping) && c.queue != Some([])
    requires AllPlanned(taken) && Dequeue(c).1 == Stop
    ensures Linked(Dequeue(c).0, groups, taken + [Stop], Over(true))
  {
    var n := |taken|;
    assert c.puts[n] == Stop && !IsPlanned(Stop);
    assert c.puts == taken + [Stop];
  }

  lemma AdvanceAccounts(k: Consumer, plan: PlanResult, at: nat)
    requires plan.Planned? && at <= |plan.trajectories|
    requires k.taken == k.handled + [Plan(plan)]
    requires AllPlanned(k.handled) && k.completed == IdsOf(k.handled)
    requires k.feedback == FeedbackOf(k.handled) + [Executing(plan.pathIds)]
    requires k.sent == k.succeeded == TrajectoriesOf(k.handled) + plan.trajectories[..at]
    ensures Accounts(Advance(k, plan, at))
  {
    if at == |plan.trajectories| {
      assert plan.trajectories[..at] == plan.trajectories;
      SnocOf(k.handled, Plan(plan));
      assert k.feedback + [Completed(plan.pathIds)]
          == FeedbackOf(k.handled) + [Executing(plan.pathIds), Completed(plan.pathIds)];
    }
  }

  lemma HandleItemAccounts(k: Consumer, item: QueueItem, cancelRequested: bool)
    requires Accounts(k) && k.pc.Waiting?
    ensures Accounts(HandleItem(k, item, cancelRequested))
  {
    var k' := k.(taken := k.taken + [item]);
    if item.Plan? {
      if !cancelRequested && item.dto.Planned? {
        assert item.dto.trajectories[..0] == [];
        AdvanceAccounts(k'.(feedback := k.feedback + [Executing(item.dto.pathIds)]), item.dto, 0);
      } else {
        TakingExtends(k.taken, item);
      }
    }
  }

  lemma TakingExtends(items: seq<QueueItem>, item: QueueItem)
    ensures TrajectoriesOf(items) <= TrajectoriesOf(items + [item])
  {
    assert (items + [item])[..|items|] == items;
  }

  lemma HeldIsPrefix(k: Consumer, plan: PlanResult, at: nat)
    requires Holds(k, plan, at)
    ensures k.succeeded <= k.succeeded + [plan.trajectories[at]] <= TrajectoriesOf(k.taken)
    ensures k.succeeded + [plan.trajectories[at]] == TrajectoriesOf(k.handled) + plan.trajectories[..at + 1]
  {
    assert plan.trajectories[..at] + [plan.trajectories[at]] == plan.trajectories[..at + 1];
    SnocOf(k.handled, Plan(plan));
  }

  lemma FailAccounts(k: Consumer, outcome: Outcome)
    requires Accounts(k) && (k.pc.Sending? || k.pc.Awaiting?) && outcome != Succeeded && !outcome.PlanningFailed?
    ensures Accounts(Fail(k, outcome))
  {
    HeldIsPrefix(k, k.pc.plan, k.pc.at);
  }

  lemma SendAccounts(k: Consumer, cancelRequested: bool, raises: bool)
    requires Accounts(k) && k.pc.Sending?
    ensures Accounts(SendTrajectory(k, cancelRequested, raises))
  {
    var k' := SendTrajectory(k, cancelRequested, raises);
    if k'.pc.Finished? {
      FailAccounts(k, k'.pc.outcome);
    }
  }

  lemma SuccessAccounts(k: Consumer)
    requires Accounts(k) && k.pc.Awaiting?
    ensures Accounts(Advance(k.(succeeded := k.succeeded + [k.pc.plan.trajectories[k.pc.at]]), k.pc.plan, k.pc.at + 1))
  {
    HeldIsPrefix(k, k.pc.plan, k.pc.at);
    AdvanceAccounts(k.(succeeded := k.succeeded + [k.pc.plan.trajectories[k.pc.at]]), k.pc.plan, k.pc.at + 1);
  }

  lemma HandleExecutionAccounts(k: Consumer, outcome: ExecutionReply)
    requires Accounts(k) && k.pc.Awaiting?
    ensures Accounts(HandleExecution(k, outcome).0)
  {
    if outcome.Answer? && outcome.status == STATUS_SUCCEEDED && outcome.errorCode == Some(MOVEIT_SUCCESS) {
      SuccessAccounts(k);
    } else {
      var (k', _) := HandleExecution(k, outcome);
      FailAccounts(k, k'.pc.outcome);
    }
  }

  /** A consumer that gives up leaves the chain as it is. */
  lemma GivingUpKeepsLinked(c: Chain, groups: seq<seq<Path>>, taken: seq<QueueItem>)
    requires NonEmptyParts(groups) && Linked(c, groups, taken, Looping)
    ensures Linked(c, groups, taken, Over(false))
  {
  }

  lemma HandleItemPhase(k: Consumer, item: QueueItem, cancelRequested: bool)
    ensures var k' := HandleItem(k, item, cancelRequested);
      && k'.taken == k.taken + [item]
      && (item == Stop ==> PhaseOf(k'.pc) == Over(true))
      && (item != Stop ==> PhaseOf(k'.pc) == Over(false) || (PhaseOf(k'.pc) == Looping && IsPlanned(item)))
  {
  }

  lemma ConsumeKeeps(w: World)
    requires Inv(w) && Enabled(w, Consume)
    ensures Inv(Step(w, Consume))
  {
    assert AllPlanned(w.consumer.taken);
    hide Linked, Accounts, Dequeue, AllPlanned;
    var (c', item) := Dequeue(w.chain);
    HandleItemAccounts(w.consumer, item, w.cancelRequested);
    HandleItemPhase(w.consumer, item, w.cancelRequested);
    if item == Stop {
      SentinelCloses(w.chain, w.groups, w.consumer.taken);
    } else {
      DequeueKeepsLinked(w.chain, w.groups, w.consumer.taken);
    }
  }

  lemma SendKeeps(w: World, raises: bool)
    requires Inv(w) && Enabled(w, Send(raises))
    ensures Inv(Step(w, Send(raises)))
  {
    SendAccounts(w.consumer, w.cancelRequested, raises);
    GivingUpKeepsLinked(w.chain, w.groups, w.consumer.taken);
  }

  lemma HandleExecutionPhase(k: Consumer, outcome: ExecutionReply)
    requires Accounts(k) && k.pc.Awaiting?
    ensures var (k', cancels) := HandleExecution(k, outcome);
      && k'.taken == k.taken
      && (PhaseOf(k'.pc) == Over(false) || (PhaseOf(k'.pc) == Looping && !cancels))
  {
  }

  lemma ResultKeeps(w: World, outcome: ExecutionReply)
    requires Inv(w) && Enabled(w, ResultArrives(outcome))
    ensures Inv(Step(w, ResultArrives(outcome)))
  {
    var (k', cancels) := HandleExecution(w.consumer, outcome);
    HandleExecutionAccounts(w.consumer, outcome);
    HandleExecutionPhase(w.consumer, outcome);
    if cancels {
      CancelKeepsLinked(w.chain, w.groups, w.consumer.taken, Looping);
      GivingUpKeepsLinked(Cancel(w.chain), w.groups, w.consumer.taken);
    } else {
      GivingUpKeepsLinked(w.chain, w.groups, w.consumer.taken);
    }
  }

  lemma CallbackKeeps(w: World, e: Event)
    requires Inv(w) && Enabled(w, e) && (e.SceneArrives? || e.PlanArrives? || e.CancelCallback?)
    ensures Inv(Step(w, e))
  {
    var phase := PhaseOf(w.consumer.pc);
    if !Dormant(w.chain, w.consumer.taken, phase) {
      match e
      case SceneArrives(i, scene, d) =>
        SceneKeepsLinked(w.chain, w.groups, w.consumer.taken, phase, i, scene, d);
      case PlanArrives(i, reply, d) =>
        PlanKeepsLinked(w.chain, w.groups, w.consumer.taken, phase, i, reply, d);
      case CancelCallback =>
        CancelKeepsLinked(w.chain, w.groups, w.consumer.taken, phase);
    }
  }

  lemma StepKeeps(w: World, e: Event)
    requires Inv(w)
    ensures Inv(Step(w, e)) && Step(w, e).groups == w.groups
  {
    if Enabled(w, e) {
      match e
      case Begin(readiness) => StartKeeps(w, readiness);
      case Consume => ConsumeKeeps(w);
      case Send(raises) => SendKeeps(w, raises);
      case ResultArrives(outcome) => ResultKeeps(w, outcome);
      case CancelAccepted =>
      case _ => CallbackKeeps(w, e);
    }
  }

  /** The invariant holds after every interleaving. */
  lemma {:induction false} RunKeeps(w: World, events: seq<Event>)
    requires Inv(w)
    ensures Inv(Run(w, events)) && Run(w, events).groups == w.groups
    decreases |events|
  {
    if events != [] {
      StepKeeps(w, events[0]);
      RunKeeps(Step(w, events[0]), events[1..]);
    }
  }
}
