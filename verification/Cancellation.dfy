/** What holds from a cancel callback on, whatever else happens, and what a goal leaves behind. */
module Cancellation {
  import opened EndToEnd
  import opened Execution
  import opened Paths
  import opened PlanningSteps
  import opened ProtocolInvariant
  import opened RepliesSeen
  import opened TrajectoryGrouper
  import opened Wrappers

  /** A cancelled session in which the loop has begun. */
  ghost predicate Silent(w: World) {
    Inv(w) && Began(w) && Cancelled(w.chain)
  }

  /** From `w` to `w'` the chain said nothing, and the consumer took at most the failure cancel left. */
  ghost predicate SaysNothing(w: World, w': World) {
    && w'.chain.calls == w.chain.calls
    && w'.chain.puts == w.chain.puts
    && (w'.consumer.taken == w.consumer.taken
        || (PhaseOf(w.consumer.pc) == Looping
            && w'.consumer.taken == w.consumer.taken + [CANCELLED]
            && PhaseOf(w'.consumer.pc) == Over(false)))
    && (PhaseOf(w.consumer.pc) != Looping ==> w'.consumer.pc == w.consumer.pc)
  }

  lemma SilentStep(w: World, e: Event)
    requires Silent(w)
    ensures Silent(Step(w, e)) && SaysNothing(w, Step(w, e))
  {
    StepKeeps(w, e);
    if Enabled(w, e) {
      match e
      case PlanArrives(i, reply, d) =>
        PlanResponseKeepsEvent(Take(w.chain, i), w.chain.outstanding[i].group, reply, d);
      case Consume =>
        DequeueKeepsStopped(w.chain, w.groups, w.consumer.taken);
        HandleItemPhase(w.consumer, CANCELLED, w.cancelRequested);
      case ResultArrives(outcome) =>
        HandleExecutionPhase(w.consumer, outcome);
      case _ =>
    }
  }

  lemma {:induction false} SilentRun(w: World, events: seq<Event>)
    requires Silent(w)
    ensures Silent(Run(w, events)) && SaysNothing(w, Run(w, events))
    decreases |events|
  {
    if events != [] {
      SilentStep(w, events[0]);
      SilentRun(Step(w, events[0]), events[1..]);
      hide Silent;
    }
  }

  /**
   After a cancel callback in a begun session no planner call is dispatched, the callbacks put nothing,
   the goal can no longer succeed, and a loop still running meets the failure as its next item. A
   second cancel callback changes nothing.
   */
  lemma CancelIsFinal(groups: seq<seq<Path>>, leftover: Chain, before: seq<Event>, after: seq<Event>)
    requires NonEmptyParts(groups) && leftover.outstanding == []
    requires Began(After(groups, leftover, before))
    requires After(groups, leftover, before).consumer.pc != Finished(Succeeded)
    ensures var w := Step(After(groups, leftover, before), CancelCallback);
      var w' := Run(w, after);
      && Step(w, CancelCallback) == w
      && SaysNothing(w, w')
      && w'.consumer.pc != Finished(Succeeded)
      && (PhaseOf(w'.consumer.pc) == Looping ==> w'.chain.queue == Some([CANCELLED, Stop]))
  {
    AfterKeeps(groups, leftover, before);
    var w0 := After(groups, leftover, before);
    var w := Step(w0, CancelCallback);
    StepKeeps(w0, CancelCallback);
    assert Linked(w0.chain, groups, w0.consumer.taken, PhaseOf(w0.consumer.pc));
    assert Silent(w);
    SilentRun(w, after);
    var w' := Run(w, after);
    assert Stopped(w'.chain, w'.groups, w'.consumer.taken, PhaseOf(w'.consumer.pc));
  }

  /**
   A goal that succeeds, or that fails because planning failed and nobody cancelled, leaves no reply
   outstanding: the next goal starts from the state that the other results ask for.
   */
  lemma SettledGoalLeavesNothing(groups: seq<seq<Path>>, leftover: Chain, events: seq<Event>)
    requires NonEmptyParts(groups) && leftover.outstanding == []
    ensures var w := After(groups, leftover, events);
      && |w.chain.outstanding| <= 1
      && (w.consumer.pc == Finished(Succeeded) ==> w.chain.outstanding == [])
      && (w.consumer.pc.Finished? && w.consumer.pc.outcome.PlanningFailed? && !Cancelled(w.chain) ==>
            w.chain.outstanding == [])
  {
    AfterKeeps(groups, leftover, events);
    var w := After(groups, leftover, events);
    if !Dormant(w.chain, w.consumer.taken, PhaseOf(w.consumer.pc)) {
      var n := |w.consumer.taken|;
      assert w.chain.cancelEvent == Some(false) && n > 0 ==> w.chain.puts[n - 1] == w.consumer.taken[n - 1];
    }
  }

  // The client's side of a cancel: `is_cancel_requested`, which the loop asks before it starts or sends anything.

  lemma {:induction false} RequestIsRemembered(w: World, events: seq<Event>)
    ensures Run(w, events).cancelRequested <==> w.cancelRequested || CancelAccepted in events
    decreases |events|
  {
    if events != [] {
      RequestStep(w, events[0]);
      hide Step;
      RequestIsRemembered(Step(w, events[0]), events[1..]);
      assert events == [events[0]] + events[1..];
    }
  }

  lemma RequestStep(w: World, e: Event)
    ensures Step(w, e).cancelRequested <==> w.cancelRequested || e == CancelAccepted
  {
    hide PlanAll, OnScene, OnPlanResponse, Cancel, Dequeue, HandleItem, HandleExecution, SendTrajectory;
  }

  /** From `w` to `w'` nothing was sent or begun: the plan in execution may at most have been reported as completed. */
  ghost predicate WindsUp(k: Consumer, k': Consumer) {
    && k'.sent == k.sent
    && (k'.feedback == k.feedback
        || (k.pc.Awaiting? && k.pc.plan.Planned? && k'.feedback == k.feedback + [Completed(k.pc.plan.pathIds)]))
    && (k'.pc.Awaiting? ==> k'.pc == k.pc && k'.feedback == k.feedback)
    && (k.pc.Finished? ==> k' == k)
    && (k'.pc.Finished? && !k.pc.Finished? ==> !k'.pc.outcome.PlanningFailed?)
  }

  lemma WindingUpStep(w: World, e: Event)
    requires w.cancelRequested
    ensures WindsUp(w.consumer, Step(w, e).consumer)
  {
    hide PlanAll, OnScene, OnPlanResponse, Cancel, Dequeue;
  }

  lemma {:induction false} WindingUp(w: World, events: seq<Event>)
    requires w.cancelRequested
    ensures WindsUp(w.consumer, Run(w, events).consumer)
    decreases |events|
  {
    if events != [] {
      WindingUpStep(w, events[0]);
      RequestStep(w, events[0]);
      hide Step;
      WindingUp(Step(w, events[0]), events[1..]);
    }
  }

  /**
   From the moment the client's cancel was accepted no trajectory is sent and no group is begun; only the execution
   that was under way is waited for, and its group may still be reported as completed.
   */
  lemma AcceptedCancelSendsNothing(groups: seq<seq<Path>>, leftover: Chain, before: seq<Event>, after: seq<Event>)
    requires CancelAccepted in before
    ensures var w := After(groups, leftover, before);
      WindsUp(w.consumer, Run(w, after).consumer)
  {
    RequestIsRemembered(Init(groups, leftover), before);
    WindingUp(After(groups, leftover, before), after);
    hide WindsUp, Run;
  }
}
