/** Why a goal ended: every outcome goes back to an event that causes it. */
module Endings {
  import opened ChainInvariant
  import opened EndToEnd
  import opened Execution
  import opened Paths
  import opened PlannerReplies
  import opened PlanningSteps
  import opened ProtocolInvariant
  import opened Wrappers

  /** The answer was accepted and gives no state to start the next group from. */
  predicate LeavesNoState(reply: PlannerReply) {
    match reply
    case PilzAnswer(1, plans) => plans == [] || plans[|plans| - 1].points == []
    case OmplAnswer(1, plan) => plan.points == []
    case _ => false
  }

  predicate CausesFailure(e: Event, error: PlanError) {
    match error
    case SceneFailed => e.SceneArrives? && (e.scene == SceneRaised || (e.scene.SceneState? && e.d == SendRaises))
    case NoRobotState => e.SceneArrives? && e.scene == SceneMissing
    case NoEndState => e.PlanArrives? && LeavesNoState(e.reply)
    case ClientNotReady => (e.SceneArrives? || e.PlanArrives?) && e.d == ClientMissing
    case RequestNotBuilt => (e.SceneArrives? || e.PlanArrives?) && e.d == BuildFails
    case ReplyFailed => e.PlanArrives? && (e.reply == ReplyRaised || e.d == SendRaises)
    case NoReply => e.PlanArrives? && e.reply == NoResponse
    case Refused(code) =>
      && e.PlanArrives? && code != 1
      && (e.reply.PilzAnswer? || e.reply.OmplAnswer?)
      && code == if e.reply.PilzAnswer? then e.reply.pilzCode else e.reply.omplCode
    case CancelledByRequester => e == CancelCallback
    case QueueNotInitialised => false
  }

  predicate CausesEnding(e: Event, outcome: Outcome) {
    match outcome
    case Succeeded => e == Consume
    case NotInitialised => e == Begin(NotReady)
    case NothingPlanned => e == Begin(Ready(Unavailable))
    case GoalCancelled => e == CancelAccepted
    case PlanningFailed(error) => CausesFailure(e, error)
    case ExecutionFailed =>
      e == CancelAccepted || (e.ResultArrives? && e.outcome.Answer? && e.outcome != Answer(4, Some(1)))
    case UnknownException => e == Begin(Ready(CallRaises)) || e == Send(true) || e == ResultArrives(Raised)
  }

  /** A failure goes back to one of the events. */
  ghost predicate Caused(item: QueueItem, events: seq<Event>) {
    IsFailure(item) ==> exists e :: e in events && CausesFailure(e, item.dto.error)
  }

  ghost predicate Explained(w: World, events: seq<Event>) {
    && (w.cancelRequested ==> CancelAccepted in events)
    && (PhaseOf(w.consumer.pc) == Looping ==>
          w.chain.queue.Some? && forall item :: item in w.chain.queue.value ==> Caused(item, events))
    && (w.consumer.pc.Finished? ==> exists e :: e in events && CausesEnding(e, w.consumer.pc.outcome))
  }

  predicate CausedBy(item: QueueItem, e: Event) {
    IsFailure(item) ==> CausesFailure(e, item.dto.error)
  }

  /** What a callback adds to the queue is no failure, or one that its event causes. */
  ghost predicate AddsCaused(queue: Option<seq<QueueItem>>, queue': Option<seq<QueueItem>>, e: Event) {
    && (queue.Some? <==> queue'.Some?)
    && (queue.Some? ==> forall item :: item in queue'.value ==> item in queue.value || CausedBy(item, e))
  }

  lemma SchedulingAdds(c: Chain, start: RobotState, d: Dispatch, e: Event)
    requires (e.SceneArrives? || e.PlanArrives?) && e.d == d
    ensures AddsCaused(c.queue, ScheduleNext(c, start, d).0.queue, e)
    ensures ScheduleNext(c, start, d).1 ==> d == SendRaises
  {
  }

  lemma FailureAdds(c: Chain, error: PlanError, e: Event)
    requires CausesFailure(e, error)
    ensures AddsCaused(c.queue, Abort(c, error).queue, e) && AddsCaused(c.queue, OnFailedGroup(c, error).queue, e)
  {
  }

  lemma AddsTransitive(a: Option<seq<QueueItem>>, b: Option<seq<QueueItem>>, c: Option<seq<QueueItem>>, e: Event)
    requires AddsCaused(a, b, e) && AddsCaused(b, c, e)
    ensures AddsCaused(a, c, e)
  {
  }

  lemma SceneAdds(c: Chain, i: nat, scene: SceneReply, d: Dispatch)
    ensures AddsCaused(c.queue, OnScene(c, scene, d).queue, SceneArrives(i, scene, d))
  {
    var e := SceneArrives(i, scene, d);
    assert AddsCaused(c.queue, c.queue, e);
    hide ScheduleNext, Abort, AddsCaused;
    match scene
    case SceneRaised => FailureAdds(c, SceneFailed, e);
    case SceneMissing => FailureAdds(c, NoRobotState, e);
    case SceneState(robot) =>
      var seeded := c.(seed := Some(robot));
      SchedulingAdds(seeded, robot, d, e);
      var (c', raised) := ScheduleNext(seeded, robot, d);
      if raised {
        FailureAdds(c', SceneFailed, e);
        AddsTransitive(c.queue, c'.queue, Abort(c', SceneFailed).queue, e);
      }
  }

  lemma PlanAdds(c: Chain, i: nat, group: seq<Path>, reply: PlannerReply, d: Dispatch)
    requires group != []
    ensures AddsCaused(c.queue, OnPlanResponse(c, group, reply, d).queue, PlanArrives(i, reply, d))
  {
    var e, dto := PlanArrives(i, reply, d), ToResult(group, reply);
    assert AddsCaused(c.queue, c.queue, e);
    if dto.Failed? {
      assert CausesFailure(e, dto.error);
      hide ToResult, CausesFailure;
      FailureAdds(c, dto.error, e);
    } else if !Cancelled(c) {
      var c1 := Put(c, Plan(dto));
      assert AddsCaused(c.queue, c1.queue, e);
      assert ExtractEndState(dto.trajectories).Failure? ==> CausesFailure(e, ExtractEndState(dto.trajectories).error);
      hide ToResult, Put, AddsCaused, ScheduleNext, CausesFailure, ExtractEndState;
      match ExtractEndState(dto.trajectories) {
        case Failure(error) =>
          FailureAdds(c1, error, e);
          AddsTransitive(c.queue, c1.queue, Abort(c1, error).queue, e);
        case Success(end) =>
          SchedulingAdds(c1, end, d, e);
          var (c2, raised) := ScheduleNext(c1, end, d);
          AddsTransitive(c.queue, c1.queue, c2.queue, e);
          if raised {
            assert CausesFailure(e, ReplyFailed) by {
              CallingRaises(i, reply);
            }
            FailureAdds(c2, ReplyFailed, e);
            AddsTransitive(c.queue, c2.queue, OnFailedGroup(c2, ReplyFailed).queue, e);
          }
      }
    }
  }

  lemma CallingRaises(i: nat, reply: PlannerReply)
    ensures CausesFailure(PlanArrives(i, reply, SendRaises), ReplyFailed)
  {
  }

  /** The queue of a begun session stays explained when a callback adds to it. */
  lemma AddingExplains(queue: Option<seq<QueueItem>>, queue': Option<seq<QueueItem>>, events: seq<Event>, e: Event)
    requires AddsCaused(queue, queue', e) && queue.Some?
    requires forall item :: item in queue.value ==> Caused(item, events)
    ensures queue'.Some? && forall item :: item in queue'.value ==> Caused(item, events + [e])
  {
    assert e in events + [e] && forall x :: x in events ==> x in events + [e];
    forall item | item in queue'.value
      ensures Caused(item, events + [e])
    {
      if item in queue.value {
        assert Caused(item, events);
      } else {
        assert CausedBy(item, e);
      }
    }
  }

  lemma MoreEventsExplain(w: World, events: seq<Event>, e: Event)
    requires Explained(w, events)
    ensures Explained(w, events + [e])
  {
    assert forall x :: x in events ==> x in events + [e];
    forall item | Caused(item, events)
      ensures Caused(item, events + [e])
    {
    }
  }

  lemma CallbackExplains(w: World, events: seq<Event>, e: Event)
    requires Explained(w, events) && Enabled(w, e) && (e.SceneArrives? || e.PlanArrives?)
    ensures Explained(Step(w, e), events + [e])
  {
    MoreEventsExplain(w, events, e);
    match e {
      case SceneArrives(i, scene, d) =>
        hide OnScene, Caused;
        SceneAdds(Take(w.chain, i), i, scene, d);
      case PlanArrives(i, reply, d) =>
        hide OnPlanResponse, Caused;
        PlanAdds(Take(w.chain, i), i, w.chain.outstanding[i].group, reply, d);
    }
    if PhaseOf(w.consumer.pc) == Looping {
      AddingExplains(w.chain.queue, Step(w, e).chain.queue, events, e);
    }
  }

  /** The loop ends as the item it took, or the client's request, tells it to. */
  lemma ConsumeExplains(w: World, events: seq<Event>)
    requires Explained(w, events) && Enabled(w, Consume)
    ensures Explained(Step(w, Consume), events + [Consume])
  {
    MoreEventsExplain(w, events, Consume);
    hide Caused, CausesFailure;
    var more, q, k := events + [Consume], w.chain.queue.value, Step(w, Consume).consumer;
    assert Consume in more && q[0] in q && forall item :: item in q[1..] ==> item in q;
    if k.pc.Finished? && k.pc.outcome.PlanningFailed? {
      FailureExplains(q[0], more);
    }
  }

  lemma FailureExplains(item: QueueItem, events: seq<Event>)
    requires IsFailure(item) && Caused(item, events)
    ensures exists e :: e in events && CausesEnding(e, PlanningFailed(item.dto.error))
  {
    var e :| e in events && CausesFailure(e, item.dto.error);
    assert CausesEnding(e, PlanningFailed(item.dto.error));
  }

  lemma CancelExplains(w: World, events: seq<Event>)
    requires Explained(w, events)
    ensures Explained(w.(chain := Cancel(w.chain)), events + [CancelCallback])
  {
    MoreEventsExplain(w, events, CancelCallback);
    var more := events + [CancelCallback];
    assert CancelCallback in more && CausesFailure(CancelCallback, CancelledByRequester);
    assert Caused(CANCELLED, more);
  }

  lemma ExplainedStep(w: World, events: seq<Event>, e: Event)
    requires Explained(w, events)
    ensures Explained(Step(w, e), events + [e])
  {
    if !Enabled(w, e) {
      MoreEventsExplain(w, events, e);
      hide Explained;
    } else if e.SceneArrives? || e.PlanArrives? {
      CallbackExplains(w, events, e);
    } else if e.CancelCallback? {
      CancelExplains(w, events);
    } else if e.Consume? {
      ConsumeExplains(w, events);
    } else {
      MoreEventsExplain(w, events, e);
      hide Caused;
      assert e in events + [e];
    }
  }

  lemma {:induction false} ExplainedRun(w: World, before: seq<Event>, events: seq<Event>)
    requires Explained(w, before)
    ensures Explained(Run(w, events), before + events)
    decreases |events|
  {
    hide Step, Explained;
    if events == [] {
      assert before + events == before;
    } else {
      ExplainedStep(w, before, events[0]);
      ExplainedRun(Step(w, events[0]), before + [events[0]], events[1..]);
      assert before + [events[0]] + events[1..] == before + events;
    }
  }

  /** However the events interleave, a goal that has ended was ended as one of them causes it to. */
  lemma EveryOutcomeHasItsCause(groups: seq<seq<Path>>, leftover: Chain, events: seq<Event>)
    requires After(groups, leftover, events).consumer.pc.Finished?
    ensures exists e :: e in events && CausesEnding(e, After(groups, leftover, events).consumer.pc.outcome)
  {
    var w := Init(groups, leftover);
    assert Explained(w, []);
    ExplainedRun(w, [], events);
    assert [] + events == events;
    hide Run, Init;
  }
}
