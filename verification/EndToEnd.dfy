/**
 What a client of the action can rely on, over every interleaving.

 Every lemma speaks about an arbitrary sequence of events from the moment a goal is accepted. The one
 assumption on the past is that no planner or scene reply of an earlier session is still to come.
 */
module EndToEnd {
  import opened ChainInvariant
  import opened Execution
  import opened Paths
  import opened PlannerReplies
  import opened PlanningSteps
  import opened ProtocolInvariant
  import opened RepliesSeen
  import opened Sequences
  import opened TrajectoryGrouper
  import opened Wrappers

  /** The state after any interleaving; reachability is this function's range. */
  function After(groups: seq<seq<Path>>, leftover: Chain, events: seq<Event>): World {
    Run(Init(groups, leftover), events)
  }

  /** The feedback of a goal whose groups were all reported as started and completed. */
  function GroupFeedback(groups: seq<seq<Path>>): seq<Feedback> {
    if groups == [] then []
    else
      GroupFeedback(groups[..|groups| - 1]) + [Executing(Ids(Last(groups))), Completed(Ids(Last(groups)))]
  }

  lemma AfterKeeps(groups: seq<seq<Path>>, leftover: Chain, events: seq<Event>)
    requires NonEmptyParts(groups) && leftover.outstanding == []
    ensures var w := After(groups, leftover, events); Inv(w) && w.groups == groups
  {
    InitEstablishes(groups, leftover);
    RunKeeps(Init(groups, leftover), events);
  }

  /** OMPL reports the one path it planned; because PTP paths are alone, that is the whole group. */
  lemma ReportedIsWhole(paths: seq<Path>, groups: seq<seq<Path>>, k: nat)
    requires IsGrouping(paths, groups) && k < |groups|
    ensures ReportedIds(groups[k]) == Ids(groups[k])
  {
    if groups[k][0].motion == PTP {
      PtpIsAlone(paths, groups, k, 0);
    }
  }

  lemma IdsAppend(a: seq<Path>, b: seq<Path>)
    ensures Ids(a + b) == Ids(a) + Ids(b)
  {
  }

  /** The first `n` items are the results of the first `n` groups. */
  ghost predicate Matches(items: seq<QueueItem>, groups: seq<seq<Path>>, n: nat)
    requires n <= |items| && n <= |groups|
  {
    forall i :: 0 <= i < n ==> IsPlanned(items[i]) && items[i].dto.pathIds == Ids(groups[i])
  }

  lemma {:induction false} MatchingReports(items: seq<QueueItem>, groups: seq<seq<Path>>)
    requires |items| <= |groups| && Matches(items, groups, |items|)
    ensures IdsOf(items) == Ids(Flatten(groups[..|items|]))
    ensures FeedbackOf(items) == GroupFeedback(groups[..|items|])
  {
    if items != [] {
      var n := |items| - 1;
      MatchingReports(items[..n], groups);
      assert groups[..n + 1] == groups[..n] + [groups[n]];
      assert groups[..n + 1][..n] == groups[..n];
      FlattenSnoc(groups[..n], groups[n]);
      IdsAppend(Flatten(groups[..n]), groups[n]);
    }
  }

  /** What the consumer took, it took in the order of the groups. */
  lemma TakenMatches(paths: seq<Path>, w: World)
    requires Inv(w) && IsGrouping(paths, w.groups)
    ensures forall i :: 0 <= i < |w.consumer.taken| && IsPlanned(w.consumer.taken[i]) ==>
                          i < |w.groups| && w.consumer.taken[i].dto.pathIds == Ids(w.groups[i])
  {
    forall i | 0 <= i < |w.consumer.taken| && IsPlanned(w.consumer.taken[i])
      ensures i < |w.groups| && w.consumer.taken[i].dto.pathIds == Ids(w.groups[i])
    {
      TakenIsDelivered(w, i);
      hide Inv, IsGrouping;
      ReportedIsWhole(paths, w.groups, i);
    }
  }

  /** A success that the consumer took is the one the chain put there, for the group of that number. */
  lemma TakenIsDelivered(w: World, i: nat)
    requires Inv(w) && i < |w.consumer.taken| && IsPlanned(w.consumer.taken[i])
    ensures i < |w.groups| && w.consumer.taken[i].dto.pathIds == ReportedIds(w.groups[i])
  {
    hide Accounts, Progress, Grammar, ReportedIds, ChainedStart;
    assert Linked(w.chain, w.groups, w.consumer.taken, PhaseOf(w.consumer.pc));
    assert Chained(w.chain, w.groups);
    assert i < |w.chain.puts| && w.consumer.taken[i] == w.chain.puts[i];
    assert Delivers(w.chain.puts[i], w.groups[i]);
  }

  lemma HandledIsPrefixOfTaken(k: Consumer)
    requires Accounts(k)
    ensures k.handled <= k.taken
  {
  }

  /**
   Prefix on any outcome: at every moment the completed ids are those of the first groups, and the
   feedback is one EXECUTING/COMPLETED pair for each of them, plus at most one trailing EXECUTING.
   */
  lemma CompletedIsPrefix(paths: seq<Path>, groups: seq<seq<Path>>, leftover: Chain, events: seq<Event>)
    requires IsGrouping(paths, groups) && leftover.outstanding == []
    ensures var k := After(groups, leftover, events).consumer;
      var n := |k.handled|;
      && n <= |groups|
      && k.completed == Ids(Flatten(groups[..n]))
      && k.completed <= Ids(paths)
      && (k.feedback == GroupFeedback(groups[..n])
          || (n < |groups| && k.feedback == GroupFeedback(groups[..n]) + [Executing(Ids(groups[n]))]))
  {
    AfterKeeps(groups, leftover, events);
    var w := After(groups, leftover, events);
    var k := w.consumer;
    var n := |k.handled|;
    TakenMatches(paths, w);
    HandledIsPrefixOfTaken(k);
    HandledMatches(paths, w);
    MatchingReports(k.handled, groups);
    FlattenSplit(groups, n);
    IdsAppend(Flatten(groups[..n]), Flatten(groups[n..]));
    FeedbackShape(k);
  }

  lemma HandledMatches(paths: seq<Path>, w: World)
    requires Inv(w) && IsGrouping(paths, w.groups)
    ensures |w.consumer.handled| <= |w.groups|
    ensures Matches(w.consumer.handled, w.groups, |w.consumer.handled|)
  {
    var k := w.consumer;
    TakenMatches(paths, w);
    HandledIsPrefixOfTaken(k);
    assert forall i :: 0 <= i < |k.handled| ==> k.handled[i] == k.taken[i] && IsPlanned(k.handled[i]);
    assert k.handled != [] ==> |k.handled| - 1 < |w.groups| by {
      assert k.handled != [] ==> IsPlanned(k.taken[|k.handled| - 1]);
    }
  }

  lemma FeedbackShape(k: Consumer)
    requires Accounts(k)
    ensures var n := |k.handled|;
      || k.feedback == FeedbackOf(k.handled)
      || (n < |k.taken| && IsPlanned(k.taken[n])
          && k.feedback == FeedbackOf(k.handled) + [Executing(k.taken[n].dto.pathIds)])
  {
  }

  /** When the loop ends in success it has handled one plan with trajectories for every group, and the sentinel. */
  lemma SuccessClosesChain(w: World)
    requires Inv(w) && w.consumer.pc == Finished(Succeeded)
    ensures var k := w.consumer;
      && k.taken == w.chain.puts == k.handled + [Stop]
      && |k.handled| == |w.groups|
      && k.completed == IdsOf(k.handled)
      && k.feedback == FeedbackOf(k.handled)
      && k.sent == k.succeeded == TrajectoriesOf(k.handled)
      && (forall i :: 0 <= i < |w.groups| ==> IsPlanned(k.handled[i]) && k.handled[i].dto.trajectories != [])
  {
    var k := w.consumer;
    assert Closed(w.chain, w.groups, k.taken, Over(true));
    assert |k.handled| == |w.groups|;
    forall i | 0 <= i < |w.groups|
      ensures IsPlanned(k.handled[i]) && k.handled[i].dto.trajectories != []
    {
      assert k.handled[i] == k.taken[i] == w.chain.puts[i];
    }
  }

  /** Exactly `n` execution replies, every one of them status 4 with code 1. */
  ghost predicate AllExecuted(seen: seq<ExecutionReply>, n: nat) {
    |seen| == n && forall r :: r in seen ==> r == Answer(4, Some(1))
  }

  lemma SuccessIsExecuted(groups: seq<seq<Path>>, leftover: Chain, events: seq<Event>)
    requires NonEmptyParts(groups) && leftover.outstanding == []
    requires After(groups, leftover, events).consumer.pc == Finished(Succeeded)
    ensures AllExecuted(ExecutionsSeen(Init(groups, leftover), events), |After(groups, leftover, events).consumer.sent|)
  {
    ExecutionsDecide(groups, leftover, events);
    AfterKeeps(groups, leftover, events);
    SuccessClosesChain(After(groups, leftover, events));
    hide Inv, ExecutionsSeen, Init, Run;
  }

  /**
   End to end: a goal that succeeds completed exactly its paths, in order and each once, and every
   planned trajectory was sent in order and came back with status 4 and code 1.
   */
  lemma SuccessMeansEverything(paths: seq<Path>, groups: seq<seq<Path>>, leftover: Chain, events: seq<Event>)
    requires IsGrouping(paths, groups) && UniqueIds(paths) && leftover.outstanding == []
    requires After(groups, leftover, events).consumer.pc == Finished(Succeeded)
    ensures var w := After(groups, leftover, events);
      && w.consumer.completed == Ids(paths)
      && (forall i, j :: 0 <= i < j < |w.consumer.completed| ==> w.consumer.completed[i] != w.consumer.completed[j])
      && w.consumer.feedback == GroupFeedback(groups)
      && w.consumer.taken == w.chain.puts == w.consumer.handled + [Stop]
      && |w.consumer.handled| == |groups|
      && w.consumer.sent == w.consumer.succeeded == TrajectoriesOf(w.consumer.handled)
      && (forall i :: 0 <= i < |groups| ==>
            IsPlanned(w.consumer.handled[i]) && w.consumer.handled[i].dto.trajectories != [])
    ensures AllExecuted(ExecutionsSeen(Init(groups, leftover), events), |After(groups, leftover, events).consumer.sent|)
  {
    SuccessIsExecuted(groups, leftover, events);
    AfterKeeps(groups, leftover, events);
    var w := After(groups, leftover, events);
    SuccessClosesChain(w);
    HandledMatches(paths, w);
    MatchingReports(w.consumer.handled, groups);
    assert groups[..|groups|] == groups;
    hide Inv, After, IsGrouping, Matches, IdsOf, TrajectoriesOf, FeedbackOf, GroupFeedback, ExecutionsSeen, Init, Run;
  }

  /** What the planners answered, one answer after the other. */
  function AnswersOf(replies: seq<PlannerReply>): seq<Trajectory> {
    if replies == [] then []
    else
      AnswersOf(replies[..|replies| - 1])
      + match Last(replies)
        case PilzAnswer(_, plans) => plans
        case OmplAnswer(_, plan) => [plan]
        case _ => []
  }

  lemma {:induction false} AnswersAreTrajectories(replies: seq<PlannerReply>, items: seq<QueueItem>)
    requires |replies| == |items|
    requires forall i :: 0 <= i < |items| ==> IsPlanned(items[i]) && Tells(replies[i], items[i])
    ensures TrajectoriesOf(items) == AnswersOf(replies)
  {
    if items != [] {
      AnswersAreTrajectories(replies[..|items| - 1], items[..|items| - 1]);
    }
  }

  predicate Accepted(reply: PlannerReply) {
    (reply.PilzAnswer? && reply.pilzCode == 1) || (reply.OmplAnswer? && reply.omplCode == 1)
  }

  /** With a success for every group and then the sentinel there is one accepted reply for every group. */
  lemma AnswersClose(puts: seq<QueueItem>, handled: seq<QueueItem>, groups: seq<seq<Path>>, replies: seq<PlannerReply>)
    requires PlansTell(puts, groups, replies)
    requires puts == handled + [Stop] && |handled| == |groups|
    requires forall i :: 0 <= i < |groups| ==> IsPlanned(handled[i])
    ensures |replies| == |groups| && TrajectoriesOf(handled) == AnswersOf(replies)
    ensures forall i :: 0 <= i < |groups| ==>
              groups[i] != [] && Accepted(replies[i]) && (replies[i].OmplAnswer? <==> groups[i][0].motion == PTP)
  {
    hide TrajectoriesOf, AnswersOf;
    var n := |groups|;
    assert forall i :: 0 <= i < n ==> puts[i] == handled[i];
    assert puts[n] == Stop && n > 0 ==> IsPlanned(puts[n - 1]);
    AnswersAreTrajectories(replies, handled);
  }

  /**
   What a goal that succeeds executed is what the planners answered: one answer with code 1 for each group, by OMPL
   for exactly the PTP groups, and every trajectory of every answer, in order and nothing else.
   */
  lemma SuccessIsWhatWasAnswered(paths: seq<Path>, groups: seq<seq<Path>>, leftover: Chain, events: seq<Event>)
    requires IsGrouping(paths, groups) && leftover.outstanding == []
    requires After(groups, leftover, events).consumer.pc == Finished(Succeeded)
    ensures var replies := PlansSeen(Init(groups, leftover), events);
      && |replies| == |groups|
      && (forall i :: 0 <= i < |groups| ==>
            Accepted(replies[i]) && (replies[i].OmplAnswer? <==> groups[i][0].motion == PTP))
      && After(groups, leftover, events).consumer.sent == AnswersOf(replies)
  {
    AfterKeeps(groups, leftover, events);
    PlansDecide(groups, leftover, events);
    var w, replies := After(groups, leftover, events), PlansSeen(Init(groups, leftover), events);
    SuccessClosesChain(w);
    hide *;
    AnswersClose(w.chain.puts, w.consumer.handled, groups, replies);
  }

  /**
   Queue grammar and chaining, for everything the callbacks of a session put: the first group is planned from the
   state of a scene reply, every other from rest at the last point of the last trajectory planned before it.
   */
  lemma ChainIsWellFormed(groups: seq<seq<Path>>, leftover: Chain, events: seq<Event>)
    requires NonEmptyParts(groups) && leftover.outstanding == []
    ensures var c := After(groups, leftover, events).chain;
      && Grammar(c.puts)
      && |c.calls| <= |groups|
      && (forall i :: 0 <= i < |c.calls| ==> c.calls[i].group == groups[i] && ChainedStart(c.seed, c.calls, c.puts, i))
      && (forall i :: 0 <= i < |c.puts| && IsPlanned(c.puts[i]) ==> i < |c.calls| && Delivers(c.puts[i], groups[i]))
      && (c.calls != [] ==> exists e :: e in events && e.SceneArrives? && e.scene == SceneState(c.calls[0].start))
  {
    SeedIsAScene(groups, leftover, events);
    AfterKeeps(groups, leftover, events);
    var w := After(groups, leftover, events);
    if !Dormant(w.chain, w.consumer.taken, PhaseOf(w.consumer.pc)) {
      assert Chained(w.chain, groups);
      assert w.chain.calls != [] ==> ChainedStart(w.chain.seed, w.chain.calls, w.chain.puts, 0);
    }
  }

  /** Progress: a consumer waiting on an empty queue waits for exactly one reply. */
  lemma WaitingHasOneRequest(groups: seq<seq<Path>>, leftover: Chain, events: seq<Event>)
    requires NonEmptyParts(groups) && leftover.outstanding == []
    ensures var w := After(groups, leftover, events);
      w.consumer.pc == Waiting && w.chain.queue == Some([]) ==> |w.chain.outstanding| == 1 && !Cancelled(w.chain)
  {
    AfterKeeps(groups, leftover, events);
    var w := After(groups, leftover, events);
    if w.consumer.pc == Waiting && w.chain.queue == Some([]) {
      assert Live(w.chain, groups, w.consumer.taken);
      assert w.chain.puts == w.consumer.taken;
      assert AllPlanned(w.chain.puts);
    }
  }

  lemma CompleteIsNotAllPlanned(puts: seq<QueueItem>)
    ensures Complete(puts) ==> !AllPlanned(puts)
  {
    assert Complete(puts) ==> !IsPlanned(puts[|puts| - 1]);
  }

  /**
   Never two requests at once, and the sentinel comes after at most (number of groups + 1) replies:
   an uncancelled session either put it, or has exactly one request in flight and replies to spare.
   */
  lemma RepliesEndTheSequence(groups: seq<seq<Path>>, leftover: Chain, events: seq<Event>)
    requires NonEmptyParts(groups) && leftover.outstanding == []
    requires Began(After(groups, leftover, events)) && !Cancelled(After(groups, leftover, events).chain)
    ensures var c := After(groups, leftover, events).chain;
      && c.replies <= |groups| + 1
      && if Complete(c.puts) then c.outstanding == []
         else |c.outstanding| == 1 && c.replies <= |groups|
  {
    AfterKeeps(groups, leftover, events);
    var w := After(groups, leftover, events);
    var c := w.chain;
    assert Linked(c, groups, w.consumer.taken, PhaseOf(w.consumer.pc));
    CompleteIsNotAllPlanned(c.puts);
    assert Grammar(c.puts) && |c.calls| <= |groups|;
    hide ChainedCalls, DeliversInOrder, AllPlanned, CompleteWithFailure;
  }
}
