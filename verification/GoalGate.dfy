/**
 Admission of goals: `_goal_callback` and the bookkeeping around `_execute_callback`, one locked or
 single assignment per step, for any number of goals whose callbacks interleave.
 */
module GoalGate {
  import opened Paths
  import opened Wrappers

  datatype Phase =
    | Validating                    // took the flag
    | Parsed                        // stored the validated goal; constraints still to be checked
    | Invalid                       // cleared the stored goal; the flag is still set
    | Rejected
    | Accepted
    | Handled                       // the execute callback stored its handle
    | Running(goal: seq<Path>)      // executes this goal
    | Ended                         // reached its terminal state; the flag is still set
    | Released
    | Closed

  datatype Ticket = Ticket(request: seq<Path>, phase: Phase)

  datatype Gate = Gate(isExecuting: bool, trajectoryGoal: Option<seq<Path>>, goalHandle: Option<nat>,
                       tickets: map<nat, Ticket>)

  datatype GateEvent =
    | Arrive(id: nat, request: seq<Path>)
    | Parse(id: nat, fieldsValid: bool)
    | CheckConstraints(id: nat, hold: bool)
    | Reject(id: nat)
    | StoreHandle(id: nat)
    | ReadGoal(id: nat)
    | EndFailed(id: nat)
    | EndSucceeded(id: nat)
    | Release(id: nat)
    | ClearHandle(id: nat)

  /** The flag is held on behalf of a goal in one of these phases. */
  predicate Busy(phase: Phase) {
    !phase.Rejected? && !phase.Released? && !phase.Closed?
  }

  function Move(g: Gate, id: nat, phase: Phase): Gate
    requires id in g.tickets
  {
    g.(tickets := g.tickets[id := g.tickets[id].(phase := phase)])
  }

  predicate In(g: Gate, id: nat, phase: Phase) {
    id in g.tickets && g.tickets[id].phase == phase
  }

  predicate Runs(g: Gate, id: nat) {
    id in g.tickets && g.tickets[id].phase.Running?
  }

  function GateStep(g: Gate, e: GateEvent): Gate {
    match e
    case Arrive(id, request) =>
      if id in g.tickets then g
      else if g.isExecuting then g.(tickets := g.tickets[id := Ticket(request, Rejected)])
      else g.(isExecuting := true, tickets := g.tickets[id := Ticket(request, Validating)])
    case Parse(id, fieldsValid) =>
      if !In(g, id, Validating) then g
      else if fieldsValid && g.tickets[id].request != [] && UniqueIds(g.tickets[id].request)
      then Move(g.(trajectoryGoal := Some(g.tickets[id].request)), id, Parsed)
      else Move(g.(trajectoryGoal := None), id, Invalid)
    case CheckConstraints(id, hold) =>
      if !In(g, id, Parsed) then g
      else if hold then Move(g, id, Accepted)
      else Move(g.(trajectoryGoal := None), id, Invalid)
    case Reject(id) =>
      if In(g, id, Invalid) then Move(g.(isExecuting := false), id, Rejected) else g
    case StoreHandle(id) =>
      if In(g, id, Accepted) then Move(g.(goalHandle := Some(id)), id, Handled) else g
    case ReadGoal(id) =>
      if !In(g, id, Handled) then g
      else Move(g, id, Running(if g.trajectoryGoal.None? then g.tickets[id].request else g.trajectoryGoal.value))
    case EndFailed(id) =>
      if Runs(g, id) then Move(g.(trajectoryGoal := None), id, Ended) else g
    case EndSucceeded(id) =>
      if Runs(g, id) then Move(g, id, Ended) else g
    case Release(id) =>
      if In(g, id, Ended) then Move(g.(isExecuting := false), id, Released) else g
    case ClearHandle(id) =>
      if In(g, id, Released) then Move(g.(goalHandle := None), id, Closed) else g
  }

  function GateRun(g: Gate, events: seq<GateEvent>): Gate
    decreases |events|
  {
    if events == [] then g else GateRun(GateStep(g, events[0]), events[1..])
  }

  lemma TwoSteps(g: Gate, a: GateEvent, b: GateEvent)
    ensures GateRun(g, [a, b]) == GateStep(GateStep(g, a), b)
  {
    hide GateStep;
    assert [a, b][1..] == [b];
    assert GateRun(GateStep(g, a), [b]) == GateRun(GateStep(GateStep(g, a), b), [b][1..]);
  }

  lemma ThreeSteps(g: Gate, a: GateEvent, b: GateEvent, c: GateEvent)
    ensures GateRun(g, [a, b, c]) == GateStep(GateStep(GateStep(g, a), b), c)
  {
    hide GateStep;
    assert [a, b, c][1..] == [b, c];
    TwoSteps(GateStep(g, a), b, c);
  }

  lemma FourSteps(g: Gate, a: GateEvent, b: GateEvent, c: GateEvent, d: GateEvent)
    ensures GateRun(g, [a, b, c, d]) == GateStep(GateStep(GateStep(GateStep(g, a), b), c), d)
  {
    hide GateStep;
    assert [a, b, c, d][1..] == [b, c, d];
    ThreeSteps(GateStep(g, a), b, c, d);
  }

  const FRESH := Gate(false, None, None, map[])

  ghost predicate Holds(g: Gate, id: nat) {
    id in g.tickets && Busy(g.tickets[id].phase)
  }

  /** At most one goal holds the flag, and the flag says whether one does. */
  ghost predicate Exclusive(g: Gate) {
    && (forall i, j :: Holds(g, i) && Holds(g, j) ==> i == j)
    && (g.isExecuting <==> exists i :: Holds(g, i))
  }

  /** The stored goal is that of the goal in between validation and execution. */
  ghost predicate OwnGoal(g: Gate) {
    forall i :: i in g.tickets ==>
      var t := g.tickets[i];
      match t.phase
      case Parsed => g.trajectoryGoal == Some(t.request) && t.request != [] && UniqueIds(t.request)
      case Accepted => g.trajectoryGoal == Some(t.request) && t.request != [] && UniqueIds(t.request)
      case Handled => g.trajectoryGoal == Some(t.request) && t.request != [] && UniqueIds(t.request)
      case Running(goal) => goal == t.request && goal != [] && UniqueIds(goal)
      case _ => true
  }

  /** Moving the holder keeps it the only holder, unless it lets go of the flag. */
  lemma MoveKeepsExclusive(g: Gate, g': Gate, id: nat)
    requires Exclusive(g) && Holds(g, id)
    requires g'.tickets.Keys == g.tickets.Keys
    requires forall i :: i in g.tickets && i != id ==> g'.tickets[i] == g.tickets[i]
    requires g'.isExecuting <==> Holds(g', id)
    ensures Exclusive(g')
  {
    assert forall i :: i != id && Holds(g', i) ==> Holds(g, i);
  }

  lemma ArriveKeeps(g: Gate, id: nat, request: seq<Path>)
    requires Exclusive(g) && OwnGoal(g)
    ensures Exclusive(GateStep(g, Arrive(id, request))) && OwnGoal(GateStep(g, Arrive(id, request)))
  {
    var g' := GateStep(g, Arrive(id, request));
    if id !in g.tickets {
      assert forall i :: i != id ==> (Holds(g', i) <==> Holds(g, i));
      assert Holds(g', id) <==> !g.isExecuting;
    }
  }

  lemma StepKeepsExclusive(g: Gate, e: GateEvent)
    requires Exclusive(g) && OwnGoal(g)
    ensures Exclusive(GateStep(g, e))
  {
    var g' := GateStep(g, e);
    if e.Arrive? {
      ArriveKeeps(g, e.id, e.request);
    } else if g' != g {
      if e.ClearHandle? {
        assert forall i :: Holds(g', i) <==> Holds(g, i);
      } else {
        assert Holds(g, e.id);
        MoveKeepsExclusive(g, g', e.id);
      }
    }
  }

  /** Only the goal that holds the flag touches the stored goal, so no other goal's is lost. */
  lemma StepKeepsOwnGoal(g: Gate, e: GateEvent)
    requires Exclusive(g) && OwnGoal(g)
    ensures OwnGoal(GateStep(g, e))
  {
    var g' := GateStep(g, e);
    if e.Arrive? {
      ArriveKeeps(g, e.id, e.request);
    } else if g' != g {
      assert e.ClearHandle? || Holds(g, e.id);
      forall i | i in g'.tickets && i != e.id
        ensures g'.tickets[i] == g.tickets[i]
        ensures Holds(g, i) ==> g'.trajectoryGoal == g.trajectoryGoal
      {
      }
    }
  }

  lemma {:induction false} GateRunKeeps(g: Gate, events: seq<GateEvent>)
    requires Exclusive(g) && OwnGoal(g)
    ensures Exclusive(GateRun(g, events)) && OwnGoal(GateRun(g, events))
    decreases |events|
  {
    if events != [] {
      StepKeepsExclusive(g, events[0]);
      StepKeepsOwnGoal(g, events[0]);
      GateRunKeeps(GateStep(g, events[0]), events[1..]);
    }
  }

  /**
   One goal at a time, over every interleaving of goal and execute callbacks: two goals are never both
   admitted and unfinished, the flag is set exactly while one is, and a goal runs what its own callback
   validated, so the fallback that rebuilds it from the request is never taken.
   */
  lemma OneGoalAtATime(events: seq<GateEvent>, i: nat, j: nat)
    ensures var g := GateRun(FRESH, events);
      && (Holds(g, i) && Holds(g, j) ==> i == j)
      && (g.isExecuting <==> exists k :: Holds(g, k))
      && (In(g, i, Handled) ==> g.trajectoryGoal == Some(g.tickets[i].request))
      && (Runs(g, i) ==> g.tickets[i].phase.goal == g.tickets[i].request
                         && g.tickets[i].request != [] && UniqueIds(g.tickets[i].request))
  {
    GateRunKeeps(FRESH, events);
  }

  /** A goal that arrives while another holds the flag is rejected, and nothing else changes. */
  lemma BusyRejectionChangesNothing(events: seq<GateEvent>, i: nat, id: nat, request: seq<Path>)
    requires Holds(GateRun(FRESH, events), i) && id !in GateRun(FRESH, events).tickets
    ensures var g := GateRun(FRESH, events);
      var g' := GateStep(g, Arrive(id, request));
      && In(g', id, Rejected)
      && g' == g.(tickets := g'.tickets)
      && (forall k :: k in g.tickets ==> k in g'.tickets && g'.tickets[k] == g.tickets[k])
  {
    GateRunKeeps(FRESH, events);
  }

  // The stored handle, which the source writes and never reads.

  /** The goal's handle is stored and its execution has not ended. */
  predicate Serves(g: Gate, id: nat) {
    In(g, id, Handled) || Runs(g, id)
  }

  /** A goal past its admission, whose handle nobody is about to clear while it is served. */
  ghost predicate HandleKept(g: Gate, id: nat) {
    && id in g.tickets
    && (Serves(g, id) || In(g, id, Ended) || In(g, id, Released) || In(g, id, Closed))
    && (Serves(g, id) ==> g.goalHandle == Some(id) && forall j :: !In(g, j, Released))
  }

  lemma StepKeepsHandle(g: Gate, e: GateEvent, id: nat)
    requires Exclusive(g) && HandleKept(g, id)
    ensures HandleKept(GateStep(g, e), id)
  {
    var g' := GateStep(g, e);
    if Serves(g', id) && g' != g {
      assert Serves(g, id) && Holds(g, id);
      assert !e.Arrive? && e.id != id ==> !Holds(g, e.id);
      forall j
        ensures !In(g', j, Released)
      {
        assert j != e.id ==> (In(g', j, Released) <==> In(g, j, Released));
      }
    }
  }

  lemma {:induction false} RunKeepsHandle(g: Gate, events: seq<GateEvent>, id: nat)
    requires Exclusive(g) && OwnGoal(g) && HandleKept(g, id)
    ensures HandleKept(GateRun(g, events), id)
    decreases |events|
  {
    if events != [] {
      StepKeepsHandle(g, events[0], id);
      StepKeepsExclusive(g, events[0]);
      StepKeepsOwnGoal(g, events[0]);
      RunKeepsHandle(GateStep(g, events[0]), events[1..], id);
    }
  }

  /**
   The flag is released before the handle is cleared, so a goal that has just ended can erase the handle of the
   next one. Exactly: from the moment a goal's handle is stored it stays stored for as long as the goal is served,
   whatever happens, if and only if no goal is then between releasing the flag and clearing its handle.
   */
  lemma HandleStaysIff(events: seq<GateEvent>, id: nat)
    requires In(GateRun(FRESH, events), id, Handled) && GateRun(FRESH, events).goalHandle == Some(id)
    ensures var g := GateRun(FRESH, events);
      (forall after :: Serves(GateRun(g, after), id) ==> GateRun(g, after).goalHandle == Some(id))
      <==> forall j :: !In(g, j, Released)
  {
    GateRunKeeps(FRESH, events);
    var g := GateRun(FRESH, events);
    if j :| In(g, j, Released) {
      ClearErases(g, j, id);
    } else {
      forall after | Serves(GateRun(g, after), id)
        ensures GateRun(g, after).goalHandle == Some(id)
      {
        RunKeepsHandle(g, after, id);
      }
    }
  }

  lemma {:induction false} GateRunAppend(g: Gate, before: seq<GateEvent>, after: seq<GateEvent>)
    ensures GateRun(g, before + after) == GateRun(GateRun(g, before), after)
    decreases |before|
  {
    if before == [] {
      assert before + after == after;
    } else {
      assert (before + after)[1..] == before[1..] + after;
      GateRunAppend(GateStep(g, before[0]), before[1..], after);
    }
  }

  /** A goal goes from its arrival to a stored handle while nobody else moves. */
  function Entry(id: nat, request: seq<Path>): seq<GateEvent> {
    [Arrive(id, request), Parse(id, true), CheckConstraints(id, true), StoreHandle(id)]
  }

  lemma EntryServes(g: Gate, id: nat, request: seq<Path>)
    requires !g.isExecuting && id !in g.tickets && request != [] && UniqueIds(request)
    ensures GateRun(g, Entry(id, request))
         == Gate(true, Some(request), Some(id), g.tickets[id := Ticket(request, Handled)])
  {
    FourSteps(g, Arrive(id, request), Parse(id, true), CheckConstraints(id, true), StoreHandle(id));
    hide GateRun, UniqueIds;
    var g1 := GateStep(g, Arrive(id, request));
    assert g1 == g.(isExecuting := true, tickets := g.tickets[id := Ticket(request, Validating)]);
    var g2 := GateStep(g1, Parse(id, true));
    assert g2 == g1.(trajectoryGoal := Some(request), tickets := g.tickets[id := Ticket(request, Parsed)]);
    var g3 := GateStep(g2, CheckConstraints(id, true));
    assert g3 == g2.(tickets := g.tickets[id := Ticket(request, Accepted)]);
  }

  /** A served goal that succeeds and gives back the flag, its handle still to be cleared. */
  lemma SuccessReleases(g: Gate, id: nat, request: seq<Path>)
    requires g == Gate(true, Some(request), Some(id), map[id := Ticket(request, Handled)])
    ensures GateRun(g, [ReadGoal(id), EndSucceeded(id), Release(id)])
         == g.(isExecuting := false, tickets := map[id := Ticket(request, Released)])
  {
    ThreeSteps(g, ReadGoal(id), EndSucceeded(id), Release(id));
    hide GateRun;
    var g1 := GateStep(g, ReadGoal(id));
    assert g1 == g.(tickets := map[id := Ticket(request, Running(request))]);
    var g2 := GateStep(g1, EndSucceeded(id));
    assert g2 == g.(tickets := map[id := Ticket(request, Ended)]);
  }

  /** It does happen: the second of two goals is served and its handle is gone. */
  lemma HandleCanBeErased(request: seq<Path>) returns (events: seq<GateEvent>)
    requires request != [] && UniqueIds(request)
    ensures var g := GateRun(FRESH, events);
      Serves(g, 2) && g.isExecuting && g.goalHandle == None
  {
    var ending := [ReadGoal(1), EndSucceeded(1), Release(1)];
    events := Entry(1, request) + (ending + (Entry(2, request) + [ClearHandle(1)]));
    GateRunAppend(FRESH, Entry(1, request), ending + (Entry(2, request) + [ClearHandle(1)]));
    EntryServes(FRESH, 1, request);
    hide GateRun, GateStep, UniqueIds, Entry;
    var g1 := GateRun(FRESH, Entry(1, request));
    GateRunAppend(g1, ending, Entry(2, request) + [ClearHandle(1)]);
    SuccessReleases(g1, 1, request);
    var g2 := GateRun(g1, ending);
    GateRunAppend(g2, Entry(2, request), [ClearHandle(1)]);
    EntryServes(g2, 2, request);
    var g3 := GateRun(g2, Entry(2, request));
    ClearErases(g3, 1, 2);
  }

  lemma ClearErases(g: Gate, ended: nat, id: nat)
    requires In(g, ended, Released) && Serves(g, id)
    ensures var g' := GateRun(g, [ClearHandle(ended)]);
      Serves(g', id) && g'.isExecuting == g.isExecuting && g'.goalHandle == None
  {
    var g' := GateStep(g, ClearHandle(ended));
    assert GateRun(g, [ClearHandle(ended)]) == GateRun(g', [ClearHandle(ended)][1..]) == g';
  }
}
