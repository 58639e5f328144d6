/** The controller node's own fields, and the callbacks that move a goal through the gate. */
module Controller {
  import opened GoalGate
  import opened Paths
  import opened Wrappers

  /** The action result; a failure carries the ids completed so far as well. */
  datatype ActionResult = ActionResult(success: bool, completed: seq<string>)

  class MovementController {
    var isExecuting: bool
    var trajectoryGoal: Option<seq<Path>>
    var goalHandle: Option<nat>
    /** Which goals have come by, and how far each is. */
    ghost var tickets: map<nat, Ticket>

    ghost function State(): Gate
      reads this
    {
      Gate(isExecuting, trajectoryGoal, goalHandle, tickets)
    }

    constructor ()
      ensures State() == FRESH
    {
      isExecuting, trajectoryGoal, goalHandle, tickets := false, None, None, map[];
    }

    /**
     Admission in one go. `fieldsValid` is the field checks' verdict on the message and `constraintsHold` that
     of the active constraint configuration, if there is one.
     */
    method GoalCallback(id: nat, request: seq<Path>, fieldsValid: bool, constraintsHold: bool) returns (accepted: bool)
      requires id !in tickets
      modifies this
      ensures State() == GateRun(old(State()), [Arrive(id, request), Parse(id, fieldsValid),
                                                CheckConstraints(id, constraintsHold), Reject(id)])
      ensures accepted <==> !old(isExecuting) && fieldsValid && request != [] && UniqueIds(request) && constraintsHold
      ensures accepted ==> trajectoryGoal == Some(request) && isExecuting
      ensures old(isExecuting) ==> isExecuting && trajectoryGoal == old(trajectoryGoal)
      ensures !accepted && !old(isExecuting) ==> !isExecuting && trajectoryGoal == None
    {
      ghost var before := State();
      FourSteps(before, Arrive(id, request), Parse(id, fieldsValid), CheckConstraints(id, constraintsHold), Reject(id));
      hide GateRun;
      if isExecuting {
        tickets := tickets[id := Ticket(request, Rejected)];
        return false;
      }
      isExecuting := true;
      tickets := tickets[id := Ticket(request, Validating)];
      assert State() == GateStep(before, Arrive(id, request));
      var validated := ValidatePaths(request);
      if fieldsValid && validated.Success? {
        trajectoryGoal := Some(validated.value);
        tickets := tickets[id := Ticket(request, Parsed)];
        if constraintsHold {
          tickets := tickets[id := Ticket(request, Accepted)];
          return true;
        }
      }
      trajectoryGoal := None;
      tickets := tickets[id := Ticket(request, Invalid)];
      isExecuting := false;
      tickets := tickets[id := Ticket(request, Rejected)];
      return false;
    }

    /** The head of the execute callback: its goal is the one its own goal callback validated. */
    method BeginExecution(id: nat, request: seq<Path>) returns (goal: seq<Path>)
      requires OwnGoal(State()) && In(State(), id, Accepted) && tickets[id].request == request
      modifies this
      ensures State() == GateRun(old(State()), [StoreHandle(id), ReadGoal(id)])
      ensures goal == request && Runs(State(), id) && State().tickets[id].phase.goal == goal
    {
      ghost var before := State();
      TwoSteps(before, StoreHandle(id), ReadGoal(id));
      goalHandle := Some(id);
      goal := if trajectoryGoal.None? then request else trajectoryGoal.value;
      tickets := tickets[id := Ticket(request, Running(goal))];
    }

    method GenerateFailureResult(id: nat, completedIds: seq<string>) returns (result: ActionResult)
      requires Runs(State(), id)
      modifies this
      ensures State() == GateRun(old(State()), [EndFailed(id), Release(id), ClearHandle(id)])
      ensures result == ActionResult(false, completedIds)
      ensures !isExecuting && trajectoryGoal == None && goalHandle == None
    {
      ThreeSteps(State(), EndFailed(id), Release(id), ClearHandle(id));
      result := ActionResult(false, completedIds);
      trajectoryGoal := None;
      isExecuting := false;
      goalHandle := None;
      tickets := tickets[id := tickets[id].(phase := Closed)];
    }

    /** Success keeps the stored goal; the next goal callback overwrites it. */
    method Succeed(id: nat, completedIds: seq<string>) returns (result: ActionResult)
      requires Runs(State(), id)
      modifies this
      ensures State() == GateRun(old(State()), [EndSucceeded(id), Release(id), ClearHandle(id)])
      ensures result == ActionResult(true, completedIds)
      ensures !isExecuting && goalHandle == None && trajectoryGoal == old(trajectoryGoal)
    {
      ThreeSteps(State(), EndSucceeded(id), Release(id), ClearHandle(id));
      result := ActionResult(true, completedIds);
      isExecuting := false;
      goalHandle := None;
      tickets := tickets[id := tickets[id].(phase := Closed)];
    }
  }
}
