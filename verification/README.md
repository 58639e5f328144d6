# Verified model of the motion, I/O and camera controllers

This Dafny project models three parts of the repository and proves what they promise.

**Look-ahead planning and execution.** A goal's paths are validated, grouped, planned one group at a time through
asynchronous replies, passed through a queue with a stop sentinel, and executed. `PlanningSteps` has one function per
callback, `Execution` adds the execute callback and its environment, and a run is any sequence of events: replies that
succeed, fail or raise, cancels at any moment, dequeues, trajectories sent and answered. `ChainInvariant` and
`ProtocolInvariant` hold the invariant, `RepliesSeen` what the delivered replies make of a run, `EndToEnd`, `Cancellation`,
`Endings`, `Liveness` and `StaleReplies` the results.
`PlanningCoordinator` (module `Coordinator`) is the same coordinator as a class that its callbacks update in place, proved equal to the step
functions; `GoalGate` and `MovementController` do the same for the admission of goals. `AbandonedGoals` follows several
goals on one coordinator.

**I/O.** `ChangeLog` is a driver's cache with its change callbacks; `UrConfig`, `UrMessages`, `UrIoDriver` and `UrReadback` are
the UR driver, `MockIoDriver` and `SetIo` the simulated driver and the best-effort `set_io` service, `MonitorGoals` the
`monitor_io` goals that run concurrently with the driver's updates, and `MonitorNode` their entries and the watch table as
objects, proved equal to it.

**Camera brightness.** `SamplingIndices` is the four-way recursion with its two kinds of rounding, `Brightness` the mean,
the search loop and the table of remembered exposures, `BinaryExposureSearch` the bisection and the camera's use of it.

## How the model reads the code

- One callback (`_on_scene`, `_on_group_planned`, `cancel`, one dequeue, one trajectory sent or answered) is one atomic
  step. With finer steps the check at `planning_coordinator.py:124` and the put at `:132` can straddle a `cancel()`, and a
  stray sentinel can then precede the failure.
- The nested loops of `_execute_callback` and, in `MonitorGoals`, the loop of `_execute_monitor` appear as program counters,
  because other callbacks run between their iterations. An event that is not enabled changes nothing, so the runs are all
  interleavings.
- The main results about a goal assume that no reply of an earlier session is outstanding when it starts, because the
  callbacks use whatever session the coordinator holds. `StaleReplies.TrustworthyIffNothingStale` shows that this
  assumption is exact. The abort path of `_execute_callback` does not cancel planning, so a goal that fails while executing
  can leave one reply behind, and so can a cancelled one: `AbandonedGoals` runs both and the goal after them, and
  `Cancellation.SettledGoalLeavesNothing` says when nothing is left.
- `on_result` is documented as called exactly once. The code calls it again with a failure when chaining raises after a
  success, and the model follows the code.
- `_start_state_invalid` always answers no, so that branch of the PILZ request is absent.
- Error texts are constructors; a planner, a driver link or a client that answers, refuses, raises or is missing is a
  parameter of the event.
- Monitor goals: registering, reading the snapshot, looking up the watchers, each `put`, each `get` and each publication are
  separate steps of the threads that perform them; driver updates are serialised, as the node's default callback group does.
- `0.5 * Point2i` rounds half to even (`Half`), the products 1.5 and 0.5 inside the `Point2i` arguments truncate.
  Exposures and brightness are exact reals.

Index safety of the sampling holds only under a condition, which is proved exact (`SafeIff`; three rows per smallest window
are enough, `OverrunExample` shows an index outside). The recursion's termination is exact in the same way
(`TerminatesIff`); the recursive method therefore takes a smallest window height of at least one.

A refused update of the bisection always means an empty bracket as the camera uses it, because it deletes a search at its
first refusal (`RefusalMeansEmpty`, `ExtendedBrightness.SetExtendedBrightness`). Only an update after a refusal, which the
camera never makes, could refuse a wide one (`WideRefusalIff`). The camera seldom searches at all: it turns to the search
when the converted target is out of the auto function's range, and the search then compares the unconverted target with
that range. With a GigE camera, whose conversion is the identity, the two exclude each other (`BeginsIff`, `Serve`); with a
USB camera a search begins only for targets below the range, and only if the range reaches 1.0 (`SearchCanBegin`).

A goal's flag is released before its stored handle is cleared, so the handle of the next goal can be lost
(`GoalGate.HandleStaysIff`). The source writes that handle and never reads it.

## Model

| member | source | states |
|---|---|---|
| EndToEnd.SuccessMeansEverything | src/movement_controller/movement_controller/movement_controller.py:547-633 | Over every interleaving of replies, cancels and loop steps: a goal that succeeds completed exactly its path ids, in goal order and each once; its feedback is one EXECUTING/COMPLETED pair per group; every planned trajectory of every group was sent in order, and every execution reply delivered had status 4 and code 1, one for each trajectory sent; every group was planned |
| EndToEnd.SuccessIsWhatWasAnswered | src/movement_controller/movement_controller/services/planning_coordinator.py:79-208 | What a goal that succeeds sent is what the planners answered during the run: one answer with code 1 for each group, by OMPL for exactly the PTP groups, and every trajectory of every answer, in order and nothing else |
| EndToEnd.CompletedIsPrefix | src/movement_controller/movement_controller/movement_controller.py:552-642 | At every moment and whatever ends the goal, the completed ids are those of the first n groups, hence a prefix of the goal's ids, and the feedback is n pairs plus at most one trailing EXECUTING |
| EndToEnd.ChainIsWellFormed | src/movement_controller/movement_controller/services/planning_coordinator.py:117-208 | Everything the callbacks put matches success* Stop or success* Failure Stop, as a prefix while planning goes on; call 0 plans group 0 from the robot state of a scene reply among the events, call i plans group i from rest at the last point of the last trajectory of result i-1; success i carries the ids of group i |
| RepliesSeen.PlansDecide | src/movement_controller/movement_controller/services/pilz_planner_service.py:193-238 | Over every run: the results put on the queue are the planner replies delivered before a cancel, one for one and in order; code 1 becomes a success with exactly the trajectories answered, another code, no response and an exception the failure that says so; successes answer the planner that the group belongs to |
| PlannerReplies.ExtractEndState | src/movement_controller/movement_controller/services/base_planner_service.py:169-184 | The state at rest where the last point of the last trajectory is, and a failure exactly if there is no trajectory or the last one has no point |
| RepliesSeen.ExecutionsDecide | src/movement_controller/movement_controller/movement_controller.py:586-612 | Over every run the execution replies delivered are one status 4 with code 1 for each trajectory counted as executed, and at most one other, which ended the goal: as an unknown exception if it raised, as a failed execution otherwise |
| RepliesSeen.ExecutionCancelsPlanningIff | src/movement_controller/movement_controller/movement_controller.py:598-612 | In a run without a cancel callback planning is cancelled if and only if an execution reply came that is neither a success (status 4, code 1) nor an exception, a cancellation (5) or an abort (6) |
| EndToEnd.WaitingHasOneRequest | src/movement_controller/movement_controller/services/planning_coordinator.py:117-208 | A consumer waiting on an empty queue waits for exactly one outstanding reply in an uncancelled session, never for none and never for two |
| EndToEnd.RepliesEndTheSequence | src/movement_controller/movement_controller/services/planning_coordinator.py:117-208 | After at most (number of groups + 1) replies the sentinel is on the queue; before that exactly one request is in flight; also when dispatching or end-state extraction raises |
| Liveness.EveryGoalEnds | src/movement_controller/movement_controller/movement_controller.py:537-642 | On every infinite schedule of replies, executions and cancels on which something still happens while the goal is unfinished, the goal ends after finitely many events |
| Liveness.NeverStuck | src/movement_controller/movement_controller/movement_controller.py:537-642 | In every reachable state of an unfinished goal some event other than a cancel can happen, and changes something |
| Liveness.EventsAdvance | src/movement_controller/movement_controller/movement_controller.py:537-663 | Until a goal has ended every event, cancels included, changes nothing or brings the end nearer: stage of the loop, cancels still to be felt, groups and replies to come, queued results, trajectories to send |
| EndToEnd.ReportedIsWhole | src/movement_controller/movement_controller/services/planning_coordinator.py:98-115 | OMPL reports only the leading path of its group, and that is the whole group for every grouping |
| Cancellation.CancelIsFinal | src/movement_controller/movement_controller/services/planning_coordinator.py:360-379 | From a cancel on: no planner call is dispatched, the callbacks put nothing, a loop still running gets the failure as its next item, the goal cannot succeed, and a second cancel changes nothing |
| Cancellation.AcceptedCancelSendsNothing | src/movement_controller/movement_controller/movement_controller.py:436-482 | From the moment the client's cancel is accepted, whatever happens: no trajectory is sent and no group begun, at most the plan whose execution is awaited is still reported as completed, and the goal does not end as a planning failure |
| Endings.EveryOutcomeHasItsCause | src/movement_controller/movement_controller/movement_controller.py:537-642 | However the events interleave, a goal that has ended was ended as one of them causes it to: each outcome, down to each kind of planning failure, goes back to the readiness, scene reply, planner reply, dispatch, execution reply, send or cancel that means it |
| Cancellation.SettledGoalLeavesNothing | src/movement_controller/movement_controller/movement_controller.py:537-642 | At most one reply is outstanding at any moment; none once the goal succeeded or once planning failed without a cancel |
| StaleReplies.TrustworthyIffNothingStale | src/movement_controller/movement_controller/services/planning_coordinator.py:286-324 | Every successful run of a goal completes exactly its paths if and only if no reply of an earlier session is outstanding when it starts, for every goal and every coordinator state |
| StaleReplies.StalePlanIsExecuted | src/movement_controller/movement_controller/services/planning_coordinator.py:171-208 | With a planner reply outstanding from an earlier session there is an interleaving in which that session's result is executed first and reported under this goal, which then succeeds |
| StaleReplies.StaleSceneSkipsGroup | src/movement_controller/movement_controller/services/planning_coordinator.py:145-169 | With a scene reply outstanding from an earlier session there is an interleaving in which the goal succeeds without its first group |
| StaleReplies.GoalCanSucceed | src/movement_controller/movement_controller/movement_controller.py:574-633 | Every valid goal has an interleaving in which it succeeds |
| AbandonedGoals.NextGoalTrustworthyIff | src/movement_controller/movement_controller/services/planning_coordinator.py:286-324 | After any history of goals from a fresh coordinator, the next goal can be trusted to complete exactly its paths if and only if no reply to the past is outstanding |
| AbandonedGoals.AbortedGoalLeaksIntoNext | src/movement_controller/movement_controller/movement_controller.py:598-599 | Two goals from a fresh coordinator: MoveIt cancels the first while it executes, planning is not cancelled, and the second goal succeeds with the second group of the first executed and reported before its own paths |
| AbandonedGoals.CancelledGoalLeaksIntoNext | src/movement_controller/movement_controller/services/planning_coordinator.py:360-379 | The same after a client's cancel while the first group is being planned: the event that would discard its reply is replaced by the next goal's |
| AbandonedGoals.CancelledGoalHidesGroupOfNext | src/movement_controller/movement_controller/services/planning_coordinator.py:145-169 | A goal cancelled before its scene reply can make the next goal succeed without its first group |
| AbandonedGoals.AbortLeavesPlan | src/movement_controller/movement_controller/movement_controller.py:598-599 | The abort path ends a goal of two groups or more with a planner request outstanding and the session uncancelled |
| ProtocolInvariant.StepKeeps | src/movement_controller/movement_controller/movement_controller.py:537-663 | Every event, enabled or not, keeps the invariant that ties queue, session, outstanding requests and recorded calls to what the loop took, sent and reported |
| ProtocolInvariant.RunKeeps | src/movement_controller/movement_controller/movement_controller.py:537-663 | The invariant holds after every sequence of events |
| ChainInvariant.OnPlanResponseKeeps | src/movement_controller/movement_controller/services/pilz_planner_service.py:193-238 | A planner reply keeps the chain well formed, including the second entry into `on_result` when chaining raises after a success was put |
| ChainInvariant.OnSceneKeeps | src/movement_controller/movement_controller/services/planning_coordinator.py:145-169 | The scene reply keeps the chain well formed, whatever raises inside it |
| ChainInvariant.ScheduleNextKeeps | src/movement_controller/movement_controller/services/planning_coordinator.py:117-140 | From a chain ready to go on, scheduling either finishes the sequence, or calls a planner for the next group from the given state, or fails it |
| Coordinator.PlanningSession.PopNextGroup | src/movement_controller/movement_controller/models/planning_session_dto.py:57-70 | Pops the head of the remaining groups and remembers it; an exhausted session is left as it is |
| Coordinator.PlanningCoordinator.ScheduleNextGroup | src/movement_controller/movement_controller/services/planning_coordinator.py:117-140 | The method on the object's fields computes the scheduling step of the chain |
| Coordinator.PlanningCoordinator.GroupPlanned | src/movement_controller/movement_controller/services/planning_coordinator.py:171-208 | The method on the object's fields computes the chain's step for a group result, raises exactly when that step does, and dispatches a next group only from rest at the last point of the last trajectory of that result |
| Coordinator.PlanningCoordinator.PlannerReplied | src/movement_controller/movement_controller/services/pilz_planner_service.py:193-238 | The reply handler, entering the callback again when chaining raises, computes the chain's step for that reply |
| Coordinator.PlanningCoordinator.SceneReplied | src/movement_controller/movement_controller/services/planning_coordinator.py:145-169 | The method on the object's fields computes the chain's step for the scene reply |
| Coordinator.PlanningCoordinator.StartPlanning | src/movement_controller/movement_controller/services/planning_coordinator.py:286-324 | A fresh event, queue and session, dropped again when the scene service is unavailable; replies in flight stay in flight |
| Coordinator.PlanningCoordinator.CancelPlanning | src/movement_controller/movement_controller/services/planning_coordinator.py:360-379 | Sets the event and replaces the queue's contents by the failure and the sentinel |
| Coordinator.PlanningCoordinator.NextPlan | src/movement_controller/movement_controller/services/planning_coordinator.py:326-358 | One turn of the generator: the head of the queue, a reset on the sentinel, a failure without a queue |
| Coordinator.Act | src/movement_controller/movement_controller/movement_controller.py:537-663 | Any event on the objects computes the step of the whole system; an execution reply lets the loop go on exactly with status 4 and code 1, and sets the cancel event exactly when it is neither that, nor an exception, nor status 5 or 6 |
| Coordinator.ExecuteGoal | src/movement_controller/movement_controller/movement_controller.py:537-642 | Validation, grouping and any schedule on the objects: only valid goals start, completed ids are a prefix of the request's, and on success they are the request's, every execution reply delivered had status 4 and code 1, one for each trajectory sent, what was sent is what the planners answered, and nothing is outstanding |
| Paths.ValidatePaths | src/movement_controller/movement_controller/models/trajectory_goal_dto.py:47-65 | Accepts exactly the non-empty lists without a repeated id, unchanged; a reported duplicate does occur twice |
| TrajectoryGrouper.Group | src/movement_controller/movement_controller/utils/trajectory_grouper.py:54-96 | The in-place loop returns non-empty groups that concatenate to the input, with a boundary between two neighbours exactly where the second is PTP or the first has no effective blend radius; it refuses exactly the empty list |
| TrajectoryGrouper.GroupingIsUnique | src/movement_controller/movement_controller/utils/trajectory_grouper.py:54-96 | There is only one such grouping, so the loop's result is fully determined |
| TrajectoryGrouper.PtpIsAlone | src/movement_controller/movement_controller/utils/trajectory_grouper.py:68-92 | A PTP path is the only path of its group |
| MotionRequest.GenerateMotionSequenceRequest | src/movement_controller/movement_controller/services/pilz_planner_service.py:131-188 | The request loop: one item per path in order, the start state on the first only, the requested blends except 0 on the last |
| MotionRequest.GroupedRequestIsAcceptable | src/movement_controller/movement_controller/services/pilz_planner_service.py:131-188 | Every request for a group routed to PILZ has no PTP, a strictly positive blend on every item but the last and 0 on the last, and a start state on the first only |
| MotionRequest.BlendDroppedIff | src/movement_controller/movement_controller/services/pilz_planner_service.py:131-188 | A positive requested blend of a LIN or CIRC path is dropped exactly when the path is the goal's last or the next one is PTP |
| GoalGate.OneGoalAtATime | src/movement_controller/movement_controller/movement_controller.py:486-546 | Over all interleavings of goal and execute callbacks: at most one goal is between admission and release, the flag is set exactly while one is, and a goal executes what its own goal callback validated |
| GoalGate.BusyRejectionChangesNothing | src/movement_controller/movement_controller/movement_controller.py:509-515 | A goal that arrives while another is admitted is rejected and nothing else changes |
| GoalGate.HandleStaysIff | src/movement_controller/movement_controller/movement_controller.py:627-631 | A stored goal handle stays stored for as long as its goal is served, over all continuations, if and only if no ended goal is between releasing the flag and clearing its handle |
| GoalGate.HandleCanBeErased | src/movement_controller/movement_controller/movement_controller.py:498-502 | Such a run exists: the second of two goals is served and its handle is gone |
| Controller.MovementController.GoalCallback | src/movement_controller/movement_controller/movement_controller.py:509-535 | On the node's fields: accepts exactly the valid goals that find the flag clear; every other outcome restores the flag and the stored goal as the gate's steps say |
| Controller.MovementController.BeginExecution | src/movement_controller/movement_controller/movement_controller.py:537-546 | The execute callback takes the goal that was validated for it; the rebuild from the request is never needed |
| Controller.MovementController.GenerateFailureResult | src/movement_controller/movement_controller/movement_controller.py:486-504 | A failed goal reports its completed ids, forgets the stored goal, and releases flag and handle |
| Controller.MovementController.Succeed | src/movement_controller/movement_controller/movement_controller.py:619-633 | A successful goal reports its completed ids and releases flag and handle; the stored goal stays |
| MonitorGoals.MonitorConverges | src/io_controllers/io_controllers/gpio_controller.py:335-423 | Over every interleaving of registrations, snapshots, cache updates, lookups, enqueues and drains by any number of goals: a goal that has published something, has an empty queue, is between publications and has no change on its way has last published the cached signal |
| MonitorGoals.MonitorStream | src/io_controllers/io_controllers/gpio_controller.py:349-387 | What a goal publishes is a prefix of its optional snapshot followed by the changes of its signal looked up since it registered; while it is watched nothing is lost, doubled or reordered; `change_count` is the number of publications at every exit |
| MonitorGoals.QueueDrains | src/io_controllers/io_controllers/gpio_controller.py:359-378 | Left alone, a goal publishes everything it has queued, in order, and comes to rest at the cached signal |
| MonitorGoals.NoWatcherIsLeft | src/io_controllers/io_controllers/gpio_controller.py:416-423 | When every goal has ended, the watch table is empty, keys included |
| MonitorGoals.RunKeeps | src/io_controllers/io_controllers/gpio_controller.py:335-423 | The watch table, the callback in flight and every goal's stream stay consistent over every run |
| MonitorGoals.EveryEndHasItsCause | src/io_controllers/io_controllers/gpio_controller.py:359-387 | Over every run each goal that has ended was ended by one event: the check at the top of its loop, because the node was inactive or else because the client had asked to cancel, or a publication that raised; its report says which, counts what it had published by then, and it publishes nothing more |
| MonitorGoals.CancelIsHeeded | src/io_controllers/io_controllers/gpio_controller.py:359-371 | From a request to cancel on, whatever else happens, the next check at the top of the loop ends the goal, as cancelled while the node is active and as deactivated otherwise; an inactive node ends it without a request |
| MonitorGoals.EveryGoalWasRequested | src/io_controllers/io_controllers/gpio_controller.py:305-333 | Every goal was asked for under its name of an active node that has the signal, and is treated as cancelled only if its client asked for that afterwards |
| MonitorNode.GpioMonitor.ExecuteMonitor | src/io_controllers/io_controllers/gpio_controller.py:335-387 | A whole goal on the objects, with anything done by other threads between its steps: register, snapshot, drain, and on every way out unregister; it is a run of the step system, what it published and still carries is a prefix of its stream, and its entry is in no watch set when it is done |
| MonitorNode.GpioMonitor.DrainQueue | src/io_controllers/io_controllers/gpio_controller.py:359-378 | The `while True` loop is a run of the step system and stops only at a finished goal or when it is granted no more turns |
| MonitorNode.GpioMonitor.RunFromStart | src/io_controllers/io_controllers/gpio_controller.py:335-423 | Any interleaving on the objects is the run of the step system, and at rest every goal that has published anything has last published the cached signal |
| MonitorNode.GpioMonitor.Accept | src/io_controllers/io_controllers/gpio_controller.py:305-322 | Accepts a goal exactly while the node is active and has the signal |
| MonitorNode.GpioMonitor.Act | src/io_controllers/io_controllers/gpio_controller.py:335-423 | Any event on the objects computes the step of the system and keeps every goal's entry the object it is |
| MonitorNode.GpioMonitor.RegisterWatcher | src/io_controllers/io_controllers/gpio_controller.py:411-414 | Adds the entry under its signal's name |
| MonitorNode.GpioMonitor.UnregisterWatcher | src/io_controllers/io_controllers/gpio_controller.py:416-423 | Removes the entry, and the key with its last entry |
| MonitorNode.GpioMonitor.OnDriverChange | src/io_controllers/io_controllers/gpio_controller.py:389-409 | Every entry watching the signal gets the change once, at the end of its queue, no other entry is touched, and the whole callback is a run of the step system |
| UrReadback.ReplayGivesCache | src/io_controllers/io_controllers/drivers/ur_io_driver.py:304-326 | For every well-formed mapping and every run of messages, writes and (de)activations: replaying the fired callbacks over the seeded cache gives the cache, and every callback is a genuine change of one known signal's state |
| UrMessages.EndsAtLastReport | src/io_controllers/io_controllers/drivers/ur_io_driver.py:304-326 | The effect of one `io_states` message on a pinned signal: it ends at the last value reported for its category and pin, and fires that pin's successive distinct values |
| UrMessages.MessageIsRead | src/io_controllers/io_controllers/drivers/ur_io_driver.py:304-326 | Field by field of a message and block by block of the mapping: every digital input, digital output, flag, analog input and analog output has the last state that its own field lists for its pin, else its old one, and fires for each listed state that differs from the one before |
| UrMessages.MessagesLeaveUnpinnedAlone | src/io_controllers/io_controllers/drivers/ur_io_driver.py:304-326 | A name mapped to no pin is untouched and silent under every `io_states` message |
| UrReadback.MessagesLeaveVoltageAlone | src/io_controllers/io_controllers/drivers/ur_io_driver.py:304-326 | The tool voltages of a well-formed mapping are such names |
| UrReadback.RunEndsAtLastReport | src/io_controllers/io_controllers/drivers/ur_io_driver.py:304-326 | Over any run of messages, writes and (de)activations: a pinned signal ends at the last value any message reported for its category and pin, its callbacks are the reports that differ from the one before, and without a report it is untouched and silent |
| UrReadback.RunIsRead | src/io_controllers/io_controllers/drivers/ur_io_driver.py:304-326 | Over any run of messages, writes and (de)activations the same holds with everything that the messages listed, field by field, as one message |
| UrReadback.RunEndsAtLastVoltage | src/io_controllers/io_controllers/drivers/ur_io_driver.py:293-300 | Over any run: a tool voltage ends at the last value written to it while the driver was activated, and its callbacks are the written values that differ from the one before |
| UrReadback.ConfiguredRunPerEntry | src/io_controllers/io_controllers/drivers/ur_io_driver.py:107-154 | From a configured driver every pinned signal leaves its default exactly as its own pin was reported, over any run |
| UrReadback.ConfiguredRunPerVoltage | src/io_controllers/io_controllers/drivers/ur_io_driver.py:107-154 | From a configured driver, which is not activated, every tool voltage leaves its default exactly as it was written |
| UrReadback.RunIsUpdates | src/io_controllers/io_controllers/drivers/ur_io_driver.py:368-382 | A whole run of operations is one list of compare-and-swaps on the cache |
| UrReadback.WritesGoWhereReadsComeFrom | src/io_controllers/io_controllers/drivers/ur_io_driver.py:107-154 | After `configure` a name is written to the category and pin it is read from, exactly the outputs are writable, and exactly the tool-voltage names are written to the tool voltage |
| UrReadback.BlocksAreWritten | src/io_controllers/io_controllers/drivers/ur_io_driver.py:107-154 | Block by block of the mapping: digital outputs, flags and analog outputs are written to their own category and pin, tool voltages to the tool voltage, and inputs not at all |
| UrReadback.ActOn | src/io_controllers/io_controllers/drivers/ur_io_driver.py:232-326 | Any operation on the driver object computes its effect on cache and callbacks, and sends exactly what the mapping says: while activated, a write of an output reaches its own pin by its own request, and nothing else is sent |
| UrReadback.Drive | src/io_controllers/io_controllers/drivers/ur_io_driver.py:107-154 | The driver object, configured and driven by any operations, ends in the state the operations describe, every pinned signal at the last state its own field listed, and has sent, operation by operation, the writes of outputs to their own pins while activated; it is configured exactly when the mapping is well formed |
| UrConfig.ReadIndexIsOneToOne | src/io_controllers/io_controllers/drivers/ur_io_driver.py:107-154 | After a successful `configure`, (category, pin) to name is one-to-one |
| UrConfig.NormalizeUrMapping | src/io_controllers/io_controllers/drivers/mapping_normalizer.py:80-146 | Normalization returns the blocks' signals in order, then the tool voltage, each with its direction, kind, domain and default, and refuses exactly the mappings with an empty name |
| UrConfig.FindDuplicates | src/io_controllers/io_controllers/drivers/mapping_normalizer.py:187-205 | Returns exactly the names that occur more than once |
| UrIoDriver.UrDriver.Configure | src/io_controllers/io_controllers/drivers/ur_io_driver.py:107-154 | Succeeds on exactly the mappings with names present, names unique and pins unique per category, and then holds the seeded cache and both indexes |
| UrIoDriver.UrDriver.OnIoStates | src/io_controllers/io_controllers/drivers/ur_io_driver.py:304-326 | A message is applied as the compare-and-swap of every mapped report, category by category in message order; under a well-formed mapping every signal follows its own field and pin of the message |
| UrIoDriver.UrDriver.UpdateCache | src/io_controllers/io_controllers/drivers/ur_io_driver.py:368-382 | Compare and swap: an unknown name or an equal value does nothing, anything else replaces the state and fires once |
| UrIoDriver.UrDriver.SetDigital | src/io_controllers/io_controllers/drivers/ur_io_driver.py:232-262 | Sends one request for a digital output or flag while activated, refuses anything else with its reason, and never touches the cache |
| UrIoDriver.UrDriver.SetAnalog | src/io_controllers/io_controllers/drivers/ur_io_driver.py:264-302 | Sends one request for an analog output or the tool voltage; only the tool voltage updates the cache, because it has no readback |
| ChangeLog.UpdateAllPerSignal | src/io_controllers/io_controllers/drivers/ur_io_driver.py:368-382 | The effect of any list of writes on one signal: it ends at the last value written, and fires the values that differ from the one before |
| ChangeLog.SuccessiveChangesDiffer | src/io_controllers/io_controllers/drivers/ur_io_driver.py:368-382 | Two successive callbacks for one signal carry different values |
| MockIoDriver.MockDriver.Configure | src/io_controllers/io_controllers/drivers/mock_io_driver.py:66-84 | Succeeds exactly when names are present and unique, and then caches every signal at its default |
| MockIoDriver.MockDriver.SetOutput | src/io_controllers/io_controllers/drivers/mock_io_driver.py:123-155 | Writes an output of the matching kind by compare and swap; refuses unknown names, inputs and the wrong kind without a change |
| MockIoDriver.MockDriver.ApplyMockChange | src/io_controllers/io_controllers/drivers/mock_io_driver.py:157-183 | Coerces and applies a scripted change to an input only |
| MockIoDriver.MockDriver.ApplyValue | src/io_controllers/io_controllers/drivers/mock_io_driver.py:197-204 | Compare, swap and report |
| SetIo.GpioNode.Configure | src/io_controllers/io_controllers/gpio_controller.py:158-164 | Builds the signal index from the driver's snapshot, in agreement with the cache's names, kinds and directions |
| SetIo.GpioNode.OnSetIo | src/io_controllers/io_controllers/gpio_controller.py:483-528 | Over the command's two lists: reports exactly the names that are not outputs of their list's kind, digital first and in order; every output ends at the last entry its own list has for it and nothing else changes; success means nothing is reported; without a driver nothing is named |
| SetIo.GpioNode.ApplySetEntry | src/io_controllers/io_controllers/gpio_controller.py:530-560 | Writes exactly the entries that name a known output of their kind |
| SetIo.EveryEntryIsAccountedFor | src/io_controllers/io_controllers/gpio_controller.py:483-528 | Each entry is either written or reported |
| SetIo.SetIoPerSignal | src/io_controllers/io_controllers/gpio_controller.py:483-560 | An output ends at the value of the last valid entry naming it, one callback fires per actual change, inputs keep their value in silence, and the index still agrees |
| SetIo.IndexAlwaysAgrees | src/io_controllers/io_controllers/gpio_controller.py:158-164 | In every reachable configured state, under commands and scripted changes, the index agrees with the cache, the driver accepts every valid entry, and the callbacks replay to the cache |
| SetIo.EachSideMovesItsOwn | src/io_controllers/io_controllers/drivers/mock_io_driver.py:157-204 | Outputs move only by `set_io`, inputs only by scripted changes |
| SamplingIndices.Sampler.GenSamplingIndicesRec | src/pylon_ros2_camera_component/src/pylon_ros2_camera_node.cpp:4767-4800 | Terminates with the window height as measure and appends the four samples of every split window in call order |
| SamplingIndices.Sampler.SetupSamplingIndices | src/pylon_ros2_camera_component/src/pylon_ros2_camera_node.cpp:4748-4765 | The indices are sorted, and they are the image centre once and those of the recursion over the whole image, with the truncated single-precision quotient as smallest window height |
| SamplingIndices.QuotientFloors | src/pylon_ros2_camera_component/src/pylon_ros2_camera_node.cpp:4753-4755 | Truncating the rounded single-precision quotient of rows and factor gives the integer quotient |
| SamplingIndices.TerminatesIff | src/pylon_ros2_camera_component/src/pylon_ros2_camera_node.cpp:4772-4775 | Call stacks are bounded if and only if the smallest window height is positive or the image has no row |
| SamplingIndices.SetupTerminatesIff | src/pylon_ros2_camera_component/src/pylon_ros2_camera_node.cpp:4753-4763 | For a configured factor the recursion ends if and only if the image has at least as many rows as the factor, or none |
| SamplingIndices.EndlessExample | src/pylon_ros2_camera_component/src/pylon_ros2_camera_node.cpp:4753-4763 | With the default factor of 20 an image of 19 rows has call stacks of every depth |
| SamplingIndices.SafeIff | src/pylon_ros2_camera_component/src/pylon_ros2_camera_node.cpp:4748-4800 | Every index, the centre included, is inside the image if and only if no window on the way down the right edge is three high, or two high and three wide, while still being split |
| SamplingIndices.ThreeRowsAreSafe | src/pylon_ros2_camera_component/src/pylon_ros2_camera_node.cpp:4753-4754 | With three rows per smallest window every index is inside the image, whatever the width |
| SamplingIndices.OverrunExample | src/pylon_ros2_camera_component/src/pylon_ros2_camera_node.cpp:4785-4794 | A 3 x 3 image with windows of one row gets index 11 |
| SamplingIndices.LeavesPartition | src/pylon_ros2_camera_component/src/pylon_ros2_camera_node.cpp:4772-4799 | The windows where the recursion stops partition the image, and none is higher than the smallest window height |
| SamplingIndices.FourPointsPerSplit | src/pylon_ros2_camera_component/src/pylon_ros2_camera_node.cpp:4791-4799 | Four indices per split, three more windows per split |
| Brightness.CalcCurrentBrightness | src/pylon_ros2_camera_component/src/pylon_ros2_camera_node.cpp:4802-4840 | The mean over the sampled indices for a mono image of the expected size, 0 for no data or a wrong size, the mean of all bytes otherwise; it raises exactly on a sampled index out of range, the `int` sum overflows exactly when the bytes of a colour image exceed it, and any result is within 0 to 255 |
| Brightness.SmallImagesFit | src/pylon_ros2_camera_component/src/pylon_ros2_camera_node.cpp:4829-4836 | Up to 8421504 bytes the `int` sum cannot overflow, and one white byte more does |
| Brightness.WhiteImageOverflows | src/pylon_ros2_camera_component/src/pylon_ros2_camera_node.cpp:4829-4836 | The estimate of a white colour image of 8421505 bytes overflows |
| Brightness.EstimateBrightness | src/pylon_ros2_camera_component/src/pylon_ros2_camera_node.cpp:4748-4840 | Setting up the samples and averaging them raises exactly when the image's corner overruns |
| Brightness.MeanBounds | src/pylon_ros2_camera_component/src/pylon_ros2_camera_node.cpp:4820-4827 | A mean lies between the smallest and the largest sample |
| Brightness.MeanIgnoresOrder | src/pylon_ros2_camera_component/src/pylon_ros2_camera_node.cpp:4764-4764 | Sorting the samples cannot change their mean |
| Brightness.BrightnessControl.Remember | src/pylon_ros2_camera_component/src/pylon_ros2_camera_node.cpp:1473-1492 | The table update on the array: an unused entry takes the exposure over, a used one halves its distance to it, twice when it is both the reached and the target's entry, and no other entry moves |
| Brightness.BrightnessControl.SetBrightness | src/pylon_ros2_camera_component/src/pylon_ros2_camera_node.cpp:1276-1499 | A request, with the brightness of every image estimated from its bytes: what ends it is exactly the first check or cycle that does, for that reason; it tries the remembered exposures it should, reports the brightness last seen where the source does, and records an exposure exactly when a measured image came close to the target |
| Brightness.SearchLoop | src/pylon_ros2_camera_component/src/pylon_ros2_camera_node.cpp:1394-1467 | The loop ends at the first cycle that fails, reaches the target, has barely moved for more than the limit of measurements in a row, or is past its time, and at no other |
| Brightness.BrightnessControl.ServeAll | src/pylon_ros2_camera_component/src/pylon_ros2_camera_node.cpp:1473-1492 | After any number of requests the table is what their successful searches recorded: every entry is the weighted sum of the exposures recorded for it, and is 0 or between two of them |
| Brightness.TableHull | src/pylon_ros2_camera_component/src/pylon_ros2_camera_node.cpp:1473-1492 | After any searches an entry is 0 exactly if nothing was recorded for it, and otherwise lies between the smallest and the largest exposure recorded for it |
| Brightness.EntryIsBlend | src/pylon_ros2_camera_component/src/pylon_ros2_camera_node.cpp:1473-1492 | An entry depends only on the exposures recorded for it, once for reaching and once for aiming at it |
| Brightness.EntryIsWeighted | src/pylon_ros2_camera_component/src/pylon_ros2_camera_node.cpp:1473-1492 | After any searches an entry with recorded exposures e1 to en holds e1/2^(n-1) plus the sum of ek/2^(n-k+1) over the later ones, and 0 without any |
| BinaryExposureSearch.ExposureSearch.Update | src/pylon_ros2_camera_component/src/binary_exposure_search.cpp:51-92 | The update of limits, midpoint and counter on the object's fields, and its verdict |
| BinaryExposureSearch.BracketKept | src/pylon_ros2_camera_component/src/binary_exposure_search.cpp:62-71 | With brightness monotone in exposure and readings inside the bracket of their time, the target stays bracketed, brackets are nested, and no exposure outside passes the target |
| BinaryExposureSearch.WidthHalves | src/pylon_ros2_camera_component/src/binary_exposure_search.cpp:71-71 | When every exposure read back is the one asked for, the width after k updates is the initial width over 2^k |
| BinaryExposureSearch.ObeyingTracks | src/pylon_ros2_camera_component/src/binary_exposure_search.cpp:62-71 | Such readings stay inside the bracket of their time |
| BinaryExposureSearch.RefusalMeansEmpty | src/pylon_ros2_camera_component/src/binary_exposure_search.cpp:73-91 | The first update to refuse leaves an empty bracket, for all readings; from a fresh search it is the third to do so |
| BinaryExposureSearch.RefusesIff | src/pylon_ros2_camera_component/src/binary_exposure_search.cpp:73-91 | An update refuses if and only if at least three updates so far left an empty bracket |
| BinaryExposureSearch.ExtendedBrightness.SetExtendedBrightness | src/pylon_ros2_camera_component/include/internal/impl/pylon_ros2_camera_base.hpp:1354-1429 | One cycle of the search, begun on the side that the converted target says: the verdict is exact, a search that refuses or has reached a limit is deleted, so no search is updated after refusing and every refusal is that of an empty bracket |
| BinaryExposureSearch.ExtendedBrightness.SetBrightness | src/pylon_ros2_camera_component/include/internal/impl/pylon_ros2_camera_base.hpp:1204-1352 | The camera's own call: targets within reach go to the auto function, the first other one steers it to its nearer limit, only later ones search, and a search begins exactly at such a call for a target that the search admits |
| BinaryExposureSearch.Serve | src/pylon_ros2_camera_component/include/internal/impl/pylon_ros2_camera_base.hpp:1204-1429 | Over any calls on a new camera nothing is ever searched unless some call begins a search; with a GigE camera nothing is, nor with a range within 0.0 to 1.0 that ends below 1.0 |
| BinaryExposureSearch.SearchConverges | src/pylon_ros2_camera_component/include/internal/impl/pylon_ros2_camera_base.hpp:1381-1413 | The camera's whole search with a monotone response, begun with an image brighter than the target and obeyed from then on, keeps the target bracketed and has width W/2^k after k + 1 updates |
| BinaryExposureSearch.DarkStartGivesUp | src/pylon_ros2_camera_component/include/internal/impl/pylon_ros2_camera_base.hpp:1381-1413 | Begun with an image that is not brighter, an obeyed search stays at the current exposure whatever it sees and gives up exactly at its third update |

## Left out

- Finer interleavings than one callback per step in the planning chain, see above.
- Lifecycle deactivation and teardown under a running goal; for monitor goals deactivation is modelled, for motion goals it is not.
- Exceptions of `_goal_callback` other than the validation errors it catches: they would leave the flag set.
- Field checks of a goal message other than emptiness and id uniqueness, and the constraint configuration: one verdict each.
- Poses, speeds, tool frames, CIRC and path constraints, scaling factors and workspace boxes: carried along without a branch.
- ROS, MoveIt, Pylon, GenICam and OpenCV calls, YAML and pydantic parsing, logging and time stamps.
- The rest of the lifecycle of `set_mock_behavior` timers: a timer that fires is an event, its reply and its scheduling are absent.
- Raw-dictionary checks of the mapping block other than missing or empty names; a parsed mapping is the model's input.
- The registration of the change callback: one is assumed to be registered, so `fired` is what it receives.
- The order of the lists inside a driver snapshot.
- UrIoDriver.UrDriver.SetAnalog: a service call that fails after it was sent is only logged by the source, so it is absent here.
- Feedback of a motion goal that cannot be published, and a `succeed()` that raises: the source ends such a goal as an unknown exception; here both always go through.
- SamplingIndices.Sampler.SetupSamplingIndices: requires at least one row per unit of the downsampling factor, because the recursion does not end otherwise (`TerminatesIff`), and fewer than 2^24 rows, which is what single precision represents exactly; the library's sort is any sort.
- Other floating-point rounding, and NaN.
- Brightness.BrightnessControl.SetBrightness: the refusal of blaze cameras, and the retries inside setting an exposure.
- BinaryExposureSearch.ExtendedBrightness.SetBrightness: a camera access that raises ends the source's call with a failure; here every access goes through.
- `is_initial_setting_` of the bisection, which is never set.
- The camera's get and set services, encodings, and every other camera function.
