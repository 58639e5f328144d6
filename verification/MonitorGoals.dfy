/**
 The `monitor_io` goals of the GPIO node: each registers a queue, optionally reads a snapshot, and drains
 the queue on its own thread, while the driver's serialised updates route changes into the queues. A step is
 one locked section, one queue operation, one publication or one cache swap; any interleaving is a run.
 */
module MonitorGoals {
  import opened ChangeLog
  import opened Sequences
  import opened Wrappers

  datatype Ending = Deactivated | Cancelled | Error

  datatype Report = Report(success: bool, changeCount: nat, message: Ending)

  datatype Stage =
    | Accepted
    | Registered                // in the watch table; the initial snapshot comes next
    | AtTop                     // about to check for deactivation and cancellation
    | Waiting                   // in the queue's timed `get`
    | Publishing
    | Finishing(report: Report) // about to leave the watch table
    | Done(report: Report)

  /** A goal. `held` is the signal its thread is about to publish; `initial` and `since` are history. */
  datatype Goal = Goal(ioName: string, emitInitial: bool, cancelRequested: bool, stage: Stage,
                       pending: seq<Signal>, held: seq<Signal>, published: seq<Signal>, changeCount: nat,
                       initial: seq<Signal>, since: nat)

  /** The change callback: at rest, entered with a change, or handing it to the entries it looked up. */
  datatype Callback = Idle | Entered(signal: Signal) | Routing(signal: Signal, waiting: set<nat>)

  datatype Node = Node(io: Io, active: bool, watchers: map<string, set<nat>>, callback: Callback,
                       goals: map<nat, Goal>)

  datatype Event =
    | Request(id: nat, ioName: string, emitInitial: bool)
    | RequestCancel(id: nat)
    | SetActive(active: bool)
    | DriverUpdates(name: string, value: Value)
    | LookUp
    | Put(id: nat)
    | Register(id: nat)
    | Begin(id: nat)
    | Check(id: nat)
    | Get(id: nat)
    | Publish(id: nat, delivered: bool)
    | Unregister(id: nat)

  // The watch table, for entries of any type.

  function WatchersOf<E>(watchers: map<string, set<E>>, name: string): set<E> {
    if name in watchers then watchers[name] else {}
  }

  function AddWatcher<E>(watchers: map<string, set<E>>, name: string, e: E): map<string, set<E>> {
    watchers[name := WatchersOf(watchers, name) + {e}]
  }

  /** The key goes with its last entry. */
  function RemoveWatcher<E>(watchers: map<string, set<E>>, name: string, e: E): map<string, set<E>> {
    if name !in watchers then watchers
    else if watchers[name] - {e} == {} then watchers - {name}
    else watchers[name := watchers[name] - {e}]
  }

  // The goal's own thread.

  function Finish(g: Goal, message: Ending): Goal {
    g.(stage := Finishing(Report(message == Cancelled, g.changeCount, message)))
  }

  function BeginWith(g: Goal, snapshot: Signal): Goal {
    if g.emitInitial then g.(stage := Publishing, held := [snapshot], initial := [snapshot]) else g.(stage := AtTop)
  }

  function CheckEnd(g: Goal, active: bool): Goal {
    if !active then Finish(g, Deactivated)
    else if g.cancelRequested then Finish(g, Cancelled)
    else g.(stage := Waiting)
  }

  function GetNext(g: Goal): Goal {
    if g.pending == [] then g.(stage := AtTop)
    else g.(stage := Publishing, held := [g.pending[0]], pending := g.pending[1..])
  }

  /** A publication that raises ends the goal; what it held is lost. */
  function PublishHeld(g: Goal, delivered: bool): Goal {
    if !delivered then Finish(g, Error)
    else g.(stage := AtTop, published := g.published + g.held, held := [], changeCount := g.changeCount + 1)
  }

  function Enqueue(g: Goal, s: Signal): Goal {
    g.(pending := g.pending + [s])
  }

  predicate At(n: Node, id: nat, stage: Stage) {
    id in n.goals && n.goals[id].stage == stage
  }

  function With(n: Node, id: nat, g: Goal): Node {
    n.(goals := n.goals[id := g])
  }

  /** The changes already looked up when a goal registers are not routed to it. */
  function RoutedSoFar(n: Node): nat {
    if n.callback.Entered? && n.io.fired != [] then |n.io.fired| - 1 else |n.io.fired|
  }

  function Deliver(n: Node, id: nat): Node
    requires n.callback.Routing? && id in n.callback.waiting
  {
    var waiting := n.callback.waiting - {id};
    var n' := n.(callback := if waiting == {} then Idle else n.callback.(waiting := waiting));
    if id in n.goals then With(n', id, Enqueue(n.goals[id], n.callback.signal)) else n'
  }

  /** One step; a step that cannot be taken leaves the node as it is. */
  function Step(n: Node, e: Event): Node {
    match e
    case Request(id, name, emitInitial) =>
      if id in n.goals || !n.active || name !in n.io.cache then n
      else With(n, id, Goal(name, emitInitial, false, Accepted, [], [], [], 0, [], 0))
    case RequestCancel(id) =>
      if id in n.goals then With(n, id, n.goals[id].(cancelRequested := true)) else n
    case SetActive(active) => n.(active := active)
    case DriverUpdates(name, value) =>
      var io := Update(n.io, name, value);
      if !n.callback.Idle? || io == n.io then n else n.(io := io, callback := Entered(Last(io.fired)))
    case LookUp =>
      if !n.callback.Entered? then n
      else
        var entries := WatchersOf(n.watchers, n.callback.signal.ioName);
        n.(callback := if entries == {} then Idle else Routing(n.callback.signal, entries))
    case Put(id) =>
      if n.callback.Routing? && id in n.callback.waiting then Deliver(n, id) else n
    case Register(id) =>
      if !At(n, id, Accepted) then n
      else
        var g := n.goals[id];
        With(n, id, g.(stage := Registered, since := RoutedSoFar(n)))
          .(watchers := AddWatcher(n.watchers, g.ioName, id))
    case Begin(id) =>
      if At(n, id, Registered) && n.goals[id].ioName in n.io.cache
      then With(n, id, BeginWith(n.goals[id], n.io.cache[n.goals[id].ioName]))
      else n
    case Check(id) =>
      if At(n, id, AtTop) then With(n, id, CheckEnd(n.goals[id], n.active)) else n
    case Get(id) =>
      if At(n, id, Waiting) then With(n, id, GetNext(n.goals[id])) else n
    case Publish(id, delivered) =>
      if At(n, id, Publishing) then With(n, id, PublishHeld(n.goals[id], delivered)) else n
    case Unregister(id) =>
      if id in n.goals && n.goals[id].stage.Finishing?
      then With(n, id, n.goals[id].(stage := Done(n.goals[id].stage.report)))
           .(watchers := RemoveWatcher(n.watchers, n.goals[id].ioName, id))
      else n
  }

  function Run(n: Node, events: seq<Event>): Node
    decreases |events|
  {
    if events == [] then n else Run(Step(n, events[0]), events[1..])
  }

  /** A configured driver before the first goal. */
  predicate Start(n: Node) {
    && n.watchers == map[] && n.goals == map[] && n.callback == Idle
    && forall k :: k in n.io.cache ==> n.io.cache[k].ioName == k
  }

  // What every reachable state keeps.

  predicate Watched(g: Goal) {
    !g.stage.Accepted? && !g.stage.Done?
  }

  /** The watch table lists exactly the goals between registering and unregistering, and no empty key. */
  ghost predicate TableAgrees(n: Node) {
    && (forall k, id :: id in WatchersOf(n.watchers, k) <==> Listed(n, k, id))
    && (forall k :: k in n.watchers ==> n.watchers[k] != {})
  }

  /** What a callback carries is the last change, and still the cached value. */
  ghost predicate InFlight(n: Node) {
    && Named(n.io.cache)
    && (!n.callback.Idle? ==>
          var s := n.callback.signal;
          && s.ioName in n.io.cache && n.io.cache[s.ioName] == s
          && n.io.fired != [] && Last(n.io.fired) == s)
    && (n.callback.Routing? ==>
          && n.callback.waiting != {}
          && forall id :: id in n.callback.waiting ==>
               id in n.goals && n.goals[id].ioName == n.callback.signal.ioName && !n.goals[id].stage.Accepted?)
  }

  /** What the callback in flight will still put into the queue of goal `id`. */
  function Due(callback: Callback, id: nat, g: Goal): seq<Signal> {
    match callback
    case Idle => []
    case Entered(s) => if Watched(g) && s.ioName == g.ioName then [s] else []
    case Routing(s, waiting) => if id in waiting then [s] else []
  }

  /** Everything a goal has published, holds or has queued. */
  function Carried(g: Goal): seq<Signal> {
    g.published + g.held + g.pending
  }

  /** That, and what it is about to be given. */
  function Trail(n: Node, id: nat): seq<Signal>
    requires id in n.goals
  {
    Carried(n.goals[id]) + Due(n.callback, id, n.goals[id])
  }

  /** The changes of one signal in the log from entry `since` on. */
  function ChangesSince(log: seq<Signal>, since: nat, name: string): seq<Signal>
    decreases |log|
  {
    if |log| <= since then []
    else
      ChangesSince(log[..|log| - 1], since, name) + (if Last(log).ioName == name then [Last(log)] else [])
  }

  /** What a goal is to be sent: the initial snapshot if it read one, then every change routed to it. */
  function Stream(n: Node, id: nat): seq<Signal>
    requires id in n.goals
  {
    n.goals[id].initial + ChangesSince(n.io.fired, n.goals[id].since, n.goals[id].ioName)
  }

  ghost predicate Stages(g: Goal) {
    && g.changeCount == |g.published|
    && |g.initial| <= 1
    && (g.initial != [] ==> g.emitInitial)
    && (g.stage.Accepted? || g.stage.Registered? ==> g.published == g.held == g.initial == [])
    && (g.stage.Accepted? ==> g.pending == [])
    && (g.stage.AtTop? || g.stage.Waiting? ==> g.held == [] && (g.emitInitial ==> g.initial != []))
    && (g.stage.Publishing? ==> |g.held| == 1 && (g.emitInitial ==> g.initial != []))
    && (g.stage.Finishing? || g.stage.Done? ==>
          && g.stage.report.changeCount == |g.published|
          && (g.stage.report.success <==> g.stage.report.message == Cancelled)
          && (g.stage.report.message == Cancelled ==> g.cancelRequested)
          && (g.held != [] <==> g.stage.report.message == Error))
  }

  /** Nothing lost, doubled or reordered; and what comes last is what the driver caches. */
  ghost predicate Flows(n: Node, id: nat)
    requires id in n.goals
  {
    var g := n.goals[id];
    && g.ioName in n.io.cache
    && g.since <= |n.io.fired|
    && (Watched(g) ==> Trail(n, id) == Stream(n, id))
    && (Watched(g) && Trail(n, id) != [] ==> Last(Trail(n, id)) == n.io.cache[g.ioName])
    && (g.stage.Done? ==> Trail(n, id) <= Stream(n, id))
  }

  ghost predicate Consistent(n: Node) {
    TableAgrees(n) && InFlight(n) && forall id :: id in n.goals ==> Stages(n.goals[id]) && Flows(n, id)
  }

  predicate Listed(n: Node, name: string, id: nat) {
    id in n.goals && n.goals[id].ioName == name && Watched(n.goals[id])
  }

  lemma StepKeepsTable(n: Node, e: Event)
    requires TableAgrees(n)
    ensures TableAgrees(Step(n, e))
  {
    var n' := Step(n, e);
    if n' == n {
    } else if e.Register? || e.Unregister? {
      TableFollows(n, e);
    } else {
      assert n'.watchers == n.watchers;
      forall k, id
        ensures Listed(n', k, id) <==> Listed(n, k, id)
      {
      }
      hide Listed, Step;
    }
  }

  lemma TableFollows(n: Node, e: Event)
    requires TableAgrees(n) && (e.Register? || e.Unregister?) && Step(n, e) != n
    ensures TableAgrees(Step(n, e))
  {
    var n' := Step(n, e);
    var name := n.goals[e.id].ioName;
    assert forall k, id :: id != e.id || k != name ==> (Listed(n', k, id) <==> Listed(n, k, id));
    assert Listed(n', name, e.id) <==> e.Register?;
    assert n'.watchers
           == if e.Register? then AddWatcher(n.watchers, name, e.id) else RemoveWatcher(n.watchers, name, e.id);
    hide Listed, Step;
    forall k, id
      ensures id in WatchersOf(n'.watchers, k) <==> Listed(n', k, id)
    {
    }
  }

  lemma StepKeepsInFlight(n: Node, e: Event)
    requires TableAgrees(n) && InFlight(n)
    ensures InFlight(Step(n, e))
  {
  }

  /** The steps of a goal's own thread from one publication to the next keep what it carries. */
  lemma CheckKeeps(g: Goal, active: bool)
    requires Stages(g) && g.stage.AtTop?
    ensures Stages(CheckEnd(g, active)) && Carried(CheckEnd(g, active)) == Carried(g)
  {
  }

  lemma GetKeeps(g: Goal)
    requires Stages(g) && g.stage.Waiting?
    ensures Stages(GetNext(g)) && Carried(GetNext(g)) == Carried(g)
  {
    if g.pending != [] {
      assert [g.pending[0]] + g.pending[1..] == g.pending;
      AppendAssociates(g.published, [g.pending[0]], g.pending[1..]);
    }
  }

  lemma PublishKeeps(g: Goal, delivered: bool)
    requires Stages(g) && g.stage.Publishing?
    ensures Stages(PublishHeld(g, delivered)) && Carried(PublishHeld(g, delivered)) == Carried(g)
  {
  }

  lemma CancelKeeps(g: Goal)
    requires Stages(g)
    ensures Stages(g.(cancelRequested := true)) && Carried(g.(cancelRequested := true)) == Carried(g)
  {
  }

  /** The same changes, and the same place in the goal's life as far as its stream goes. */
  predicate SameView(n: Node, n': Node, id: nat)
    requires id in n.goals && id in n'.goals
  {
    var g, g' := n.goals[id], n'.goals[id];
    && n'.io == n.io && g'.ioName == g.ioName && g'.since == g.since && g'.initial == g.initial
    && g'.stage.Done? == g.stage.Done? && g'.stage.Accepted? == g.stage.Accepted?
    && Due(n'.callback, id, g') == Due(n.callback, id, g)
  }

  predicate BetweenPublications(e: Event) {
    e.Check? || e.Get? || e.Publish?
  }

  /** What a step between publications, or a request to cancel, leaves of its goal and of the node. */
  lemma OwnStepKeepsCarried(n: Node, e: Event, id: nat)
    requires id in n.goals && Stages(n.goals[id])
    requires (BetweenPublications(e) || e.RequestCancel?) && Mover(e) == Some(id)
    ensures var n' := Step(n, e);
      && id in n'.goals
      && SameView(n, n', id)
      && Stages(n'.goals[id])
      && Carried(n'.goals[id]) == Carried(n.goals[id])
  {
    hide Stages, Carried;
    var n', g := Step(n, e), n.goals[id];
    if n' != n {
      var g' := n'.goals[id];
      assert n' == With(n, id, g');
      hide Step, With;
      match e {
        case Check(_) => CheckKeeps(g, n.active);
        case Get(_) => GetKeeps(g);
        case Publish(_, delivered) => PublishKeeps(g, delivered);
        case RequestCancel(_) => CancelKeeps(g);
      }
    }
  }

  lemma StepKeepsStages(n: Node, e: Event, id: nat)
    requires InFlight(n) && (id in n.goals ==> Stages(n.goals[id]))
    ensures id in Step(n, e).goals ==> Stages(Step(n, e).goals[id])
  {
    if BetweenPublications(e) && Mover(e) == Some(id) {
      if id in n.goals {
        OwnStepKeepsCarried(n, e, id);
      }
    }
  }

  // A goal's stream, step by step.

  /** The goal that takes the step, if it is one of the goals' own. */
  function Mover(e: Event): Option<nat> {
    match e
    case RequestCancel(i) => Some(i)
    case Register(i) => Some(i)
    case Begin(i) => Some(i)
    case Check(i) => Some(i)
    case Get(i) => Some(i)
    case Publish(i, _) => Some(i)
    case Unregister(i) => Some(i)
    case _ => None
  }

  lemma SameViewKeepsFlows(n: Node, n': Node, id: nat)
    requires id in n.goals && id in n'.goals && SameView(n, n', id) && Flows(n, id)
    requires Carried(n'.goals[id]) == Carried(n.goals[id])
    ensures Flows(n', id)
  {
    hide Due, Carried, ChangesSince;
    assert Trail(n', id) == Trail(n, id);
    assert Stream(n', id) == Stream(n, id);
  }

  lemma ChangesSinceSnoc(log: seq<Signal>, s: Signal, since: nat, name: string)
    requires since <= |log|
    ensures ChangesSince(log + [s], since, name)
         == ChangesSince(log, since, name) + (if s.ioName == name then [s] else [])
  {
    assert (log + [s])[..|log|] == log;
  }

  lemma DriverKeepsFlows(n: Node, name: string, value: Value, id: nat)
    requires Named(n.io.cache) && id in n.goals && Flows(n, id)
    ensures id in Step(n, DriverUpdates(name, value)).goals && Flows(Step(n, DriverUpdates(name, value)), id)
  {
    var n' := Step(n, DriverUpdates(name, value));
    if n' != n {
      var g, s := n.goals[id], n'.callback.signal;
      assert n'.goals == n.goals && n'.io.fired == n.io.fired + [s] && n'.io.cache == n.io.cache[name := s];
      assert s.ioName == name;
      ChangesSinceSnoc(n.io.fired, s, g.since, g.ioName);
      assert Due(n.callback, id, g) == [];
      var more := Due(n'.callback, id, g);
      assert more == if Watched(g) && s.ioName == g.ioName then [s] else [];
      hide Step, Due, ChangesSince, Carried;
      AppendAssociates(g.initial, ChangesSince(n.io.fired, g.since, g.ioName),
                       if s.ioName == g.ioName then [s] else []);
      assert Trail(n, id) == Carried(g) && Trail(n', id) == Trail(n, id) + more;
      assert Stream(n', id) == Stream(n, id) + if s.ioName == g.ioName then [s] else [];
      hide Trail, Stream;
    }
  }

  lemma RegisterKeepsFlows(n: Node, id: nat)
    requires InFlight(n) && At(n, id, Accepted) && Stages(n.goals[id]) && Flows(n, id)
    ensures Flows(Step(n, Register(id)), id)
  {
    var n' := Step(n, Register(id));
    var log, name := n.io.fired, n.goals[id].ioName;
    assert ChangesSince(log, |log|, name) == [];
    if n.callback.Entered? {
      assert ChangesSince(log[..|log| - 1], |log| - 1, name) == [];
    }
    assert Trail(n', id) == Due(n'.callback, id, n'.goals[id]);
  }

  lemma BeginEffect(n: Node, id: nat)
    requires At(n, id, Registered) && Stages(n.goals[id]) && n.goals[id].ioName in n.io.cache
    ensures var n', g := Step(n, Begin(id)), n.goals[id];
      && id in n'.goals
      && var g' := n'.goals[id];
      && n'.io == n.io && g'.ioName == g.ioName && g'.since == g.since
      && Watched(g) && Watched(g') && !g'.stage.Done?
      && Due(n'.callback, id, g') == Due(n.callback, id, g)
      && Carried(g) == g.pending && g.initial == []
      && Carried(g') == g'.held + g.pending && g'.initial == g'.held
      && (g'.held == [] || g'.held == [n.io.cache[g.ioName]])
  {
  }

  lemma BeginKeepsFlows(n: Node, id: nat)
    requires At(n, id, Registered) && Stages(n.goals[id]) && Flows(n, id)
    ensures Flows(Step(n, Begin(id)), id)
  {
    hide Stages, Step, Carried, Due, ChangesSince, Watched;
    BeginEffect(n, id);
    var n' := Step(n, Begin(id));
    var g, g' := n.goals[id], n'.goals[id];
    var due, changes := Due(n.callback, id, g), ChangesSince(n.io.fired, g.since, g.ioName);
    assert Trail(n, id) == g.pending + due;
    assert Stream(n, id) == changes;
    BeginPrepends(g'.held, g.pending, due, n.io.cache[g.ioName]);
  }

  lemma BeginPrepends(held: seq<Signal>, pending: seq<Signal>, due: seq<Signal>, cached: Signal)
    requires held == [] || held == [cached]
    requires pending + due != [] ==> Last(pending + due) == cached
    ensures held + pending + due == held + (pending + due)
    ensures held + pending + due != [] ==> Last(held + pending + due) == cached
  {
  }

  lemma RoutingKeepsView(n: Node, e: Event, id: nat)
    requires TableAgrees(n) && InFlight(n) && id in n.goals && (e.LookUp? || (e.Put? && e.id != id))
    ensures id in Step(n, e).goals && SameView(n, Step(n, e), id) && Step(n, e).goals[id] == n.goals[id]
  {
    var n' := Step(n, e);
    if n' == n {
    } else if e.Put? {
      assert id in n.callback.waiting ==> id in n.callback.waiting - {e.id} && n'.callback.Routing?;
    } else {
      var name := n.callback.signal.ioName;
      assert id in WatchersOf(n.watchers, name) <==> Listed(n, name, id);
    }
  }

  lemma PutKeepsFlows(n: Node, id: nat)
    requires InFlight(n) && id in n.goals && Flows(n, id)
    ensures id in Step(n, Put(id)).goals && Flows(Step(n, Put(id)), id)
  {
    var n', g := Step(n, Put(id)), n.goals[id];
    if n' != n {
      var s := n.callback.signal;
      assert n'.goals[id] == Enqueue(g, s) && n'.io == n.io;
      assert Due(n.callback, id, g) == [s] && Due(n'.callback, id, n'.goals[id]) == [];
      hide Step, Due, ChangesSince, InFlight;
      AppendAssociates(g.published + g.held, g.pending, [s]);
      assert Trail(n', id) == Trail(n, id);
      assert Stream(n', id) == Stream(n, id);
    }
  }

  lemma UnregisterKeepsFlows(n: Node, id: nat)
    requires id in n.goals && n.goals[id].stage.Finishing? && Flows(n, id)
    ensures Flows(Step(n, Unregister(id)), id)
  {
    var n' := Step(n, Unregister(id));
    assert Due(n'.callback, id, n'.goals[id]) <= Due(n.callback, id, n.goals[id]);
    assert Carried(n'.goals[id]) == Carried(n.goals[id]);
    assert Trail(n', id) <= Trail(n, id);
  }

  /** Other goals' steps, and those that only concern admission, leave a goal's view alone. */
  lemma OthersKeepFlows(n: Node, e: Event, id: nat)
    requires id in n.goals && Flows(n, id)
    requires e.Request? || e.SetActive? || (Mover(e).Some? && Mover(e) != Some(id))
    ensures id in Step(n, e).goals && Flows(Step(n, e), id)
  {
    var n' := Step(n, e);
    assert n'.goals[id] == n.goals[id] && n'.io == n.io && n'.callback == n.callback;
    hide Step, Flows;
    SameViewKeepsFlows(n, n', id);
  }

  lemma StepKeepsFlows(n: Node, e: Event, id: nat)
    requires TableAgrees(n) && InFlight(n) && id in n.goals && Stages(n.goals[id]) && Flows(n, id)
    ensures id in Step(n, e).goals && Flows(Step(n, e), id)
  {
    assert Named(n.io.cache);
    hide Flows, TableAgrees, InFlight, Stages, SameView, Carried;
    if e.DriverUpdates? {
      DriverKeepsFlows(n, e.name, e.value, id);
    } else if e == Put(id) {
      PutKeepsFlows(n, id);
    } else if e.LookUp? || e.Put? {
      RoutingKeepsView(n, e, id);
      SameViewKeepsFlows(n, Step(n, e), id);
    } else if Mover(e) != Some(id) {
      OthersKeepFlows(n, e, id);
    } else if BetweenPublications(e) || e.RequestCancel? {
      OwnStepKeepsCarried(n, e, id);
      SameViewKeepsFlows(n, Step(n, e), id);
    } else if Step(n, e) != n {
      match e {
        case Register(_) => RegisterKeepsFlows(n, id);
        case Begin(_) => BeginKeepsFlows(n, id);
        case Unregister(_) => UnregisterKeepsFlows(n, id);
      }
    }
  }

  lemma StepKeeps(n: Node, e: Event)
    requires Consistent(n)
    ensures Consistent(Step(n, e))
  {
    StepKeepsTable(n, e);
    StepKeepsInFlight(n, e);
    var n' := Step(n, e);
    forall id | id in n'.goals
      ensures Stages(n'.goals[id]) && Flows(n', id)
    {
      StepKeepsStages(n, e, id);
      if id in n.goals {
        StepKeepsFlows(n, e, id);
      }
    }
  }

  lemma {:induction false} RunKeeps(n: Node, events: seq<Event>)
    requires Consistent(n)
    ensures Consistent(Run(n, events))
    decreases |events|
  {
    if events != [] {
      StepKeeps(n, events[0]);
      RunKeeps(Step(n, events[0]), events[1..]);
    }
  }

  // What a client of `monitor_io` may rely on.

  /** The goal's queue is empty while it checks for its end or waits on it, and no change is on its way to it. */
  predicate AtRest(n: Node, id: nat)
    requires id in n.goals
  {
    var g := n.goals[id];
    (g.stage.AtTop? || g.stage.Waiting?) && g.pending == [] && Due(n.callback, id, g) == []
  }

  /** Convergence: at rest, a goal that has published anything has last published the signal that the driver caches. */
  lemma MonitorConverges(n: Node, events: seq<Event>, id: nat)
    requires Start(n)
    ensures var n' := Run(n, events);
      id in n'.goals && AtRest(n', id) && n'.goals[id].published != []
      ==> n'.goals[id].ioName in n'.io.cache && Last(n'.goals[id].published) == n'.io.cache[n'.goals[id].ioName]
  {
    RunKeeps(n, events);
    var n' := Run(n, events);
    if id in n'.goals && AtRest(n', id) && n'.goals[id].held == [] {
      assert Trail(n', id) == n'.goals[id].published;
    }
  }

  /** What a goal ends with: all of it in order, exact counts, and something unpublished in hand only after an error. */
  lemma PublishedIsPrefix(n: Node, id: nat)
    requires Consistent(n) && id in n.goals && !n.goals[id].stage.Accepted?
    ensures var g := n.goals[id];
      && g.published <= Carried(g) <= Stream(n, id)
      && (g.stage.Done? ==>
            && g.stage.report.changeCount == |g.published|
            && (g.stage.report.success <==> g.stage.report.message == Cancelled)
            && (g.stage.report.message == Cancelled ==> g.cancelRequested)
            && (g.held != [] <==> g.stage.report.message == Error))
  {
    assert n.goals[id].published <= Carried(n.goals[id]) <= Trail(n, id);
  }

  /** Whether event `e` ends goal `id`, and with which message. */
  function EndingOf(n: Node, e: Event, id: nat): Option<Ending>
    requires id in n.goals
  {
    var g := n.goals[id];
    if e == Check(id) && g.stage == AtTop && !n.active then Some(Deactivated)
    else if e == Check(id) && g.stage == AtTop && g.cancelRequested then Some(Cancelled)
    else if e == Publish(id, false) && g.stage == Publishing then Some(Error)
    else None
  }

  /**
   What ends a goal, and as what: the check at the top of its loop when the node is inactive or the client asked
   to cancel, in that order, or a publication that raises; nothing else, and the count is that of its publications.
   */
  lemma EndsExactly(n: Node, e: Event, id: nat)
    requires id in n.goals && Stages(n.goals[id]) && !n.goals[id].stage.Finishing?
    ensures id in Step(n, e).goals
    ensures var g, g' := n.goals[id], Step(n, e).goals[id];
      && (g'.stage.Finishing? <==> EndingOf(n, e, id).Some?)
      && (g'.stage.Finishing? ==>
            var message := EndingOf(n, e, id).value;
            g'.stage.report == Report(message == Cancelled, |g.published|, message) && g'.published == g.published)
  {
    assert n.goals[id].changeCount == |n.goals[id].published|;
    hide Stages;
    if Mover(e) != Some(id) || e.RequestCancel? {
      OtherKeepsStage(n, e, id);
      hide Step;
    } else {
      hide AddWatcher, RemoveWatcher, Due;
    }
  }

  predicate Ended(stage: Stage) {
    stage.Finishing? || stage.Done?
  }

  /** A goal that has ended keeps its report and publishes nothing more. */
  lemma EndIsFinal(n: Node, e: Event, id: nat)
    requires id in n.goals && Ended(n.goals[id].stage)
    ensures id in Step(n, e).goals
    ensures var g' := Step(n, e).goals[id];
      Ended(g'.stage) && g'.stage.report == n.goals[id].stage.report && g'.published == n.goals[id].published
  {
    hide AddWatcher, RemoveWatcher, Due;
  }

  /** Event `k` of the run ended the goal, with this report, after which it published nothing more. */
  ghost predicate EndedBy(n: Node, events: seq<Event>, k: nat, id: nat, g: Goal)
    requires k < |events| && Ended(g.stage)
  {
    var before := Run(n, events[..k]);
    && id in before.goals
    && !Ended(before.goals[id].stage)
    && match g.stage.report.message {
         case Deactivated => events[k] == Check(id) && !before.active
         case Cancelled => events[k] == Check(id) && before.active && RequestCancel(id) in events[..k]
         case Error => events[k] == Publish(id, false)
       }
    && g.stage.report.success == (g.stage.report.message == Cancelled)
    && g.stage.report.changeCount == |before.goals[id].published|
    && g.published == before.goals[id].published
  }

  /**
   Over every run, each goal that has ended was ended by one event: the check at the top of its loop, because the
   node was inactive or else because the client had asked to cancel, or a publication that raised. Its report says
   which, counts what it had published by then, and never changes.
   */
  lemma {:induction false} EveryEndHasItsCause(n: Node, events: seq<Event>, id: nat) returns (k: nat)
    requires Start(n) && id in Run(n, events).goals && Ended(Run(n, events).goals[id].stage)
    ensures k < |events| && EndedBy(n, events, k, id, Run(n, events).goals[id])
    decreases |events|
  {
    assert events != [];
    var i := |events| - 1;
    var before, e := events[..i], events[i];
    var n' := Run(n, before);
    assert events == before + [e];
    RunOneMore(n, before, e);
    RunKeeps(n, before);
    hide Run, Step, Start, Flows, TableAgrees, InFlight, EndingOf;
    assert id in n'.goals by {
      if id !in n'.goals {
        NewGoalsAreAccepted(n', e, id);
      }
    }
    if Ended(n'.goals[id].stage) {
      EndIsFinal(n', e, id);
      k := EveryEndHasItsCause(n, before, id);
      assert events[..k] == before[..k] && events[k] == before[k];
    } else {
      OnlyFinishesFirst(n', e, id);
      EndsExactly(n', e, id);
      EndingSays(n', e, id);
      var r := EveryGoalWasRequested(n, before, id);
      assert forall x :: x in before[r..] ==> x in before;
      k := i;
    }
  }

  lemma EndingSays(n: Node, e: Event, id: nat)
    requires id in n.goals && EndingOf(n, e, id).Some?
    ensures match EndingOf(n, e, id).value
            case Deactivated => e == Check(id) && !n.active
            case Cancelled => e == Check(id) && n.active && n.goals[id].cancelRequested
            case Error => e == Publish(id, false)
  {
  }

  lemma CancelStep(n: Node, e: Event, id: nat)
    requires id in n.goals
    ensures id in Step(n, e).goals
    ensures Step(n, e).goals[id].cancelRequested <==> n.goals[id].cancelRequested || e == RequestCancel(id)
  {
    hide AddWatcher, RemoveWatcher, Due;
  }

  /** A request to cancel is never forgotten, and nothing else looks like one. */
  lemma {:induction false} CancelSticks(n: Node, events: seq<Event>, id: nat)
    requires id in n.goals
    ensures id in Run(n, events).goals
    ensures Run(n, events).goals[id].cancelRequested <==> n.goals[id].cancelRequested || RequestCancel(id) in events
    decreases |events|
  {
    if events != [] {
      CancelStep(n, events[0], id);
      hide Step;
      CancelSticks(Step(n, events[0]), events[1..], id);
      assert events == [events[0]] + events[1..];
    }
  }

  /** Event `k` of the run asked for the goal, while the node was active and had the signal. */
  ghost predicate RequestedBy(n: Node, events: seq<Event>, k: nat, id: nat, g: Goal)
    requires k < |events|
  {
    var before := Run(n, events[..k]);
    events[k] == Request(id, g.ioName, g.emitInitial) && before.active && g.ioName in before.io.cache
  }

  lemma NewGoalsWereRequested(n: Node, e: Event, id: nat)
    requires id !in n.goals && id in Step(n, e).goals
    ensures var g := Step(n, e).goals[id];
      e == Request(id, g.ioName, g.emitInitial) && n.active && g.ioName in n.io.cache
  {
  }

  lemma StepKeepsRequest(n: Node, e: Event, id: nat)
    requires id in n.goals
    ensures id in Step(n, e).goals
    ensures Step(n, e).goals[id].ioName == n.goals[id].ioName
    ensures Step(n, e).goals[id].emitInitial == n.goals[id].emitInitial
  {
    hide AddWatcher, RemoveWatcher, Due;
  }

  /** Every goal was asked for, under its name, of an active node that has the signal. */
  lemma {:induction false} EveryGoalWasRequested(n: Node, events: seq<Event>, id: nat) returns (k: nat)
    requires Start(n) && id in Run(n, events).goals
    ensures k < |events| && RequestedBy(n, events, k, id, Run(n, events).goals[id])
    ensures Run(n, events).goals[id].cancelRequested ==> RequestCancel(id) in events[k..]
    decreases |events|
  {
    assert events != [];
    var i := |events| - 1;
    var before, e := events[..i], events[i];
    var n' := Run(n, before);
    assert events == before + [e];
    RunOneMore(n, before, e);
    hide Run, Start, Step;
    if id in n'.goals {
      StepKeepsRequest(n', e, id);
      CancelStep(n', e, id);
      k := EveryGoalWasRequested(n, before, id);
      assert events[..k] == before[..k] && events[k] == before[k] && events[k..] == before[k..] + [e];
    } else {
      NewGoalsWereRequested(n', e, id);
      NewGoalsAreAccepted(n', e, id);
      k := i;
    }
  }

  /**
   A cancel is heeded: from the request on, whatever else happens, the next check at the top of the goal's loop ends
   it, as cancelled while the node is active and as deactivated otherwise; and an inactive node ends it without one.
   */
  lemma CancelIsHeeded(n: Node, before: seq<Event>, after: seq<Event>, id: nat)
    requires Start(n) && id in Run(n, before).goals
    ensures var n' := Run(Run(n, before), after);
      && id in n'.goals
      && (n'.goals[id].stage == AtTop && (!n'.active || RequestCancel(id) in after) ==>
            id in Step(n', Check(id)).goals
            && Step(n', Check(id)).goals[id].stage
               == Finishing(Report(n'.active, |n'.goals[id].published|, if n'.active then Cancelled else Deactivated)))
  {
    CancelSticks(Run(n, before), after, id);
    RunKeeps(n, before);
    RunKeeps(Run(n, before), after);
    hide Run, Start;
    var n' := Run(Run(n, before), after);
    assert Stages(n'.goals[id]);
  }

  lemma NewGoalsAreAccepted(n: Node, e: Event, id: nat)
    requires id !in n.goals && id in Step(n, e).goals
    ensures Step(n, e).goals[id].stage == Accepted && !Step(n, e).goals[id].cancelRequested
  {
  }

  lemma OnlyFinishesFirst(n: Node, e: Event, id: nat)
    requires id in n.goals && !Ended(n.goals[id].stage)
    ensures id in Step(n, e).goals && !Step(n, e).goals[id].stage.Done?
  {
    hide AddWatcher, RemoveWatcher, Due;
  }

  /**
   The stream: what a goal publishes is a prefix of its snapshot, if it asked for one, followed by every
   change of its signal that was looked up since it registered, in order; while it is watched nothing of
   that is missing but what it holds, has queued or is about to be given; the reported count is the number
   of publications.
   */
  lemma MonitorStream(n: Node, events: seq<Event>, id: nat)
    requires Start(n) && id in Run(n, events).goals
    ensures var n' := Run(n, events);
      var g := n'.goals[id];
      && (!g.stage.Accepted? ==> g.published <= Stream(n', id))
      && (Watched(g) ==> Stream(n', id) == g.published + g.held + g.pending + Due(n'.callback, id, g))
      && |g.initial| <= (if g.emitInitial then 1 else 0)
      && (g.stage.Done? ==> g.stage.report.changeCount == |g.published|)
      && (g.stage.Done? ==> (g.stage.report.success <==> g.stage.report.message == Cancelled))
  {
    RunKeeps(n, events);
    if !Run(n, events).goals[id].stage.Accepted? {
      PublishedIsPrefix(Run(n, events), id);
    }
  }

  lemma EmptyTable(n: Node)
    requires TableAgrees(n) && forall id :: id in n.goals ==> n.goals[id].stage.Done?
    ensures n.watchers == map[]
  {
    forall k
      ensures WatchersOf(n.watchers, k) == {}
    {
      assert forall id :: id in WatchersOf(n.watchers, k) ==> Listed(n, k, id);
    }
    assert forall k :: k in n.watchers ==> n.watchers[k] == WatchersOf(n.watchers, k);
  }

  /** Once every goal has ended the watch table is empty again. */
  lemma NoWatcherIsLeft(n: Node, events: seq<Event>)
    requires Start(n) && forall id :: id in Run(n, events).goals ==> Run(n, events).goals[id].stage.Done?
    ensures Run(n, events).watchers == map[]
  {
    RunKeeps(n, events);
    EmptyTable(Run(n, events));
  }

  /** One turn of a goal's loop for every entry in its queue. */
  function Rounds(id: nat, k: nat): seq<Event> {
    if k == 0 then [] else [Check(id), Get(id), Publish(id, true)] + Rounds(id, k - 1)
  }

  lemma RunThree(n: Node, a: Event, b: Event, c: Event, rest: seq<Event>)
    ensures Run(n, [a, b, c] + rest) == Run(Step(Step(Step(n, a), b), c), rest)
  {
    var events := [a, b, c] + rest;
    hide Step;
    assert events[1..] == [b, c] + rest && events[1..][1..] == [c] + rest && events[1..][1..][1..] == rest;
    assert Run(n, events) == Run(Step(n, a), events[1..]);
    assert Run(Step(n, a), events[1..]) == Run(Step(Step(n, a), b), events[1..][1..]);
  }

  lemma OneRound(n: Node, id: nat, rest: seq<Event>)
    requires n.active && At(n, id, AtTop) && !n.goals[id].cancelRequested && n.goals[id].pending != []
    ensures var g := n.goals[id];
      Run(n, [Check(id), Get(id), Publish(id, true)] + rest)
      == Run(With(n, id, g.(held := [], pending := g.pending[1..], published := g.published + [g.pending[0]],
                            changeCount := g.changeCount + 1)), rest)
  {
    RunThree(n, Check(id), Get(id), Publish(id, true), rest);
    hide Run;
    var g := n.goals[id];
    var n1 := Step(n, Check(id));
    var n2 := Step(n1, Get(id));
    assert n1 == With(n, id, g.(stage := Waiting));
    assert n2.goals == n.goals[id := g.(stage := Publishing, held := [g.pending[0]], pending := g.pending[1..])];
    var n3 := Step(n2, Publish(id, true));
    assert n3.goals == n.goals[id := g.(held := [], pending := g.pending[1..],
                                        published := g.published + [g.pending[0]],
                                        changeCount := g.changeCount + 1)];
  }

  function Drained(g: Goal): Goal {
    g.(pending := [], published := g.published + g.pending, changeCount := g.changeCount + |g.pending|)
  }

  lemma {:induction false} RoundsPublish(n: Node, id: nat)
    requires n.active && At(n, id, AtTop) && !n.goals[id].cancelRequested && n.goals[id].held == []
    ensures Run(n, Rounds(id, |n.goals[id].pending|)) == With(n, id, Drained(n.goals[id]))
    decreases |n.goals[id].pending|
  {
    var g := n.goals[id];
    if g.pending == [] {
      assert Drained(g) == g && n.goals[id := g] == n.goals;
    } else {
      var g1 := g.(pending := g.pending[1..], published := g.published + [g.pending[0]],
                   changeCount := g.changeCount + 1);
      var n1 := With(n, id, g1);
      OneRound(n, id, Rounds(id, |g1.pending|));
      RoundsPublish(n1, id);
      assert [g.pending[0]] + g.pending[1..] == g.pending;
      AppendAssociates(g.published, [g.pending[0]], g.pending[1..]);
      assert Drained(g1) == Drained(g);
      hide Run;
      assert n1.goals[id := Drained(g)] == n.goals[id := Drained(g)];
    }
  }

  /** A goal that is left alone publishes all it has queued and comes to rest at the cached signal. */
  lemma QueueDrains(n: Node, id: nat)
    requires Consistent(n) && n.active && At(n, id, AtTop) && !n.goals[id].cancelRequested && n.callback.Idle?
    ensures var n' := Run(n, Rounds(id, |n.goals[id].pending|));
      && n' == With(n, id, Drained(n.goals[id]))
      && n'.goals[id].published == Stream(n, id)
      && (n'.goals[id].published != [] ==> Last(n'.goals[id].published) == n.io.cache[n.goals[id].ioName])
  {
    var g := n.goals[id];
    assert Stages(g) && Flows(n, id);
    hide Run;
    RoundsPublish(n, id);
    assert Trail(n, id) == Carried(g) == g.published + g.pending;
  }

  lemma {:induction false} RunAppend(n: Node, before: seq<Event>, after: seq<Event>)
    ensures Run(n, before + after) == Run(Run(n, before), after)
    decreases |before|
  {
    if before == [] {
      assert before + after == after;
    } else {
      assert (before + after)[1..] == before[1..] + after;
      RunAppend(Step(n, before[0]), before[1..], after);
    }
  }

  lemma RunOneMore(n: Node, before: seq<Event>, e: Event)
    ensures Run(n, before + [e]) == Step(Run(n, before), e)
  {
    RunAppend(n, before, [e]);
    var n' := Run(n, before);
    assert Run(n', [e]) == Run(Step(n', e), [e][1..]);
  }

  /** Steps that the goal's own thread does not take. */
  predicate ByOthers(events: seq<Event>, id: nat) {
    forall i :: 0 <= i < |events| ==> Mover(events[i]) != Some(id) || events[i].RequestCancel?
  }

  /** Only its own thread moves a goal from stage to stage. */
  lemma {:induction false} OthersKeepStage(n: Node, events: seq<Event>, id: nat)
    requires id in n.goals && ByOthers(events, id)
    ensures id in Run(n, events).goals && Run(n, events).goals[id].stage == n.goals[id].stage
    ensures Run(n, events).goals[id].emitInitial == n.goals[id].emitInitial
    ensures n.io.cache.Keys == Run(n, events).io.cache.Keys && Run(n, events).goals[id].ioName == n.goals[id].ioName
    decreases |events|
  {
    if events != [] {
      OtherKeepsStage(n, events[0], id);
      OthersKeepStage(Step(n, events[0]), events[1..], id);
    }
  }

  lemma OtherKeepsStage(n: Node, e: Event, id: nat)
    requires id in n.goals && (Mover(e) != Some(id) || e.RequestCancel?)
    ensures id in Step(n, e).goals && Step(n, e).goals[id].stage == n.goals[id].stage
    ensures Step(n, e).goals[id].emitInitial == n.goals[id].emitInitial
    ensures n.io.cache.Keys == Step(n, e).io.cache.Keys && Step(n, e).goals[id].ioName == n.goals[id].ioName
  {
  }
}
