/**
 The node's watch table and the goals' entries as objects that the callbacks and the goals' threads update in
 place, proved against the step system.
 */
module MonitorNode {
  import opened ChangeLog
  import opened MonitorGoals
  import opened Sequences
  import opened Wrappers

  /** A goal's entry, with the locals of the thread that serves it. */
  class MonitorEntry {
    const handle: nat
    const ioName: string
    const emitInitial: bool
    var cancelRequested: bool
    var stage: Stage
    var pending: seq<Signal>
    var held: seq<Signal>
    var changeCount: nat
    /** What the goal handle has sent. */
    var published: seq<Signal>
    ghost var initial: seq<Signal>
    ghost var since: nat

    ghost function State(): Goal
      reads this
    {
      Goal(ioName, emitInitial, cancelRequested, stage, pending, held, published, changeCount, initial, since)
    }

    constructor (handle: nat, ioName: string, emitInitial: bool)
      ensures this.handle == handle
      ensures State() == Goal(ioName, emitInitial, false, Accepted, [], [], [], 0, [], 0)
    {
      this.handle, this.ioName, this.emitInitial := handle, ioName, emitInitial;
      cancelRequested, stage, pending, held, changeCount, published := false, Accepted, [], [], 0, [];
      initial, since := [], 0;
    }

    method Put(signal: Signal)
      modifies this
      ensures State() == Enqueue(old(State()), signal)
    {
      pending := pending + [signal];
    }

    method Finish(message: Ending)
      modifies this
      ensures State() == MonitorGoals.Finish(old(State()), message)
    {
      stage := Finishing(Report(message == Cancelled, changeCount, message));
    }

    method Begin(snapshot: Signal)
      modifies this
      ensures State() == BeginWith(old(State()), snapshot)
    {
      if emitInitial {
        held, initial, stage := [snapshot], [snapshot], Publishing;
      } else {
        stage := AtTop;
      }
    }

    method Check(active: bool)
      modifies this
      ensures State() == CheckEnd(old(State()), active)
    {
      if !active {
        Finish(Deactivated);
      } else if cancelRequested {
        Finish(Cancelled);
      } else {
        stage := Waiting;
      }
    }

    method Get()
      modifies this
      ensures State() == GetNext(old(State()))
    {
      if pending == [] {
        stage := AtTop;
      } else {
        held, pending, stage := [pending[0]], pending[1..], Publishing;
      }
    }

    method Publish(delivered: bool)
      modifies this
      ensures State() == PublishHeld(old(State()), delivered)
    {
      if !delivered {
        Finish(Error);
      } else {
        published, held, changeCount, stage := published + held, [], changeCount + 1, AtTop;
      }
    }
  }

  ghost function Handles(entries: set<MonitorEntry>): set<nat> {
    set e | e in entries :: e.handle
  }

  /** The locals of the driver's change callback. */
  datatype Locals = Resting | Fired(signal: Signal) | Handing(signal: Signal, entries: set<MonitorEntry>)

  class GpioMonitor {
    var io: Io
    var active: bool
    var watchers: map<string, set<MonitorEntry>>
    var callback: Locals
    /** The accepted goals, by handle. */
    var goals: map<nat, MonitorEntry>

    ghost predicate Known(entries: set<MonitorEntry>)
      reads this
    {
      forall e :: e in entries ==> e.handle in goals && goals[e.handle] == e
    }

    ghost predicate Valid()
      reads this
    {
      && (forall id :: id in goals ==> goals[id].handle == id)
      && (forall k :: k in watchers ==> Known(watchers[k]))
      && (callback.Handing? ==> Known(callback.entries))
    }

    ghost function Callbacks(): Callback
      reads this
    {
      match callback
      case Resting => Idle
      case Fired(signal) => Entered(signal)
      case Handing(signal, entries) => Routing(signal, Handles(entries))
    }

    ghost function Table(): map<string, set<nat>>
      reads this
    {
      map k | k in watchers :: Handles(watchers[k])
    }

    ghost function Goals(): map<nat, Goal>
      reads this, goals.Values
    {
      map id | id in goals :: goals[id].State()
    }

    ghost function Model(): Node
      reads this, goals.Values
    {
      Node(io, active, Table(), Callbacks(), Goals())
    }

    constructor (io: Io)
      requires Named(io.cache)
      ensures Valid() && Start(Model()) && this.io == io
    {
      this.io, active, watchers, callback, goals := io, false, map[], Resting, map[];
      new;
      assert Table() == map[] && Goals() == map[];
    }

    method RegisterWatcher(entry: MonitorEntry)
      requires Valid() && entry.handle in goals && goals[entry.handle] == entry
      modifies this`watchers
      ensures watchers == AddWatcher(old(watchers), entry.ioName, entry)
      ensures Valid() && Table() == AddWatcher(old(Table()), entry.ioName, entry.handle)
    {
      ghost var before := WatchersOf(watchers, entry.ioName);
      if entry.ioName !in watchers {
        watchers := watchers[entry.ioName := {}];
      }
      watchers := watchers[entry.ioName := watchers[entry.ioName] + {entry}];
      assert Handles(before + {entry}) == Handles(before) + {entry.handle};
      assert entry.ioName !in old(watchers) ==> Handles(before) == {};
    }

    method UnregisterWatcher(entry: MonitorEntry)
      requires Valid() && entry.handle in goals && goals[entry.handle] == entry
      modifies this`watchers
      ensures watchers == RemoveWatcher(old(watchers), entry.ioName, entry)
      ensures Valid() && Table() == RemoveWatcher(old(Table()), entry.ioName, entry.handle)
    {
      if entry.ioName in watchers {
        ghost var before := watchers[entry.ioName];
        watchers := watchers[entry.ioName := watchers[entry.ioName] - {entry}];
        HandlesWithout(before, entry);
        if watchers[entry.ioName] == {} {
          watchers := watchers - {entry.ioName};
        }
      }
    }

    /** Entries are told apart by their handles. */
    lemma HandlesWithout(entries: set<MonitorEntry>, entry: MonitorEntry)
      requires Known(entries) && Known({entry})
      ensures Handles(entries - {entry}) == Handles(entries) - {entry.handle}
      ensures entries - {entry} == {} <==> Handles(entries - {entry}) == {}
    {
      assert forall e :: e in entries - {entry} ==> e.handle in Handles(entries - {entry});
      forall h | h in Handles(entries) - {entry.handle}
        ensures h in Handles(entries - {entry})
      {
        var e :| e in entries && e.handle == h;
        assert e in entries - {entry};
      }
      forall e | e in entries - {entry}
        ensures e.handle != entry.handle
      {
        assert entry in {entry};
      }
    }

    method Accept(id: nat, name: string, emitInitial: bool)
      requires Valid()
      modifies this`goals
      ensures Valid() && Model() == Step(old(Model()), Request(id, name, emitInitial))
      ensures id in goals <==> id in old(goals) || (active && name in io.cache)
      ensures forall j :: j in old(goals) ==> j in goals && goals[j] == old(goals)[j]
      ensures fresh(goals.Values - old(goals.Values))
    {
      if id !in goals && active && name in io.cache {
        var entry := new MonitorEntry(id, name, emitInitial);
        goals := goals[id := entry];
        assert Goals() == old(Goals())[id := entry.State()];
      }
    }

    method UpdateDriver(name: string, value: Value)
      requires Valid()
      modifies this`io, this`callback
      ensures Valid() && Model() == Step(old(Model()), DriverUpdates(name, value))
    {
      if callback.Resting? && name in io.cache && io.cache[name].state != value {
        var updated := io.cache[name].(state := value);
        io := Io(io.cache[name := updated], io.fired + [updated]);
        callback := Fired(updated);
      }
    }

    /** The locked part of the change callback. */
    method LookUpWatchers()
      requires Valid()
      modifies this`callback
      ensures Valid() && Model() == Step(old(Model()), LookUp)
      ensures old(callback).Fired? ==>
                var entries := WatchersOf(watchers, old(callback).signal.ioName);
                callback == if entries == {} then Resting else Handing(old(callback).signal, entries)
    {
      if callback.Fired? {
        var entries := WatchersOf(watchers, callback.signal.ioName);
        assert forall e :: e in entries ==> e.handle in Handles(entries);
        callback := if entries == {} then Resting else Handing(callback.signal, entries);
      }
    }

    /** One `put` of the change callback, after the lock. */
    method HandTo(entry: MonitorEntry)
      requires Valid() && callback.Handing? && entry in callback.entries
      modifies this`callback, entry
      ensures Valid() && Model() == Step(old(Model()), MonitorGoals.Event.Put(entry.handle))
      ensures entry.State() == Enqueue(old(entry.State()), old(callback).signal)
      ensures callback == if old(callback).entries == {entry} then Resting
                          else Handing(old(callback).signal, old(callback).entries - {entry})
    {
      var rest := callback.entries - {entry};
      HandlesWithout(callback.entries, entry);
      assert entry.handle in Handles(callback.entries);
      PutIsDelivery(Model(), entry.handle);
      hide Step, Handles, WatchersOf;
      entry.Put(callback.signal);
      callback := if rest == {} then Resting else callback.(entries := rest);
      assert Goals() == old(Goals())[entry.handle := entry.State()];
    }

    method PutInto(id: nat)
      requires Valid()
      modifies this`callback, goals.Values
      ensures Valid() && Model() == Step(old(Model()), MonitorGoals.Event.Put(id))
    {
      if callback.Handing? {
        if entry :| entry in callback.entries && entry.handle == id {
          HandTo(entry);
        }
      }
    }

    method Activate(on: bool)
      requires Valid()
      modifies this`active
      ensures Valid() && Model() == Step(old(Model()), SetActive(on))
    {
      active := on;
    }

    method RegisterGoal(id: nat)
      requires Valid()
      modifies this`watchers, goals.Values
      ensures Valid() && Model() == Step(old(Model()), Register(id))
    {
      if id in goals && goals[id].stage == Accepted {
        var entry := goals[id];
        entry.since := RoutedSoFar(Model());
        entry.stage := Registered;
        RegisterWatcher(entry);
        hide Handles, AddWatcher;
        assert Goals() == old(Goals())[id := entry.State()];
      }
    }

    method UnregisterGoal(id: nat)
      requires Valid()
      modifies this`watchers, goals.Values
      ensures Valid() && Model() == Step(old(Model()), Unregister(id))
    {
      if id in goals && goals[id].stage.Finishing? {
        var entry := goals[id];
        entry.stage := Done(entry.stage.report);
        UnregisterWatcher(entry);
        hide Handles, RemoveWatcher;
        assert Goals() == old(Goals())[id := entry.State()];
      }
    }

    /** A client's request to cancel. */
    method CancelGoal(id: nat)
      requires Valid()
      modifies goals.Values
      ensures Valid() && Model() == Step(old(Model()), RequestCancel(id))
    {
      hide Handles;
      if id in goals {
        goals[id].cancelRequested := true;
        assert Goals() == old(Goals())[id := goals[id].State()];
      }
    }

    /** The initial snapshot of one goal. */
    method BeginGoal(id: nat)
      requires Valid()
      modifies goals.Values
      ensures Valid() && Model() == Step(old(Model()), Begin(id))
    {
      hide Handles, BeginWith;
      if id in goals && goals[id].stage == Registered && goals[id].ioName in io.cache {
        goals[id].Begin(io.cache[goals[id].ioName]);
        assert Goals() == old(Goals())[id := goals[id].State()];
      }
    }

    /** The steps of one goal's loop. */
    method ActOnEntry(e: MonitorGoals.Event)
      requires Valid() && BetweenPublications(e)
      modifies goals.Values
      ensures Valid() && Model() == Step(old(Model()), e)
    {
      hide Handles, CheckEnd, GetNext, PublishHeld;
      var id := Mover(e).value;
      if id !in goals {
        return;
      }
      var entry := goals[id];
      match e {
        case Check(_) =>
          if entry.stage == AtTop {
            entry.Check(active);
          }
        case Get(_) =>
          if entry.stage == Waiting {
            entry.Get();
          }
        case Publish(_, delivered) =>
          if entry.stage == Publishing {
            entry.Publish(delivered);
          }
      }
      assert Goals() == old(Goals())[id := entry.State()];
    }

    /** Any event, acted out on the objects. */
    method Act(e: MonitorGoals.Event)
      requires Valid()
      modifies this, goals.Values
      ensures Valid() && Model() == Step(old(Model()), e)
      ensures forall j :: j in old(goals) ==> j in goals && goals[j] == old(goals)[j]
      ensures fresh(goals.Values - old(goals.Values))
    {
      hide Step;
      match e {
        case Request(id, name, emitInitial) => Accept(id, name, emitInitial);
        case SetActive(on) => Activate(on);
        case DriverUpdates(name, value) => UpdateDriver(name, value);
        case LookUp => LookUpWatchers();
        case Put(id) => PutInto(id);
        case Register(id) => RegisterGoal(id);
        case Unregister(id) => UnregisterGoal(id);
        case RequestCancel(id) => CancelGoal(id);
        case Begin(id) => BeginGoal(id);
        case _ => ActOnEntry(e);
      }
    }

    /** Any interleaving, acted out on the objects. */
    method Drive(events: seq<MonitorGoals.Event>)
      requires Valid()
      modifies this, goals.Values
      ensures Valid() && Model() == Run(old(Model()), events)
      ensures forall j :: j in old(goals) ==> j in goals && goals[j] == old(goals)[j]
      ensures fresh(goals.Values - old(goals.Values))
    {
      hide Step;
      ghost var first := Model();
      for i := 0 to |events|
        invariant Valid() && Model() == Run(first, events[..i])
        invariant forall j :: j in old(goals) ==> j in goals && goals[j] == old(goals)[j]
        invariant fresh(goals.Values - old(goals.Values))
      {
        RunOneMore(first, events[..i], events[i]);
        assert events[..i + 1] == events[..i] + [events[i]];
        Act(events[i]);
      }
      assert events[..|events|] == events;
    }

    /**
     The change callback from its look-up to its return: every entry watching the signal gets the change once, at
     the end of its queue, and no other entry is touched.
     */
    method OnDriverChange() returns (ghost trace: seq<MonitorGoals.Event>)
      requires Valid() && callback.Fired?
      modifies this`callback, WatchersOf(watchers, callback.signal.ioName)
      ensures Valid() && callback == Resting && Model() == Run(old(Model()), trace)
      ensures forall e :: e in old(WatchersOf(watchers, callback.signal.ioName)) ==>
                            e.State() == Enqueue(old(e.State()), old(callback).signal)
    {
      hide Step, Model, Valid;
      ghost var first := Model();
      LookUpWatchers();
      assert Run(first, [LookUp]) == Run(Step(first, LookUp), [LookUp][1..]);
      trace := HandToAll(first, [LookUp]);
    }

    /** The loop over the entries that the callback found. */
    method HandToAll(ghost first: Node, ghost trace: seq<MonitorGoals.Event>)
      returns (ghost trace': seq<MonitorGoals.Event>)
      requires Valid() && Model() == Run(first, trace) && !callback.Fired?
      requires callback.Handing? ==> callback.entries != {}
      modifies this`callback, if callback.Handing? then callback.entries else {}
      ensures Valid() && callback == Resting && Model() == Run(first, trace')
      ensures old(callback).Handing? ==>
                forall e :: e in old(callback).entries ==> e.State() == Enqueue(old(e.State()), old(callback).signal)
    {
      hide Step, Model, Valid, Enqueue;
      trace' := trace;
      while callback.Handing?
        invariant Valid() && Model() == Run(first, trace') && !callback.Fired?
        invariant callback.Handing? ==>
                    && old(callback).Handing? && callback.signal == old(callback).signal
                    && {} != callback.entries <= old(callback).entries
        invariant old(callback).Handing? ==> forall e :: e in old(callback).entries ==>
                    e.State() == if callback.Handing? && e in callback.entries then old(e.State())
                                 else Enqueue(old(e.State()), old(callback).signal)
        decreases if callback.Handing? then |callback.entries| + 1 else 0
      {
        var entry :| entry in callback.entries;
        RunOneMore(first, trace', MonitorGoals.Event.Put(entry.handle));
        trace' := trace' + [MonitorGoals.Event.Put(entry.handle)];
        HandTo(entry);
      }
    }

    /**
     A whole goal on its own thread: register, snapshot, drain, and on every way out unregister. `start`, the
     turns and `last` say what everybody else does in between, and whether the publications go through.
     */
    method ExecuteMonitor(id: nat, start: Turn, turns: seq<Turn>, last: seq<MonitorGoals.Event>)
      returns (report: Option<Report>, used: nat, ghost trace: seq<MonitorGoals.Event>)
      requires Valid() && Consistent(Model()) && At(Model(), id, Accepted)
      requires ByOthersOnly(start, id) && ByOthers(last, id)
      requires forall i :: 0 <= i < |turns| ==> ByOthersOnly(turns[i], id)
      modifies this, goals.Values
      ensures Valid() && Model() == Run(old(Model()), trace) && Consistent(Model())
      ensures forall j :: j in old(goals) ==> j in goals && goals[j] == old(goals)[j]
      ensures fresh(goals.Values - old(goals.Values))
      ensures goals[id].published + goals[id].held + goals[id].pending <= Stream(Model(), id)
      ensures used <= |turns|
      ensures report.None? ==> goals[id].stage == AtTop && used == |turns|
      ensures report.Some? ==>
                && goals[id].stage == Done(report.value)
                && report.value.changeCount == |goals[id].published|
                && (report.value.success <==> report.value.message == Cancelled)
                && (report.value.message == Cancelled ==> goals[id].cancelRequested)
                && (report.value.message == Error <==> goals[id].held != [])
                && forall k :: k in watchers ==> goals[id] !in watchers[k]
    {
      hide Step, Consistent, Model, Valid, Run, ByOthers;
      ghost var first := Model();
      GoalIsEntry(id);
      trace := StartMonitor(first, id, start);
      trace, used := DrainQueue(first, trace, id, turns);
      if goals[id].stage == AtTop {
        report := None;
      } else {
        report := Some(goals[id].stage.report);
        trace := Go(first, trace, id, last, Unregister(id));
      }
      RunKeeps(first, trace);
      StageOf(id);
      PublishedIsPrefix(Model(), id);
      if report.Some? {
        DoneIsUnwatched(id);
      }
    }

    /** Up to the loop: register, read the snapshot, publish it if the client asked for it. */
    method StartMonitor(ghost first: Node, id: nat, start: Turn) returns (ghost trace: seq<MonitorGoals.Event>)
      requires Valid() && Consistent(first) && Model() == first
      requires id in goals && goals[id].stage == Accepted && ByOthersOnly(start, id)
      modifies this, goals.Values
      ensures Valid() && Model() == Run(first, trace)
      ensures Kept(old(goals)) && fresh(goals.Values - old(goals.Values))
      ensures goals[id].stage == AtTop || goals[id].stage.Finishing?
    {
      hide Step, Consistent, Model, Valid;
      assert Run(first, []) == first;
      trace := Go(first, [], id, [], Register(id));
      hide Run, ByOthers;
      trace := Go(first, trace, id, start.before, Begin(id));
      if goals[id].stage == Publishing {
        trace := Go(first, trace, id, start.between, MonitorGoals.Event.Publish(id, start.delivered));
      }
    }

    /** The `while True` loop: it stops at a finished goal, or when the outside grants it no more turns. */
    method DrainQueue(ghost first: Node, ghost trace: seq<MonitorGoals.Event>, id: nat, turns: seq<Turn>)
      returns (ghost trace': seq<MonitorGoals.Event>, used: nat)
      requires Valid() && Consistent(first) && Model() == Run(first, trace)
      requires id in goals && (goals[id].stage == AtTop || goals[id].stage.Finishing?)
      requires forall i :: 0 <= i < |turns| ==> ByOthersOnly(turns[i], id)
      modifies this, goals.Values
      ensures Valid() && Model() == Run(first, trace')
      ensures Kept(old(goals)) && fresh(goals.Values - old(goals.Values))
      ensures used <= |turns|
      ensures goals[id].stage == AtTop || goals[id].stage.Finishing?
      ensures used < |turns| ==> goals[id].stage.Finishing?
    {
      hide Step, Consistent, Model, Valid, Run, ByOthersOnly;
      trace', used := trace, 0;
      while used < |turns| && goals[id].stage == AtTop
        invariant Valid() && Model() == Run(first, trace') && Kept(old(goals)) && id in goals
        invariant fresh(goals.Values - old(goals.Values))
        invariant goals[id].stage == AtTop || goals[id].stage.Finishing?
        invariant used <= |turns|
        decreases |turns| - used
      {
        trace' := TakeTurn(first, trace', id, turns[used]);
        used := used + 1;
      }
    }

    /** Goals stay the objects they are. */
    ghost predicate Kept(before: map<nat, MonitorEntry>)
      reads this
    {
      forall j :: j in before ==> j in goals && goals[j] == before[j]
    }

    lemma DoneIsUnwatched(id: nat)
      requires Valid() && Consistent(Model()) && id in goals && goals[id].stage.Done?
      ensures forall k :: k in watchers ==> goals[id] !in watchers[k]
    {
      StageOf(id);
      forall k, e | k in watchers && e in watchers[k]
        ensures e.handle != id
      {
        assert e.handle in Handles(watchers[k]);
        assert Listed(Model(), k, e.handle);
      }
    }

    lemma GoalIsEntry(id: nat)
      requires id in Model().goals
      ensures id in goals && Model().goals[id] == goals[id].State()
    {
    }

    lemma StageOf(id: nat)
      requires id in goals
      ensures id in Model().goals && Model().goals[id] == goals[id].State()
    {
    }

    /** The others' events and then a step of the goal's thread, noted in the trace. */
    method Go(ghost first: Node, ghost trace: seq<MonitorGoals.Event>, id: nat, others: seq<MonitorGoals.Event>,
              e: MonitorGoals.Event)
      returns (ghost trace': seq<MonitorGoals.Event>)
      requires Valid() && Consistent(first) && Model() == Run(first, trace)
      requires id in goals && ByOthers(others, id) && IsNext(id, goals[id].stage, e)
      modifies this, goals.Values
      ensures Valid() && Model() == Run(first, trace')
      ensures Kept(old(goals)) && fresh(goals.Values - old(goals.Values))
      ensures LeadsTo(old(goals[id].stage), goals[id].stage)
    {
      hide Step, Model, Valid, IsNext, LeadsTo;
      StageOf(id);
      OthersKeepStage(Model(), others, id);
      RunAppend(first, trace, others);
      Drive(others);
      RunKeeps(first, trace + others);
      StepLeadsOn(Model(), id, e);
      RunOneMore(first, trace + others, e);
      trace' := trace + others + [e];
      Act(e);
      StageOf(id);
    }

    /** One turn of the loop: check for the end, wait on the queue, publish what came. */
    method TakeTurn(ghost first: Node, ghost trace: seq<MonitorGoals.Event>, id: nat, turn: Turn)
      returns (ghost trace': seq<MonitorGoals.Event>)
      requires Valid() && Consistent(first) && Model() == Run(first, trace)
      requires id in goals && goals[id].stage == AtTop && ByOthersOnly(turn, id)
      modifies this, goals.Values
      ensures Valid() && Model() == Run(first, trace')
      ensures Kept(old(goals)) && fresh(goals.Values - old(goals.Values))
      ensures goals[id].stage == AtTop || goals[id].stage.Finishing?
    {
      hide Model, Valid, Run, Consistent, ByOthers;
      trace' := Go(first, trace, id, turn.before, Check(id));
      if goals[id].stage == Waiting {
        trace' := Go(first, trace', id, turn.between, Get(id));
        if goals[id].stage == Publishing {
          trace' := Go(first, trace', id, turn.after, MonitorGoals.Event.Publish(id, turn.delivered));
        }
      }
    }

    /**
     Any interleaving from the configured start: at rest, a goal that has published anything has last published
     the cached signal.
     */
    method RunFromStart(events: seq<MonitorGoals.Event>)
      requires Valid() && Start(Model())
      modifies this, goals.Values
      ensures Valid() && Model() == Run(old(Model()), events)
      ensures forall id :: id in goals && AtRest(Model(), id) && goals[id].published != [] ==>
                             && goals[id].ioName in io.cache
                             && Last(goals[id].published) == io.cache[goals[id].ioName]
    {
      ghost var first := Model();
      Drive(events);
      forall id | id in goals && AtRest(Model(), id) && goals[id].published != []
        ensures goals[id].ioName in io.cache && Last(goals[id].published) == io.cache[goals[id].ioName]
      {
        MonitorConverges(first, events, id);
        assert Model().goals[id] == goals[id].State();
      }
    }
  }

  lemma PutIsDelivery(n: Node, id: nat)
    requires n.callback.Routing? && id in n.callback.waiting && id in n.goals
    ensures var rest := n.callback.waiting - {id};
      Step(n, MonitorGoals.Event.Put(id))
      == n.(callback := if rest == {} then Idle else Routing(n.callback.signal, rest),
            goals := n.goals[id := Enqueue(n.goals[id], n.callback.signal)])
  {
  }

  // Where a goal's own steps lead.

  /** The step that a goal's thread takes from a stage. */
  predicate IsNext(id: nat, stage: Stage, e: MonitorGoals.Event) {
    Mover(e) == Some(id)
    && match stage
       case Accepted => e.Register?
       case Registered => e.Begin?
       case AtTop => e.Check?
       case Waiting => e.Get?
       case Publishing => e.Publish?
       case Finishing(_) => e.Unregister?
       case Done(_) => false
  }

  /** The stages that may follow a stage. */
  predicate LeadsTo(stage: Stage, stage': Stage) {
    match stage
    case Accepted => stage' == Registered
    case Registered => stage' == Publishing || stage' == AtTop
    case AtTop => stage' == Waiting || stage'.Finishing?
    case Waiting => stage' == Publishing || stage' == AtTop
    case Publishing => stage' == AtTop || stage'.Finishing?
    case Finishing(report) => stage' == Done(report)
    case Done(_) => false
  }

  lemma StepLeadsOn(n: Node, id: nat, e: MonitorGoals.Event)
    requires Consistent(n) && id in n.goals && IsNext(id, n.goals[id].stage, e)
    ensures id in Step(n, e).goals && LeadsTo(n.goals[id].stage, Step(n, e).goals[id].stage)
  {
    assert n.goals[id].ioName in n.io.cache;
  }

  /** One turn of a goal's loop: what the others do before the check, the `get` and the publication. */
  datatype Turn = Turn(before: seq<MonitorGoals.Event>, between: seq<MonitorGoals.Event>,
                       after: seq<MonitorGoals.Event>, delivered: bool)

  predicate ByOthersOnly(t: Turn, id: nat) {
    ByOthers(t.before, id) && ByOthers(t.between, id) && ByOthers(t.after, id)
  }
}
