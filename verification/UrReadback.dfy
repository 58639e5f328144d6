/** What a UR driver's cache and callbacks mean, for every well-formed mapping and every run. */
module UrReadback {
  import opened ChangeLog
  import opened Sequences
  import opened UrConfig
  import opened UrIoDriver
  import opened UrMessages

  /** Whatever the driver is asked to do once it is configured. */
  datatype Operation =
    | Message(msg: IoStates)
    | WriteDigital(name: string, on: bool)
    | WriteAnalog(name: string, state: real)
    | SetActivated(on: bool)

  datatype Driver = Driver(io: Io, activated: bool)

  /** The effect of an operation on the cache: readback, and tool-voltage writes while activated. */
  function Operate(m: UrMapping, d: Driver, op: Operation): Driver {
    match op
    case Message(msg) => d.(io := UpdateAll(d.io, MessageWrites(m, msg)))
    case WriteDigital(_, _) => d
    case WriteAnalog(name, state) =>
      if d.activated && exists e :: e in m.toolVoltage && e.ioName == name
      then d.(io := Update(d.io, name, Float(state))) else d
    case SetActivated(on) => d.(activated := on)
  }

  function OperateAll(m: UrMapping, d: Driver, ops: seq<Operation>): Driver
    decreases |ops|
  {
    if ops == [] then d else OperateAll(m, Operate(m, d, ops[0]), ops[1..])
  }

  /** The tool voltage is such a name, in every well-formed mapping. */
  lemma MessagesLeaveVoltageAlone(m: UrMapping, io: Io, msg: IoStates, e: VoltageEntry)
    requires WellFormed(m) && e in m.toolVoltage
    requires Named(io.cache) && e.ioName in io.cache
    ensures var io' := UpdateAll(io, MessageWrites(m, msg));
      && e.ioName in io'.cache
      && io'.cache[e.ioName] == io.cache[e.ioName]
      && StatesOf(io'.fired, e.ioName) == StatesOf(io.fired, e.ioName)
  {
    VoltageHasNoPin(m, e.ioName);
    MessagesLeaveUnpinnedAlone(m, io, msg, e.ioName);
  }

  /** The cache that `Configure` seeds is named, typed and complete. */
  lemma SeededCacheIsSound(m: UrMapping, cache: map<string, Signal>)
    requires CacheHolds(cache, SignalsOf(m))
    ensures Named(cache) && WellTyped(cache)
    ensures forall c, e :: e in EntriesOf(m, c) ==> e.ioName in cache && cache[e.ioName] == SignalOf(c, e)
    ensures forall e :: e in m.toolVoltage ==> e.ioName in cache && cache[e.ioName] == VoltageSignal(e)
  {
    forall n | n in cache
      ensures Fits(cache[n].kind, cache[n].state)
    {
      SignalsFit(m, cache[n]);
    }
    forall c, e | e in EntriesOf(m, c)
      ensures e.ioName in cache && cache[e.ioName] == SignalOf(c, e)
    {
      var i :| 0 <= i < |EntriesOf(m, c)| && EntriesOf(m, c)[i] == e;
      PositionFinds(Parts(m), IndexOf(c), i);
      assert Part(m, IndexOf(c))[i] == SignalOf(c, e);
    }
    forall e | e in m.toolVoltage
      ensures e.ioName in cache && cache[e.ioName] == VoltageSignal(e)
    {
      var i :| 0 <= i < |m.toolVoltage| && m.toolVoltage[i] == e;
      PositionFinds(Parts(m), 5, i);
      assert Part(m, 5)[i] == VoltageSignal(e);
    }
  }

  lemma SignalsFit(m: UrMapping, s: Signal)
    requires s in SignalsOf(m)
    ensures Fits(s.kind, s.state)
  {
    var k, i := FlattenIndex(Parts(m), s);
    assert Part(m, k)[i] == s;
  }

  lemma {:induction false} FlattenIndex<T>(parts: seq<seq<T>>, x: T) returns (k: nat, i: nat)
    requires x in Flatten(parts)
    ensures k < |parts| && i < |parts[k]| && parts[k][i] == x
  {
    if x in parts[0] {
      k := 0;
      i :| 0 <= i < |parts[0]| && parts[0][i] == x;
    } else {
      k, i := FlattenIndex(parts[1..], x);
      k := k + 1;
    }
  }

  lemma ReportFits(m: UrMapping, msg: IoStates, c: Category, e: Entry, report: PinReport)
    requires e in EntriesOf(m, c) && report in ReportsOf(msg, c)
    ensures Fits(e.kind, report.value) && SignalOf(c, e).kind == e.kind
  {
  }

  /** Messages write values of the kind that the mapping gives the name. */
  lemma MessageWritesFit(m: UrMapping, cache: map<string, Signal>, msg: IoStates)
    requires WellFormed(m) && CacheHolds(cache, SignalsOf(m))
    ensures forall i :: 0 <= i < |MessageWrites(m, msg)| && MessageWrites(m, msg)[i].ioName in cache ==>
                          Fits(cache[MessageWrites(m, msg)[i].ioName].kind, MessageWrites(m, msg)[i].value)
  {
    SeededCacheIsSound(m, cache);
    hide WellFormed, CacheHolds, Named, WellTyped, WritesFrom, PinMap, EntriesOf, ReportsOf, SignalsOf;
    forall w | w in MessageWrites(m, msg) && w.ioName in cache
      ensures Fits(cache[w.ioName].kind, w.value)
    {
      var k, i := FlattenIndex(CategoryWrites(m, msg), w);
      var c := CATEGORIES[k];
      var report := WriteHasReport(PinMap(EntriesOf(m, c)), ReportsOf(msg, c), w);
      var j := PinMapFinds(EntriesOf(m, c), report.pin);
      ReportFits(m, msg, c, EntriesOf(m, c)[j], report);
    }
  }

  lemma {:induction false} WriteHasReport(pins: map<nat, string>, reports: seq<PinReport>, w: Write)
    returns (report: PinReport)
    requires w in WritesFrom(pins, reports)
    ensures report in reports && report.pin in pins && pins[report.pin] == w.ioName && report.value == w.value
    decreases |reports|
  {
    var n := |reports| - 1;
    if w in WritesFrom(pins, reports[..n]) {
      report := WriteHasReport(pins, reports[..n], w);
    } else {
      report := reports[n];
    }
  }

  lemma OperateKeepsSound(m: UrMapping, base: map<string, Signal>, d: Driver, op: Operation)
    requires WellFormed(m) && CacheHolds(base, SignalsOf(m)) && Sound(base, d.io)
    ensures Sound(base, Operate(m, d, op).io)
  {
    match op
    case Message(msg) =>
      MessageWritesFit(m, base, msg);
      UpdateAllKeeps(base, d.io, MessageWrites(m, msg));
    case WriteAnalog(name, state) =>
      SeededCacheIsSound(m, base);
      if Operate(m, d, op) != d {
        UpdateAllKeeps(base, d.io, [Write(name, Float(state))]);
        UpdateAllSnoc(d.io, [], Write(name, Float(state)));
        assert [] + [Write(name, Float(state))] == [Write(name, Float(state))];
      }
    case _ =>
  }

  /**
   Change-log replay: over every run of messages and writes on a configured driver, replaying the fired
   callbacks over the seeded cache gives the cache, every callback is a genuine change of its signal, and
   names, directions, kinds and defaults never move.
   */
  lemma {:induction false} ReplayGivesCache(m: UrMapping, base: map<string, Signal>, d: Driver, ops: seq<Operation>)
    requires WellFormed(m) && CacheHolds(base, SignalsOf(m)) && Sound(base, d.io)
    ensures Sound(base, OperateAll(m, d, ops).io)
    decreases |ops|
  {
    if ops != [] {
      OperateKeepsSound(m, base, d, ops[0]);
      ReplayGivesCache(m, base, Operate(m, d, ops[0]), ops[1..]);
    }
  }

  /** A freshly configured driver is sound, so every run of it is. */
  lemma ConfiguredDriverIsSound(m: UrMapping, base: map<string, Signal>)
    requires CacheHolds(base, SignalsOf(m))
    ensures Sound(base, Io(base, []))
  {
    SeededCacheIsSound(m, base);
    assert forall n :: n in base ==> base[n] == base[n].(state := base[n].state);
  }

  /** A name is written to the pin it is read from, and only outputs can be written at all. */
  lemma WritesGoWhereReadsComeFrom(m: UrMapping, readIndex: map<Category, map<nat, string>>,
                                   writeIndex: map<string, Target>, name: string)
    requires WellFormed(m) && Indexed(m, readIndex, writeIndex)
    ensures name in writeIndex && writeIndex[name].ToPin? ==>
              var t := writeIndex[name];
              && DirectionOf(t.category) == OUT
              && ReadIndexed(m, readIndex, t.category)
              && t.pin in readIndex[t.category] && readIndex[t.category][t.pin] == name
    ensures forall c, pin :: pin in PinMap(EntriesOf(m, c)) && PinMap(EntriesOf(m, c))[pin] == name ==>
              && (name in writeIndex <==> DirectionOf(c) == OUT)
              && (name in writeIndex ==> writeIndex[name] == ToPin(c, pin))
    ensures (exists e :: e in m.toolVoltage && e.ioName == name)
            <==> name in writeIndex && writeIndex[name] == ToToolVoltage
  {
    VoltageIsNotPinned(m, name);
    if name in writeIndex && writeIndex[name].ToPin? {
      TargetIsRead(m, name, writeIndex[name]);
      assert ReadIndexed(m, readIndex, writeIndex[name].category);
    }
    forall c, pin | pin in PinMap(EntriesOf(m, c)) && PinMap(EntriesOf(m, c))[pin] == name
      ensures name in writeIndex <==> DirectionOf(c) == OUT
      ensures name in writeIndex ==> writeIndex[name] == ToPin(c, pin)
    {
      var i := PinMapFinds(EntriesOf(m, c), pin);
      assert EntriesOf(m, c)[i] in EntriesOf(m, c);
      assert WriteIndexed(m, writeIndex, c);
      if name in writeIndex {
        assert IsOutput(m, name, writeIndex[name]);
        if writeIndex[name].ToPin? {
          TargetIsRead(m, name, writeIndex[name]);
          ReadIndexIsOneToOne(m, c, pin, writeIndex[name].category, writeIndex[name].pin);
        }
      }
    }
  }

  lemma EntryIsWritten(m: UrMapping, readIndex: map<Category, map<nat, string>>, writeIndex: map<string, Target>,
                       c: Category, e: Entry)
    requires WellFormed(m) && Indexed(m, readIndex, writeIndex) && e in EntriesOf(m, c)
    ensures if DirectionOf(c) == OUT then e.ioName in writeIndex && writeIndex[e.ioName] == ToPin(c, e.pin)
            else e.ioName !in writeIndex
  {
    EntryIsPinned(m, c, e);
    WritesGoWhereReadsComeFrom(m, readIndex, writeIndex, e.ioName);
    hide EntriesOf, PinMap, Indexed, WellFormed;
  }

  /** Block by block: digital outputs, flags and analog outputs are written to their own pins, inputs never. */
  lemma BlocksAreWritten(m: UrMapping, readIndex: map<Category, map<nat, string>>, writeIndex: map<string, Target>)
    requires WellFormed(m) && Indexed(m, readIndex, writeIndex)
    ensures forall e :: e in m.digitalOut ==>
              e.ioName in writeIndex && writeIndex[e.ioName] == ToPin(Category.DigitalOut, e.pin)
    ensures forall e :: e in m.flags ==> e.ioName in writeIndex && writeIndex[e.ioName] == ToPin(Flag, e.pin)
    ensures forall e :: e in m.analogOut ==> e.ioName in writeIndex && writeIndex[e.ioName] == ToPin(AnalogOut, e.pin)
    ensures forall e :: e in m.toolVoltage ==> e.ioName in writeIndex && writeIndex[e.ioName] == ToToolVoltage
    ensures forall e :: e in m.digitalIn ==> e.ioName !in writeIndex
    ensures forall e :: e in m.analogIn ==> e.ioName !in writeIndex
  {
    hide WellFormed, Indexed;
    forall e | e in m.digitalOut
      ensures e.ioName in writeIndex && writeIndex[e.ioName] == ToPin(Category.DigitalOut, e.pin)
    {
      EntryIsWritten(m, readIndex, writeIndex, DigitalOut, FromDigital(e));
    }
    forall e | e in m.flags
      ensures e.ioName in writeIndex && writeIndex[e.ioName] == ToPin(Flag, e.pin)
    {
      EntryIsWritten(m, readIndex, writeIndex, Flag, FromDigital(e));
    }
    forall e | e in m.analogOut
      ensures e.ioName in writeIndex && writeIndex[e.ioName] == ToPin(AnalogOut, e.pin)
    {
      EntryIsWritten(m, readIndex, writeIndex, AnalogOut, FromAnalog(e));
    }
    forall e | e in m.toolVoltage
      ensures e.ioName in writeIndex && writeIndex[e.ioName] == ToToolVoltage
    {
      WritesGoWhereReadsComeFrom(m, readIndex, writeIndex, e.ioName);
    }
    forall e | e in m.digitalIn
      ensures e.ioName !in writeIndex
    {
      EntryIsWritten(m, readIndex, writeIndex, DigitalIn, FromDigital(e));
    }
    forall e | e in m.analogIn
      ensures e.ioName !in writeIndex
    {
      EntryIsWritten(m, readIndex, writeIndex, AnalogIn, FromAnalog(e));
    }
  }

  lemma VoltageIsNotPinned(m: UrMapping, name: string)
    requires WellFormed(m)
    ensures forall e, c, d :: e in m.toolVoltage && e.ioName == name && d in EntriesOf(m, c) ==> d.ioName != name
  {
    forall e, c, d | e in m.toolVoltage && e.ioName == name && d in EntriesOf(m, c)
      ensures d.ioName != name
    {
      var j :| 0 <= j < |m.toolVoltage| && m.toolVoltage[j] == e;
      var i :| 0 <= i < |EntriesOf(m, c)| && EntriesOf(m, c)[i] == d;
      assert Part(m, 5)[j].ioName == name && Part(m, IndexOf(c))[i].ioName == d.ioName;
      if d.ioName == name {
        PlacesHaveDistinctNames(m, 5, j, IndexOf(c), i);
      }
    }
  }

  lemma TargetIsRead(m: UrMapping, name: string, t: Target)
    requires WellFormed(m) && IsOutput(m, name, t) && t.ToPin?
    ensures t.pin in PinMap(EntriesOf(m, t.category)) && PinMap(EntriesOf(m, t.category))[t.pin] == name
  {
    var e :| e in EntriesOf(m, t.category) && e.ioName == name && e.pin == t.pin;
    var i :| 0 <= i < |EntriesOf(m, t.category)| && EntriesOf(m, t.category)[i] == e;
    PinMapHas(EntriesOf(m, t.category), i);
  }

  // Where each signal ends after any run.

  function ActiveAfter(active: bool, op: Operation): bool {
    if op.SetActivated? then op.on else active
  }

  /** What one operation writes to the cache. */
  function WritesOf(m: UrMapping, active: bool, op: Operation): seq<Write> {
    match op
    case Message(msg) => MessageWrites(m, msg)
    case WriteAnalog(name, state) =>
      if active && exists e :: e in m.toolVoltage && e.ioName == name then [Write(name, Float(state))] else []
    case _ => []
  }

  function RunWrites(m: UrMapping, active: bool, ops: seq<Operation>): seq<Write>
    decreases |ops|
  {
    if ops == [] then [] else WritesOf(m, active, ops[0]) + RunWrites(m, ActiveAfter(active, ops[0]), ops[1..])
  }

  /** A run of operations is one list of compare-and-swaps. */
  lemma {:induction false} RunIsUpdates(m: UrMapping, d: Driver, ops: seq<Operation>)
    ensures OperateAll(m, d, ops).io == UpdateAll(d.io, RunWrites(m, d.activated, ops))
    decreases |ops|
  {
    if ops != [] {
      var d', writes := Operate(m, d, ops[0]), WritesOf(m, d.activated, ops[0]);
      assert d'.activated == ActiveAfter(d.activated, ops[0]);
      assert d'.io == UpdateAll(d.io, writes) by {
        OperationIsUpdates(m, d, ops[0]);
      }
      RunIsUpdates(m, d', ops[1..]);
      UpdateAllAppend(d.io, writes, RunWrites(m, d'.activated, ops[1..]));
    }
  }

  lemma OperationIsUpdates(m: UrMapping, d: Driver, op: Operation)
    ensures Operate(m, d, op).io == UpdateAll(d.io, WritesOf(m, d.activated, op))
  {
    if op.WriteAnalog? {
      var w := Write(op.name, Float(op.state));
      UpdateAllSnoc(d.io, [], w);
      assert [] + [w] == [w];
    }
  }

  /** Everything the messages of a run say about one pin of one category. */
  function ReportsIn(ops: seq<Operation>, c: Category, pin: nat): seq<Value>
    decreases |ops|
  {
    if ops == [] then []
    else (if ops[0].Message? then Reported(ReportsOf(ops[0].msg, c), pin) else []) + ReportsIn(ops[1..], c, pin)
  }

  /** Everything written to one tool-voltage name while the driver was activated. */
  function VoltagesIn(active: bool, ops: seq<Operation>, name: string): seq<Value>
    decreases |ops|
  {
    if ops == [] then []
    else
      (if active && ops[0].WriteAnalog? && ops[0].name == name then [Float(ops[0].state)] else [])
      + VoltagesIn(ActiveAfter(active, ops[0]), ops[1..], name)
  }

  lemma {:induction false} RunReportsToPin(m: UrMapping, active: bool, ops: seq<Operation>, c: Category, pin: nat)
    requires WellFormed(m) && pin in PinMap(EntriesOf(m, c))
    ensures ValuesFor(RunWrites(m, active, ops), PinMap(EntriesOf(m, c))[pin]) == ReportsIn(ops, c, pin)
    decreases |ops|
  {
    if ops != [] {
      var name, writes := PinMap(EntriesOf(m, c))[pin], WritesOf(m, active, ops[0]);
      OperationReportsToPin(m, active, ops[0], c, pin);
      RunReportsToPin(m, ActiveAfter(active, ops[0]), ops[1..], c, pin);
      ValuesForAppend(writes, RunWrites(m, ActiveAfter(active, ops[0]), ops[1..]), name);
    }
  }

  lemma OperationReportsToPin(m: UrMapping, active: bool, op: Operation, c: Category, pin: nat)
    requires WellFormed(m) && pin in PinMap(EntriesOf(m, c))
    ensures ValuesFor(WritesOf(m, active, op), PinMap(EntriesOf(m, c))[pin])
         == if op.Message? then Reported(ReportsOf(op.msg, c), pin) else []
  {
    var name := PinMap(EntriesOf(m, c))[pin];
    if op.Message? {
      OnlyItsCategoryWrites(m, op.msg, c, pin);
    } else if op.WriteAnalog? && WritesOf(m, active, op) != [] {
      VoltageIsNotPinned(m, op.name);
      var i := PinMapFinds(EntriesOf(m, c), pin);
      assert EntriesOf(m, c)[i] in EntriesOf(m, c);
      assert op.name != name;
    }
  }

  /** A tool-voltage name is the name of no pin. */
  lemma VoltageHasNoPin(m: UrMapping, name: string)
    requires WellFormed(m) && exists e :: e in m.toolVoltage && e.ioName == name
    ensures forall c, p :: p in PinMap(EntriesOf(m, c)) ==> PinMap(EntriesOf(m, c))[p] != name
  {
    VoltageIsNotPinned(m, name);
    forall c, p | p in PinMap(EntriesOf(m, c))
      ensures PinMap(EntriesOf(m, c))[p] != name
    {
      var i := PinMapFinds(EntriesOf(m, c), p);
      assert EntriesOf(m, c)[i] in EntriesOf(m, c);
    }
  }

  lemma {:induction false} RunWritesVoltage(m: UrMapping, active: bool, ops: seq<Operation>, name: string)
    requires WellFormed(m) && exists e :: e in m.toolVoltage && e.ioName == name
    ensures ValuesFor(RunWrites(m, active, ops), name) == VoltagesIn(active, ops, name)
    decreases |ops|
  {
    if ops != [] {
      var writes, active' := WritesOf(m, active, ops[0]), ActiveAfter(active, ops[0]);
      if ops[0].Message? {
        VoltageHasNoPin(m, name);
        UnpinnedIsSilent(m, ops[0].msg, name);
      }
      assert ValuesFor(writes, name)
             == if active && ops[0].WriteAnalog? && ops[0].name == name then [Float(ops[0].state)] else [];
      RunWritesVoltage(m, active', ops[1..], name);
      ValuesForAppend(writes, RunWrites(m, active', ops[1..]), name);
    }
  }

  /**
   Over any run of messages, writes and (de)activations a pinned signal ends at the last value that any
   message reported for its category and pin, and its callbacks are those reports that differ from the one
   before; with no report it is untouched and silent.
   */
  lemma RunEndsAtLastReport(m: UrMapping, d: Driver, ops: seq<Operation>, c: Category, pin: nat)
    requires WellFormed(m) && pin in PinMap(EntriesOf(m, c))
    requires Named(d.io.cache) && PinMap(EntriesOf(m, c))[pin] in d.io.cache
    ensures var name := PinMap(EntriesOf(m, c))[pin];
      var start, reports, io' := d.io.cache[name], ReportsIn(ops, c, pin), OperateAll(m, d, ops).io;
      && name in io'.cache
      && io'.cache[name] == start.(state := LastOr(start.state, reports))
      && StatesOf(io'.fired, name) == StatesOf(d.io.fired, name) + Distinct(start.state, reports)
  {
    RunIsUpdates(m, d, ops);
    RunReportsToPin(m, d.activated, ops, c, pin);
    UpdateAllPerSignal(d.io, RunWrites(m, d.activated, ops), PinMap(EntriesOf(m, c))[pin]);
    hide WellFormed, EntriesOf, PinMap, RunWrites, UpdateAll, OperateAll, ReportsIn;
  }

  /** The same for a tool voltage and the values written to it while activated; no message reaches it. */
  lemma RunEndsAtLastVoltage(m: UrMapping, d: Driver, ops: seq<Operation>, name: string)
    requires WellFormed(m) && exists e :: e in m.toolVoltage && e.ioName == name
    requires Named(d.io.cache) && name in d.io.cache
    ensures var start, voltages, io' := d.io.cache[name], VoltagesIn(d.activated, ops, name), OperateAll(m, d, ops).io;
      && name in io'.cache
      && io'.cache[name] == start.(state := LastOr(start.state, voltages))
      && StatesOf(io'.fired, name) == StatesOf(d.io.fired, name) + Distinct(start.state, voltages)
  {
    RunIsUpdates(m, d, ops);
    RunWritesVoltage(m, d.activated, ops, name);
    UpdateAllPerSignal(d.io, RunWrites(m, d.activated, ops), name);
    hide WellFormed, RunWrites, UpdateAll, OperateAll, VoltagesIn;
  }

  /** Everything that the messages of a run list, field by field, as one message. */
  function Joined(ops: seq<Operation>): IoStates
    decreases |ops|
  {
    if ops == [] then IoStates([], [], [], [], [])
    else
      var rest := Joined(ops[1..]);
      if !ops[0].Message? then rest
      else
        var msg := ops[0].msg;
        IoStates(msg.digitalIn + rest.digitalIn, msg.digitalOut + rest.digitalOut, msg.flags + rest.flags,
                 msg.analogIn + rest.analogIn, msg.analogOut + rest.analogOut)
  }

  lemma {:induction false} ReportedAppend(a: seq<PinReport>, b: seq<PinReport>, pin: nat)
    ensures Reported(a + b, pin) == Reported(a, pin) + Reported(b, pin)
    decreases |b|
  {
    if b == [] {
      assert a + b == a;
    } else {
      assert (a + b)[..|a + b| - 1] == a + b[..|b| - 1];
      ReportedAppend(a, b[..|b| - 1], pin);
    }
  }

  lemma MapAppend<A, B>(f: A -> B, a: seq<A>, b: seq<A>)
    ensures Map(f, a + b) == Map(f, a) + Map(f, b)
  {
  }

  lemma JoinedReports(ops: seq<Operation>, c: Category)
    requires ops != []
    ensures ReportsOf(Joined(ops), c)
         == (if ops[0].Message? then ReportsOf(ops[0].msg, c) else []) + ReportsOf(Joined(ops[1..]), c)
  {
    var rest := Joined(ops[1..]);
    if ops[0].Message? {
      var msg := ops[0].msg;
      assert Joined(ops) == IoStates(msg.digitalIn + rest.digitalIn, msg.digitalOut + rest.digitalOut,
                                     msg.flags + rest.flags, msg.analogIn + rest.analogIn,
                                     msg.analogOut + rest.analogOut);
      hide Joined, Map;
      match c
      case DigitalIn => MapAppend(DigitalReport, msg.digitalIn, rest.digitalIn);
      case DigitalOut => MapAppend(DigitalReport, msg.digitalOut, rest.digitalOut);
      case Flag => MapAppend(DigitalReport, msg.flags, rest.flags);
      case AnalogIn => MapAppend(AnalogReport, msg.analogIn, rest.analogIn);
      case AnalogOut => MapAppend(AnalogReport, msg.analogOut, rest.analogOut);
    } else {
      assert Joined(ops) == rest;
      assert [] + ReportsOf(rest, c) == ReportsOf(rest, c);
    }
  }

  lemma {:induction false} JoinedSaysAll(ops: seq<Operation>, c: Category, pin: nat)
    ensures ReportsIn(ops, c, pin) == Reported(ReportsOf(Joined(ops), c), pin)
    decreases |ops|
  {
    if ops != [] {
      JoinedSaysAll(ops[1..], c, pin);
      JoinedReports(ops, c);
      hide ReportsOf, Joined;
      var first := if ops[0].Message? then ReportsOf(ops[0].msg, c) else [];
      ReportedAppend(first, ReportsOf(Joined(ops[1..]), c), pin);
    } else {
      assert ReportsOf(Joined(ops), c) == [];
    }
  }

  /**
   A run of messages, writes and (de)activations reads like one message that lists, field by field, everything
   that its messages list: every mapped signal ends at the last state listed for its pin in its own field.
   */
  lemma RunIsRead(m: UrMapping, d: Driver, ops: seq<Operation>)
    requires WellFormed(m) && Named(d.io.cache)
    ensures FieldsRead(m, Joined(ops), d.io, OperateAll(m, d, ops).io)
  {
    hide WellFormed, EntriesOf, PinMap, OperateAll, Reported, ReportsOf, ReportsIn, Joined, Named, FieldsRead;
    var after := OperateAll(m, d, ops).io;
    forall c, e | e in EntriesOf(m, c) && e.ioName in d.io.cache
      ensures PinRead(d.io, after, e.ioName, Reported(ReportsOf(Joined(ops), c), e.pin))
    {
      EntryIsPinned(m, c, e);
      RunEndsAtLastReport(m, d, ops, c, e.pin);
      JoinedSaysAll(ops, c, e.pin);
    }
    PinsAreFields(m, Joined(ops), d.io, after);
  }

  /** From the configured start every mapped signal leaves its default exactly as its own pin was reported. */
  lemma ConfiguredRunPerEntry(m: UrMapping, base: map<string, Signal>, ops: seq<Operation>, c: Category, e: Entry)
    requires WellFormed(m) && CacheHolds(base, SignalsOf(m)) && e in EntriesOf(m, c)
    ensures var io' := OperateAll(m, Driver(Io(base, []), false), ops).io;
      && e.ioName in io'.cache
      && io'.cache[e.ioName] == SignalOf(c, e).(state := LastOr(e.default, ReportsIn(ops, c, e.pin)))
      && StatesOf(io'.fired, e.ioName) == Distinct(e.default, ReportsIn(ops, c, e.pin))
  {
    hide WellFormed, CacheHolds, SignalsOf, EntriesOf, PinMap, OperateAll, ReportsIn, Named, LastOr, Distinct;
    SeededEntry(m, base, c, e);
    EntryIsPinned(m, c, e);
    RunEndsAtLastReport(m, Driver(Io(base, []), false), ops, c, e.pin);
  }

  lemma SeededEntry(m: UrMapping, base: map<string, Signal>, c: Category, e: Entry)
    requires CacheHolds(base, SignalsOf(m)) && e in EntriesOf(m, c)
    ensures Named(base) && e.ioName in base && base[e.ioName] == SignalOf(c, e)
  {
    SeededCacheIsSound(m, base);
    hide *;
    assert e in EntriesOf(m, c);
  }

  lemma ConfiguredRunPerVoltage(m: UrMapping, base: map<string, Signal>, ops: seq<Operation>, e: VoltageEntry)
    requires WellFormed(m) && CacheHolds(base, SignalsOf(m)) && e in m.toolVoltage
    ensures var io' := OperateAll(m, Driver(Io(base, []), false), ops).io;
      && e.ioName in io'.cache
      && io'.cache[e.ioName] == VoltageSignal(e).(state := LastOr(Float(e.default), VoltagesIn(false, ops, e.ioName)))
      && StatesOf(io'.fired, e.ioName) == Distinct(Float(e.default), VoltagesIn(false, ops, e.ioName))
  {
    SeededCacheIsSound(m, base);
    RunEndsAtLastVoltage(m, Driver(Io(base, []), false), ops, e.ioName);
  }

  // The same run on the object.

  /** What every configured driver object keeps from one operation to the next. */
  ghost predicate Configured(driver: UrDriver, m: UrMapping, base: map<string, Signal>)
    reads driver
  {
    && WellFormed(m)
    && CacheHolds(base, SignalsOf(m))
    && Sound(base, driver.CurrentIo())
    && Indexed(m, driver.readIndex, driver.writeIndex)
  }

  ghost function StateOf(driver: UrDriver): Driver
    reads driver
  {
    Driver(driver.CurrentIo(), driver.activated)
  }

  lemma AnalogTargetsAreCached(m: UrMapping, base: map<string, Signal>, cache: map<string, Signal>,
                               writeIndex: map<string, Target>)
    requires CacheHolds(base, SignalsOf(m)) && SameSignals(base, cache) && OnlyOutputs(m, writeIndex)
    ensures forall n :: n in writeIndex && writeIndex[n].ToPin? && writeIndex[n].category == AnalogOut ==>
                          n in cache && cache[n].kind.Analog?
  {
    hide IsOutput, CacheHolds;
    forall n | n in writeIndex && writeIndex[n].ToPin? && writeIndex[n].category == AnalogOut
      ensures n in cache && cache[n].kind.Analog?
    {
      AnalogOutputIsCached(m, base, n, writeIndex[n]);
    }
  }

  lemma AnalogOutputIsCached(m: UrMapping, base: map<string, Signal>, name: string, t: Target)
    requires CacheHolds(base, SignalsOf(m)) && IsOutput(m, name, t) && t.ToPin? && t.category == AnalogOut
    ensures name in base && base[name].kind.Analog?
  {
    SeededCacheIsSound(m, base);
    hide EntriesOf, SignalsOf, CacheHolds, Named, WellTyped;
    var e :| e in EntriesOf(m, AnalogOut) && e.ioName == name;
    AnalogEntries(m, e);
    assert base[name] == SignalOf(AnalogOut, e);
  }

  lemma AnalogEntries(m: UrMapping, e: Entry)
    requires e in EntriesOf(m, AnalogOut)
    ensures e.kind.Analog?
  {
  }

  /** The requests of one operation, block by block: a write reaches its output's own pin, and nothing else is sent. */
  ghost predicate Sends(m: UrMapping, active: bool, op: Operation, sent: seq<Request>) {
    match op
    case WriteDigital(name, on) =>
      && (forall e :: active && e in m.digitalOut && e.ioName == name ==> sent == [SetDigitalOut(e.pin, on)])
      && (forall e :: active && e in m.flags && e.ioName == name ==> sent == [SetFlag(e.pin, on)])
      && (sent != [] ==> active && exists e :: e in m.digitalOut + m.flags && e.ioName == name)
    case WriteAnalog(name, state) =>
      && (forall e :: active && e in m.analogOut && e.ioName == name ==>
            sent == [SetAnalogOutput(e.pin, e.domain, state)])
      && (forall e :: active && e in m.toolVoltage && e.ioName == name ==> sent == [SetToolVoltage(state)])
      && (sent != [] ==> active && ((exists e :: e in m.analogOut && e.ioName == name)
                                    || (exists e :: e in m.toolVoltage && e.ioName == name)))
    case _ => sent == []
  }

  /** What a name is written to is one of the mapping's outputs of that name. */
  lemma TargetsAreBlocks(m: UrMapping, writeIndex: map<string, Target>, name: string)
    requires OnlyOutputs(m, writeIndex) && name in writeIndex
    ensures match writeIndex[name]
            case ToPin(DigitalOut, pin) => exists e :: e in m.digitalOut && e.ioName == name && e.pin == pin
            case ToPin(Flag, pin) => exists e :: e in m.flags && e.ioName == name && e.pin == pin
            case ToPin(AnalogOut, pin) => exists e :: e in m.analogOut && e.ioName == name && e.pin == pin
            case ToPin(_, _) => false
            case ToToolVoltage => exists e :: e in m.toolVoltage && e.ioName == name
  {
    assert IsOutput(m, name, writeIndex[name]);
    if writeIndex[name].ToPin? {
      var c, pin := writeIndex[name].category, writeIndex[name].pin;
      var e :| e in EntriesOf(m, c) && e.ioName == name && e.pin == pin;
      var i :| 0 <= i < |EntriesOf(m, c)| && EntriesOf(m, c)[i] == e;
      match c
      case DigitalOut => assert m.digitalOut[i] in m.digitalOut && m.digitalOut[i].ioName == name;
      case Flag => assert m.flags[i] in m.flags && m.flags[i].ioName == name;
      case AnalogOut => assert m.analogOut[i] in m.analogOut && m.analogOut[i].ioName == name;
      case _ =>
    }
  }

  /** An analog output is cached with the domain of its entry. */
  lemma DomainsAreCached(m: UrMapping, base: map<string, Signal>, cache: map<string, Signal>)
    requires CacheHolds(base, SignalsOf(m)) && SameSignals(base, cache)
    ensures forall e :: e in m.analogOut ==> e.ioName in cache && cache[e.ioName].kind == Analog(e.domain)
  {
    hide EntriesOf, SignalsOf, CacheHolds;
    forall e | e in m.analogOut
      ensures e.ioName in cache && cache[e.ioName].kind == Analog(e.domain)
    {
      assert FromAnalog(e) in EntriesOf(m, AnalogOut) by {
        AnalogIsEntry(m, e);
      }
      SeededEntry(m, base, AnalogOut, FromAnalog(e));
    }
  }

  lemma AnalogIsEntry(m: UrMapping, e: AnalogEntry)
    requires e in m.analogOut
    ensures FromAnalog(e) in EntriesOf(m, AnalogOut)
  {
  }

  lemma NothingSent(m: UrMapping, active: bool, op: Operation)
    requires op.Message? || op.SetActivated?
    ensures Sends(m, active, op, [])
  {
  }

  lemma DigitalSends(m: UrMapping, readIndex: map<Category, map<nat, string>>, writeIndex: map<string, Target>,
                     active: bool, name: string, on: bool, sent: seq<Request>)
    requires WellFormed(m) && Indexed(m, readIndex, writeIndex)
    requires sent == if !active || name !in writeIndex then []
                     else match writeIndex[name]
                          case ToPin(DigitalOut, pin) => [SetDigitalOut(pin, on)]
                          case ToPin(Flag, pin) => [SetFlag(pin, on)]
                          case _ => []
    ensures Sends(m, active, WriteDigital(name, on), sent)
  {
    BlocksAreWritten(m, readIndex, writeIndex);
    if name in writeIndex {
      TargetsAreBlocks(m, writeIndex, name);
    }
    hide WellFormed, Indexed;
    assert forall e :: e in m.digitalOut || e in m.flags ==> e in m.digitalOut + m.flags;
  }

  lemma AnalogSends(m: UrMapping, base: map<string, Signal>, cache: map<string, Signal>,
                    readIndex: map<Category, map<nat, string>>, writeIndex: map<string, Target>,
                    active: bool, name: string, state: real, sent: seq<Request>)
    requires WellFormed(m) && Indexed(m, readIndex, writeIndex)
    requires CacheHolds(base, SignalsOf(m)) && SameSignals(base, cache)
    requires forall n :: n in writeIndex && writeIndex[n].ToPin? && writeIndex[n].category == AnalogOut ==>
                           n in cache && cache[n].kind.Analog?
    requires sent == if !active || name !in writeIndex then []
                     else match writeIndex[name]
                          case ToPin(AnalogOut, pin) => [SetAnalogOutput(pin, cache[name].kind.domain, state)]
                          case ToToolVoltage => [SetToolVoltage(state)]
                          case _ => []
    ensures Sends(m, active, WriteAnalog(name, state), sent)
  {
    BlocksAreWritten(m, readIndex, writeIndex);
    DomainsAreCached(m, base, cache);
    if name in writeIndex {
      TargetsAreBlocks(m, writeIndex, name);
    }
    hide WellFormed, Indexed, CacheHolds, SignalsOf;
  }

  method ActAnalog(driver: UrDriver, ghost m: UrMapping, ghost base: map<string, Signal>, name: string, state: real)
    requires Configured(driver, m, base)
    modifies driver`cache, driver`fired, driver`requests
    ensures StateOf(driver) == Operate(m, old(StateOf(driver)), WriteAnalog(name, state))
    ensures old(driver.requests) <= driver.requests
    ensures Sends(m, driver.activated, WriteAnalog(name, state), driver.requests[|old(driver.requests)|..])
    ensures Configured(driver, m, base)
  {
    OperateKeepsSound(m, base, StateOf(driver), WriteAnalog(name, state));
    hide Sends, SignalsOf, CacheHolds, WellFormed, OnlyOutputs;
    ghost var before, cache := driver.requests, driver.cache;
    WritesGoWhereReadsComeFrom(m, driver.readIndex, driver.writeIndex, name);
    AnalogTargetsAreCached(m, base, cache, driver.writeIndex);
    var written := driver.SetAnalog(name, state);
    AnalogSends(m, base, cache, driver.readIndex, driver.writeIndex, driver.activated, name, state,
                driver.requests[|before|..]);
  }

  method ActOn(driver: UrDriver, ghost m: UrMapping, ghost base: map<string, Signal>, op: Operation)
    requires Configured(driver, m, base)
    modifies driver
    ensures StateOf(driver) == Operate(m, old(StateOf(driver)), op)
    ensures old(driver.requests) <= driver.requests
    ensures Sends(m, old(driver.activated), op, driver.requests[|old(driver.requests)|..])
    ensures Configured(driver, m, base)
  {
    OperateKeepsSound(m, base, StateOf(driver), op);
    hide Sends, SignalsOf, CacheHolds, WellFormed, OnlyOutputs, UpdateAll, MessageWrites, Indexed;
    match op {
      case Message(msg) =>
        assert forall c :: ReadIndexed(m, driver.readIndex, c) by {
          IndexedReads(m, driver.readIndex, driver.writeIndex);
        }
        driver.OnIoStates(msg, m);
        NothingSent(m, driver.activated, op);
      case WriteDigital(name, state) =>
        ghost var before := driver.requests;
        var written := driver.SetDigital(name, state);
        DigitalSends(m, driver.readIndex, driver.writeIndex, driver.activated, name, state,
                     driver.requests[|before|..]);
      case WriteAnalog(name, state) =>
        ActAnalog(driver, m, base, name, state);
      case SetActivated(on) =>
        NothingSent(m, driver.activated, op);
        driver.activated := on;
    }
  }

  lemma IndexedReads(m: UrMapping, readIndex: map<Category, map<nat, string>>, writeIndex: map<string, Target>)
    requires Indexed(m, readIndex, writeIndex)
    ensures forall c :: ReadIndexed(m, readIndex, c)
  {
  }

  lemma OperateActivates(m: UrMapping, d: Driver, op: Operation)
    ensures Operate(m, d, op).activated == ActiveAfter(d.activated, op)
  {
  }

  /** Whether the driver is activated when operation `i` comes. */
  function ActiveUpTo(ops: seq<Operation>, i: nat): bool
    requires i <= |ops|
  {
    i > 0 && ActiveAfter(ActiveUpTo(ops, i - 1), ops[i - 1])
  }

  /** Every operation's own requests, one after the other. */
  ghost predicate SendsAll(m: UrMapping, ops: seq<Operation>, sent: seq<seq<Request>>) {
    && |sent| == |ops|
    && forall i :: 0 <= i < |ops| ==> Sends(m, ActiveUpTo(ops, i), ops[i], sent[i])
  }

  lemma {:induction false} ActiveUpToPrefix(ops: seq<Operation>, n: nat, i: nat)
    requires i <= n <= |ops|
    ensures ActiveUpTo(ops[..n], i) == ActiveUpTo(ops, i)
  {
    if i > 0 {
      ActiveUpToPrefix(ops, n, i - 1);
    }
  }

  lemma SendsOneMore(m: UrMapping, ops: seq<Operation>, n: nat, sent: seq<seq<Request>>, more: seq<Request>)
    requires n < |ops| && SendsAll(m, ops[..n], sent) && Sends(m, ActiveUpTo(ops, n), ops[n], more)
    ensures SendsAll(m, ops[..n + 1], sent + [more])
  {
    hide Sends, ActiveUpTo;
    forall i | 0 <= i < n + 1
      ensures Sends(m, ActiveUpTo(ops[..n + 1], i), ops[..n + 1][i], (sent + [more])[i])
    {
      ActiveUpToPrefix(ops, n + 1, i);
      if i < n {
        ActiveUpToPrefix(ops, n, i);
        assert Sends(m, ActiveUpTo(ops[..n], i), ops[..n][i], sent[i]);
      }
    }
  }

  /**
   A configured driver, driven by any messages and writes, ends where the operations say, log included; and what it
   requested is, operation by operation, the writes of outputs to their own pins while it was activated.
   */
  method Drive(m: UrMapping, ops: seq<Operation>)
    returns (driver: UrDriver, configured: bool, ghost sent: seq<seq<Request>>)
    ensures fresh(driver)
    ensures configured <==> WellFormed(m)
    ensures configured ==> exists base ::
              && CacheHolds(base, SignalsOf(m))
              && StateOf(driver) == OperateAll(m, Driver(Io(base, []), false), ops)
              && Sound(base, driver.CurrentIo())
              && FieldsRead(m, Joined(ops), Io(base, []), driver.CurrentIo())
    ensures configured ==> SendsAll(m, ops, sent) && driver.requests == Flatten(sent)
  {
    sent := [];
    driver := new UrDriver();
    var r := driver.Configure(m);
    configured := r.Success?;
    if configured {
      ghost var base := driver.cache;
      ConfiguredDriverIsSound(m, base);
      hide CacheHolds, WellFormed, Sound, Indexed, SignalsOf, SendsAll, OperateAll, FieldsRead, Joined;
      sent := DriveAll(driver, m, base, ops);
      RunIsRead(m, Driver(Io(base, []), false), ops);
    }
  }

  method DriveAll(driver: UrDriver, ghost m: UrMapping, ghost base: map<string, Signal>, ops: seq<Operation>)
    returns (ghost sent: seq<seq<Request>>)
    requires Configured(driver, m, base) && !driver.activated && driver.requests == []
    modifies driver
    ensures Configured(driver, m, base)
    ensures StateOf(driver) == OperateAll(m, old(StateOf(driver)), ops)
    ensures SendsAll(m, ops, sent) && driver.requests == Flatten(sent)
  {
    sent := [];
    ghost var first := StateOf(driver);
    assert ops[..0] == [] && SendsAll(m, [], []);
    hide Operate, OperateAll, Configured, Sends, SendsAll, ActiveAfter;
    for i := 0 to |ops|
      invariant Configured(driver, m, base)
      invariant StateOf(driver) == OperateAll(m, first, ops[..i])
      invariant driver.activated == ActiveUpTo(ops, i)
      invariant SendsAll(m, ops[..i], sent) && driver.requests == Flatten(sent)
    {
      ghost var before := driver.requests;
      OperateOneMore(m, first, ops[..i], ops[i]);
      OperateActivates(m, StateOf(driver), ops[i]);
      assert ops[..i + 1] == ops[..i] + [ops[i]];
      ActOn(driver, m, base, ops[i]);
      ghost var more := driver.requests[|before|..];
      SendsOneMore(m, ops, i, sent, more);
      FlattenSnoc(sent, more);
      sent := sent + [more];
    }
    assert ops[..|ops|] == ops;
  }

  lemma {:induction false} OperateOneMore(m: UrMapping, d: Driver, ops: seq<Operation>, op: Operation)
    ensures OperateAll(m, d, ops + [op]) == Operate(m, OperateAll(m, d, ops), op)
    decreases |ops|
  {
    if ops == [] {
      assert [op][1..] == [] && [] + [op] == [op];
    } else {
      assert (ops + [op])[1..] == ops[1..] + [op];
      OperateOneMore(m, Operate(m, d, ops[0]), ops[1..], op);
    }
  }
}
