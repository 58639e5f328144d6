/** What an `io_states` message means for a driver's cache, for every well-formed mapping. */
module UrMessages {
  import opened ChangeLog
  import opened Sequences
  import opened UrConfig

  /** One reported pin; the message type decides whether its state is a bool or a float. */
  datatype PinReport = PinReport(pin: nat, value: Value)

  datatype IoStates = IoStates(
    digitalIn: seq<(nat, bool)>,
    digitalOut: seq<(nat, bool)>,
    flags: seq<(nat, bool)>,
    analogIn: seq<(nat, real)>,
    analogOut: seq<(nat, real)>
  )

  function DigitalReport(p: (nat, bool)): PinReport {
    PinReport(p.0, Bool(p.1))
  }

  function AnalogReport(p: (nat, real)): PinReport {
    PinReport(p.0, Float(p.1))
  }

  function ReportsOf(msg: IoStates, c: Category): seq<PinReport> {
    match c
    case DigitalIn => Map(DigitalReport, msg.digitalIn)
    case DigitalOut => Map(DigitalReport, msg.digitalOut)
    case Flag => Map(DigitalReport, msg.flags)
    case AnalogIn => Map(AnalogReport, msg.analogIn)
    case AnalogOut => Map(AnalogReport, msg.analogOut)
  }

  // The effect of a message, independent of the loops that compute it.

  /** The cache writes that the reports of one category cause. */
  function WritesFrom(pins: map<nat, string>, reports: seq<PinReport>): seq<Write> {
    if reports == [] then []
    else
      WritesFrom(pins, reports[..|reports| - 1])
      + (if Last(reports).pin in pins then [Write(pins[Last(reports).pin], Last(reports).value)] else [])
  }

  function CategoryWrites(m: UrMapping, msg: IoStates): (parts: seq<seq<Write>>)
    ensures |parts| == 5
  {
    seq(5, k requires 0 <= k < 5 => WritesFrom(PinMap(EntriesOf(m, CATEGORIES[k])), ReportsOf(msg, CATEGORIES[k])))
  }

  function MessageWrites(m: UrMapping, msg: IoStates): seq<Write> {
    Flatten(CategoryWrites(m, msg))
  }

  /** What a message says about one pin. */
  function Reported(reports: seq<PinReport>, pin: nat): seq<Value> {
    if reports == [] then []
    else Reported(reports[..|reports| - 1], pin) + (if Last(reports).pin == pin then [Last(reports).value] else [])
  }

  /** The reports of one pin become the writes of its name, and of no other name. */
  lemma {:induction false} ReportsBecomeWrites(pins: map<nat, string>, reports: seq<PinReport>, name: string, pin: nat)
    requires forall p, q :: p in pins && q in pins && pins[p] == pins[q] ==> p == q
    requires pin in pins && pins[pin] == name
    ensures ValuesFor(WritesFrom(pins, reports), name) == Reported(reports, pin)
    decreases |reports|
  {
    if reports != [] {
      var n := |reports| - 1;
      ReportsBecomeWrites(pins, reports[..n], name, pin);
      var last := if reports[n].pin in pins then [Write(pins[reports[n].pin], reports[n].value)] else [];
      ValuesForAppend(WritesFrom(pins, reports[..n]), last, name);
      assert ValuesFor(last, name) == if reports[n].pin == pin then [reports[n].value] else [];
    }
  }

  lemma {:induction false} OtherReportsAreSilent(pins: map<nat, string>, reports: seq<PinReport>, name: string)
    requires forall p :: p in pins ==> pins[p] != name
    ensures ValuesFor(WritesFrom(pins, reports), name) == []
    decreases |reports|
  {
    if reports != [] {
      var n := |reports| - 1;
      OtherReportsAreSilent(pins, reports[..n], name);
      var last := if reports[n].pin in pins then [Write(pins[reports[n].pin], reports[n].value)] else [];
      ValuesForAppend(WritesFrom(pins, reports[..n]), last, name);
      assert ValuesFor(last, name) == [];
    }
  }

  /** What category `k` of a message writes to the name read from (`c`, `pin`). */
  lemma CategoryShare(m: UrMapping, msg: IoStates, c: Category, pin: nat, k: nat)
    requires WellFormed(m) && k < 5 && pin in PinMap(EntriesOf(m, c))
    ensures ValuesFor(CategoryWrites(m, msg)[k], PinMap(EntriesOf(m, c))[pin])
         == if k == IndexOf(c) then Reported(ReportsOf(msg, c), pin) else []
  {
    assert CATEGORIES[k] == c <==> k == IndexOf(c);
    var name := PinMap(EntriesOf(m, c))[pin];
    var pins := PinMap(EntriesOf(m, CATEGORIES[k]));
    forall p, q | p in pins && q in pins && pins[p] == pins[q]
      ensures p == q
    {
      ReadIndexIsOneToOne(m, CATEGORIES[k], p, CATEGORIES[k], q);
    }
    if CATEGORIES[k] == c {
      ReportsBecomeWrites(pins, ReportsOf(msg, c), name, pin);
    } else {
      forall p | p in pins
        ensures pins[p] != name
      {
        if pins[p] == name {
          ReadIndexIsOneToOne(m, CATEGORIES[k], p, c, pin);
        }
      }
      OtherReportsAreSilent(pins, ReportsOf(msg, CATEGORIES[k]), name);
    }
  }

  /** When only part `i` may write to a name, the parts together write what it does. */
  lemma {:induction false} OnlyItsPartWrites(parts: seq<seq<Write>>, name: string, i: nat, share: seq<Value>)
    requires forall k :: 0 <= k < |parts| ==> ValuesFor(parts[k], name) == if k == i then share else []
    ensures ValuesFor(Flatten(parts), name) == if i < |parts| then share else []
    decreases |parts|
  {
    if parts != [] {
      hide ValuesFor, Flatten;
      var front, last := parts[..|parts| - 1], Last(parts);
      assert parts == front + [last];
      OnlyItsPartWrites(front, name, i, share);
      FlattenSnoc(front, last);
      ValuesForAppend(Flatten(front), last, name);
    }
  }

  /** Of a whole message, only the category's reports of the pin reach a name read from (`c`, `pin`). */
  lemma OnlyItsCategoryWrites(m: UrMapping, msg: IoStates, c: Category, pin: nat)
    requires WellFormed(m) && pin in PinMap(EntriesOf(m, c))
    ensures ValuesFor(MessageWrites(m, msg), PinMap(EntriesOf(m, c))[pin]) == Reported(ReportsOf(msg, c), pin)
  {
    hide WellFormed, Reported, ReportsOf, PinMap, EntriesOf, CategoryWrites, ValuesFor, Flatten, IndexOf;
    var parts, name := CategoryWrites(m, msg), PinMap(EntriesOf(m, c))[pin];
    var i, share := IndexOf(c), Reported(ReportsOf(msg, c), pin);
    forall k | 0 <= k < 5
      ensures ValuesFor(parts[k], name) == if k == i then share else []
    {
      CategoryShare(m, msg, c, pin, k);
    }
    OnlyItsPartWrites(parts, name, i, share);
  }

  /**
   After a message a signal holds the last value reported for its category and pin, and its callbacks
   are that pin's reported values, each time they change. Without a report it is untouched and silent.
   */
  lemma EndsAtLastReport(m: UrMapping, io: Io, msg: IoStates, c: Category, pin: nat)
    requires WellFormed(m) && pin in PinMap(EntriesOf(m, c))
    requires Named(io.cache) && PinMap(EntriesOf(m, c))[pin] in io.cache
    ensures var name := PinMap(EntriesOf(m, c))[pin];
      var reported := Reported(ReportsOf(msg, c), pin);
      var io' := UpdateAll(io, MessageWrites(m, msg));
      && name in io'.cache
      && io'.cache[name] == io.cache[name].(state := LastOr(io.cache[name].state, reported))
      && StatesOf(io'.fired, name) == StatesOf(io.fired, name) + Distinct(io.cache[name].state, reported)
  {
    var name := PinMap(EntriesOf(m, c))[pin];
    OnlyItsCategoryWrites(m, msg, c, pin);
    UpdateAllPerSignal(io, MessageWrites(m, msg), name);
  }

  /** A name that no pin is mapped to is written by no message. */
  lemma UnpinnedIsSilent(m: UrMapping, msg: IoStates, name: string)
    requires forall c, p :: p in PinMap(EntriesOf(m, c)) ==> PinMap(EntriesOf(m, c))[p] != name
    ensures ValuesFor(MessageWrites(m, msg), name) == []
  {
    forall k | 0 <= k < 5
      ensures ValuesFor(CategoryWrites(m, msg)[k], name) == []
    {
      OtherReportsAreSilent(PinMap(EntriesOf(m, CATEGORIES[k])), ReportsOf(msg, CATEGORIES[k]), name);
    }
    OnlyItsPartWrites(CategoryWrites(m, msg), name, 5, []);
  }

  lemma MessagesLeaveUnpinnedAlone(m: UrMapping, io: Io, msg: IoStates, name: string)
    requires Named(io.cache) && name in io.cache
    requires forall c, p :: p in PinMap(EntriesOf(m, c)) ==> PinMap(EntriesOf(m, c))[p] != name
    ensures var io' := UpdateAll(io, MessageWrites(m, msg));
      name in io'.cache && io'.cache[name] == io.cache[name] && StatesOf(io'.fired, name) == StatesOf(io.fired, name)
  {
    UnpinnedIsSilent(m, msg, name);
    UpdateAllPerSignal(io, MessageWrites(m, msg), name);
  }

  // The same, field by field of the message and block by block of the mapping.

  /** A signal follows the states of its pin, and fires for each that differs from the one before. */
  ghost predicate SignalRead<V>(before: Io, after: Io, name: string, pin: nat, states: seq<(nat, V)>, wrap: V -> Value)
    requires name in before.cache
  {
    && name in after.cache
    && var start, end := before.cache[name], after.cache[name];
    && end == start.(state := end.state)
    && FollowsLast(start.state, end.state, states, pin, wrap)
    && StatesOf(after.fired, name)
       == StatesOf(before.fired, name) + Distinct(start.state, Map(wrap, ValuesAt(states, pin)))
  }

  /** Every pinned signal was read from its own field and pin. */
  ghost predicate FieldsRead(m: UrMapping, msg: IoStates, before: Io, after: Io) {
    && (forall e :: e in m.digitalIn && e.ioName in before.cache ==>
                      SignalRead(before, after, e.ioName, e.pin, msg.digitalIn, OfBool))
    && (forall e :: e in m.digitalOut && e.ioName in before.cache ==>
                      SignalRead(before, after, e.ioName, e.pin, msg.digitalOut, OfBool))
    && (forall e :: e in m.flags && e.ioName in before.cache ==>
                      SignalRead(before, after, e.ioName, e.pin, msg.flags, OfBool))
    && (forall e :: e in m.analogIn && e.ioName in before.cache ==>
                      SignalRead(before, after, e.ioName, e.pin, msg.analogIn, OfFloat))
    && (forall e :: e in m.analogOut && e.ioName in before.cache ==>
                      SignalRead(before, after, e.ioName, e.pin, msg.analogOut, OfFloat))
  }

  /** `reports` are the pins and states of one field. */
  ghost predicate Reports<V>(reports: seq<PinReport>, states: seq<(nat, V)>, wrap: V -> Value) {
    && |reports| == |states|
    && forall i :: 0 <= i < |states| ==> reports[i] == PinReport(states[i].0, wrap(states[i].1))
  }

  lemma {:induction false} ReportedValues<V>(reports: seq<PinReport>, states: seq<(nat, V)>, wrap: V -> Value, pin: nat)
    requires Reports(reports, states, wrap)
    ensures Reported(reports, pin) == Map(wrap, ValuesAt(states, pin))
    decreases |reports|
  {
    if reports != [] {
      var n := |reports| - 1;
      ReportedValues(reports[..n], states[..n], wrap, pin);
    }
  }

  /** What a signal's pin was reported decides where it ends and what it fired. */
  ghost predicate PinRead(before: Io, after: Io, name: string, values: seq<Value>)
    requires name in before.cache
  {
    && name in after.cache
    && after.cache[name] == before.cache[name].(state := LastOr(before.cache[name].state, values))
    && StatesOf(after.fired, name) == StatesOf(before.fired, name) + Distinct(before.cache[name].state, values)
  }

  lemma FieldDecides<V>(before: Io, after: Io, name: string, pin: nat, states: seq<(nat, V)>, wrap: V -> Value,
                        reports: seq<PinReport>)
    requires name in before.cache && Reports(reports, states, wrap)
    requires PinRead(before, after, name, Reported(reports, pin))
    ensures SignalRead(before, after, name, pin, states, wrap)
  {
    ReportedValues(reports, states, wrap, pin);
    LastOrFollows(before.cache[name].state, states, pin, wrap);
    hide Reported, Reports, FollowsLast, LastOr, Distinct;
  }

  ghost predicate PinsRead(m: UrMapping, msg: IoStates, before: Io, after: Io) {
    forall c, e :: e in EntriesOf(m, c) && e.ioName in before.cache ==>
                     PinRead(before, after, e.ioName, Reported(ReportsOf(msg, c), e.pin))
  }

  /** Pins by category are the fields of the message and the blocks of the mapping. */
  lemma PinsAreFields(m: UrMapping, msg: IoStates, before: Io, after: Io)
    requires PinsRead(m, msg, before, after)
    ensures FieldsRead(m, msg, before, after)
  {
    hide SignalRead, PinRead, Reported;
    forall e | e in m.digitalIn && e.ioName in before.cache
      ensures SignalRead(before, after, e.ioName, e.pin, msg.digitalIn, OfBool)
    {
      assert FromDigital(e) in EntriesOf(m, DigitalIn);
      FieldDecides(before, after, e.ioName, e.pin, msg.digitalIn, OfBool, ReportsOf(msg, DigitalIn));
    }
    forall e | e in m.digitalOut && e.ioName in before.cache
      ensures SignalRead(before, after, e.ioName, e.pin, msg.digitalOut, OfBool)
    {
      assert FromDigital(e) in EntriesOf(m, DigitalOut);
      FieldDecides(before, after, e.ioName, e.pin, msg.digitalOut, OfBool, ReportsOf(msg, DigitalOut));
    }
    forall e | e in m.flags && e.ioName in before.cache
      ensures SignalRead(before, after, e.ioName, e.pin, msg.flags, OfBool)
    {
      assert FromDigital(e) in EntriesOf(m, Flag);
      FieldDecides(before, after, e.ioName, e.pin, msg.flags, OfBool, ReportsOf(msg, Flag));
    }
    forall e | e in m.analogIn && e.ioName in before.cache
      ensures SignalRead(before, after, e.ioName, e.pin, msg.analogIn, OfFloat)
    {
      assert FromAnalog(e) in EntriesOf(m, AnalogIn);
      FieldDecides(before, after, e.ioName, e.pin, msg.analogIn, OfFloat, ReportsOf(msg, AnalogIn));
    }
    forall e | e in m.analogOut && e.ioName in before.cache
      ensures SignalRead(before, after, e.ioName, e.pin, msg.analogOut, OfFloat)
    {
      assert FromAnalog(e) in EntriesOf(m, AnalogOut);
      FieldDecides(before, after, e.ioName, e.pin, msg.analogOut, OfFloat, ReportsOf(msg, AnalogOut));
    }
  }

  lemma EntryIsPinned(m: UrMapping, c: Category, e: Entry)
    requires WellFormed(m) && e in EntriesOf(m, c)
    ensures e.pin in PinMap(EntriesOf(m, c)) && PinMap(EntriesOf(m, c))[e.pin] == e.ioName
  {
    var i :| 0 <= i < |EntriesOf(m, c)| && EntriesOf(m, c)[i] == e;
    PinMapHas(EntriesOf(m, c), i);
  }

  /**
   After a message every mapped signal has the last state that its own field of the message lists for its pin, or
   its old one, and fired for each listed state that differs from the one before.
   */
  lemma MessageIsRead(m: UrMapping, io: Io, msg: IoStates)
    requires WellFormed(m) && Named(io.cache)
    ensures FieldsRead(m, msg, io, UpdateAll(io, MessageWrites(m, msg)))
  {
    hide WellFormed, EntriesOf, PinMap, UpdateAll, MessageWrites, Reported, ReportsOf, Named, FieldsRead;
    forall c, e | e in EntriesOf(m, c) && e.ioName in io.cache
      ensures PinRead(io, UpdateAll(io, MessageWrites(m, msg)), e.ioName, Reported(ReportsOf(msg, c), e.pin))
    {
      EntryIsPinned(m, c, e);
      EndsAtLastReport(m, io, msg, c, e.pin);
    }
    PinsAreFields(m, msg, io, UpdateAll(io, MessageWrites(m, msg)));
  }
}
