/** The best-effort `set_io` service of the GPIO node, over the simulated driver. */
module SetIo {
  import opened ChangeLog
  import opened MockIoDriver
  import opened Sequences
  import opened UrConfig
  import opened UrIoDriver

  /** What the node remembers of a signal from configuration on. */
  datatype Meta = Meta(isDigital: bool, direction: Direction)

  datatype Command = Command(digital: seq<(string, bool)>, analog: seq<(string, real)>)

  datatype SetEntry = SetEntry(ioName: string, value: Value)

  datatype Reply = Reply(success: bool, failed: seq<string>)

  /** The command's entries in the order they are attempted. */
  function EntriesIn(c: Command): (entries: seq<SetEntry>)
    ensures |entries| == |c.digital| + |c.analog|
    ensures forall i :: 0 <= i < |c.digital| ==> entries[i] == SetEntry(c.digital[i].0, Bool(c.digital[i].1))
    ensures forall i :: 0 <= i < |c.analog| ==>
                          entries[|c.digital| + i] == SetEntry(c.analog[i].0, Float(c.analog[i].1))
  {
    Map((e: (string, bool)) => SetEntry(e.0, Bool(e.1)), c.digital)
    + Map((e: (string, real)) => SetEntry(e.0, Float(e.1)), c.analog)
  }

  /** A known output of the kind that the entry's list is for. */
  predicate Valid(index: map<string, Meta>, e: SetEntry) {
    e.ioName in index && index[e.ioName] == Meta(e.value.Bool?, OUT)
  }

  /** The names of the invalid entries, in order. */
  function FailedNames(index: map<string, Meta>, entries: seq<SetEntry>): seq<string> {
    if entries == [] then []
    else
      FailedNames(index, entries[..|entries| - 1])
      + (if Valid(index, Last(entries)) then [] else [Last(entries).ioName])
  }

  function ValidWrites(index: map<string, Meta>, entries: seq<SetEntry>): seq<Write> {
    if entries == [] then []
    else
      ValidWrites(index, entries[..|entries| - 1])
      + (if Valid(index, Last(entries)) then [Write(Last(entries).ioName, Last(entries).value)] else [])
  }

  /** The index and the cache know the same signals, kinds and directions. */
  ghost predicate Agrees(index: map<string, Meta>, cache: map<string, Signal>) {
    && index.Keys == cache.Keys
    && forall n :: n in cache ==> index[n] == Meta(cache[n].kind.Digital?, cache[n].direction)
  }

  // The same, over the command's two lists.

  /** The names, in order, that are not outputs of the kind that `meta` tells. */
  function Unwritable<V>(index: map<string, Meta>, meta: Meta, entries: seq<(string, V)>): seq<string> {
    if entries == [] then []
    else
      var name := Last(entries).0;
      Unwritable(index, meta, entries[..|entries| - 1])
      + (if name in index && index[name] == meta then [] else [name])
  }

  /** One of the entries names `name`, which is not such an output. */
  ghost predicate Misnames<V>(index: map<string, Meta>, meta: Meta, entries: seq<(string, V)>, name: string) {
    !(name in index && index[name] == meta) && exists i :: 0 <= i < |entries| && entries[i].0 == name
  }

  lemma {:induction false} UnwritableNames<V>(index: map<string, Meta>, meta: Meta, entries: seq<(string, V)>,
                                              name: string)
    ensures name in Unwritable(index, meta, entries) <==> Misnames(index, meta, entries, name)
    decreases |entries|
  {
    if entries != [] {
      var n := |entries| - 1;
      UnwritableNames(index, meta, entries[..n], name);
      assert Misnames(index, meta, entries, name) <==>
             Misnames(index, meta, entries[..n], name)
             || (entries[n].0 == name && !(name in index && index[name] == meta));
    }
  }

  /** An output follows the last entry that its own list has for it; nothing else about any signal changes. */
  ghost predicate FollowsCommand(index: map<string, Meta>, c: Command, name: string, before: Signal, after: Signal)
    requires name in index
  {
    && after == before.(state := after.state)
    && match index[name]
       case Meta(true, OUT) => FollowsLast(before.state, after.state, c.digital, name, OfBool)
       case Meta(false, OUT) => FollowsLast(before.state, after.state, c.analog, name, OfFloat)
       case Meta(_, IN) => after == before
  }

  class GpioNode {
    var driver: MockDriver?
    var signalIndex: map<string, Meta>

    ghost predicate Ready()
      reads this, driver
    {
      driver != null ==> Named(driver.cache) && Agrees(signalIndex, driver.cache)
    }

    constructor ()
      ensures driver == null && Ready()
    {
      driver, signalIndex := null, map[];
    }

    /** Configuration takes the index from the driver's snapshot; a failure leaves no driver. */
    method Configure(m: UrMapping) returns (ok: bool)
      modifies this
      ensures Ready()
      ensures ok <==> NamesPresent(SignalsOf(m)) && UniqueNames(SignalsOf(m))
      ensures if ok then driver != null && fresh(driver) && CacheHolds(driver.cache, SignalsOf(m)) && driver.fired == []
              else driver == null
    {
      var mock := new MockDriver();
      var configured := mock.Configure(m);
      if configured.Failure? {
        driver := null;
        return false;
      }
      driver := mock;
      signalIndex := map n | n in mock.cache :: Meta(mock.cache[n].kind.Digital?, mock.cache[n].direction);
      return true;
    }

    /**
     Every valid entry is written and no other; the reply lists the invalid ones in order. Without a
     driver the reply is a failure that names nothing.
     */
    method OnSetIo(c: Command) returns (reply: Reply)
      requires Ready()
      modifies driver
      ensures driver == old(driver) && signalIndex == old(signalIndex)
      ensures driver == null ==> reply == Reply(false, [])
      ensures driver != null ==>
                && reply.failed == FailedNames(signalIndex, EntriesIn(c))
                && (reply.success <==> reply.failed == [])
                && driver.CurrentIo() == UpdateAll(old(driver.CurrentIo()), ValidWrites(signalIndex, EntriesIn(c)))
      ensures driver != null ==>
                && reply.failed == Unwritable(signalIndex, Meta(true, OUT), c.digital)
                                   + Unwritable(signalIndex, Meta(false, OUT), c.analog)
                && (forall n :: n in reply.failed <==>
                      || Misnames(signalIndex, Meta(true, OUT), c.digital, n)
                      || Misnames(signalIndex, Meta(false, OUT), c.analog, n))
                && (forall n :: n in old(driver.cache) ==>
                      n in signalIndex && n in driver.cache
                      && FollowsCommand(signalIndex, c, n, old(driver.cache)[n], driver.cache[n]))
      ensures Ready()
    {
      if driver == null {
        return Reply(false, []);
      }
      CommandDecides(signalIndex, driver.CurrentIo(), c);
      var entries := EntriesIn(c);
      var failed: seq<string> := [];
      for i := 0 to |entries|
        invariant Ready()
        invariant failed == FailedNames(signalIndex, entries[..i])
        invariant driver.CurrentIo() == UpdateAll(old(driver.CurrentIo()), ValidWrites(signalIndex, entries[..i]))
      {
        ghost var writes := ValidWrites(signalIndex, entries[..i]);
        assert entries[..i + 1][..i] == entries[..i] && Last(entries[..i + 1]) == entries[i];
        var ok := ApplySetEntry(entries[i]);
        if ok {
          UpdateAllSnoc(old(driver.CurrentIo()), writes, Write(entries[i].ioName, entries[i].value));
        } else {
          failed := failed + [entries[i].ioName];
        }
        assert Valid(signalIndex, entries[i]) || writes + [] == writes;
      }
      assert entries[..|entries|] == entries;
      return Reply(failed == [], failed);
    }

    /** One entry: checked against the index, then left to the driver, whose refusal would count as well. */
    method ApplySetEntry(e: SetEntry) returns (ok: bool)
      requires driver != null && Ready()
      modifies driver
      ensures ok <==> Valid(signalIndex, e)
      ensures driver.CurrentIo() == if ok then Update(old(driver.CurrentIo()), e.ioName, e.value)
                                    else old(driver.CurrentIo())
      ensures Ready()
    {
      if e.ioName !in signalIndex {
        return false;
      }
      var meta := signalIndex[e.ioName];
      if meta.direction == IN || meta.isDigital != e.value.Bool? {
        return false;
      }
      var written := driver.SetOutput(e.ioName, e.value, meta.isDigital);
      return written.Success?;
    }
  }

  // What the reply and the writes amount to.

  /** Each entry is either written or reported, never both and never dropped. */
  lemma {:induction false} EveryEntryIsAccountedFor(index: map<string, Meta>, entries: seq<SetEntry>)
    ensures |FailedNames(index, entries)| + |ValidWrites(index, entries)| == |entries|
    ensures FailedNames(index, entries) == [] <==> forall i :: 0 <= i < |entries| ==> Valid(index, entries[i])
  {
    if entries != [] {
      var n := |entries| - 1;
      EveryEntryIsAccountedFor(index, entries[..n]);
      assert forall i :: 0 <= i < n ==> entries[..n][i] == entries[i];
    }
  }

  /** The values of the valid entries that name a signal, in order. */
  function ValidValues(index: map<string, Meta>, entries: seq<SetEntry>, name: string): seq<Value> {
    if entries == [] then []
    else
      ValidValues(index, entries[..|entries| - 1], name)
      + (if Valid(index, Last(entries)) && Last(entries).ioName == name then [Last(entries).value] else [])
  }

  lemma {:induction false} WritesCarryValidValues(index: map<string, Meta>, entries: seq<SetEntry>, name: string)
    ensures ValuesFor(ValidWrites(index, entries), name) == ValidValues(index, entries, name)
  {
    if entries != [] {
      var n := |entries| - 1;
      WritesCarryValidValues(index, entries[..n], name);
      var last := if Valid(index, entries[n]) then [Write(entries[n].ioName, entries[n].value)] else [];
      ValuesForAppend(ValidWrites(index, entries[..n]), last, name);
      assert ValuesFor(last, name) == if last != [] && entries[n].ioName == name then [entries[n].value] else [];
    }
  }

  lemma {:induction false} NoValidValuesForInputs(index: map<string, Meta>, entries: seq<SetEntry>, name: string)
    requires name in index && index[name].direction == IN
    ensures ValidValues(index, entries, name) == []
  {
    if entries != [] {
      NoValidValuesForInputs(index, entries[..|entries| - 1], name);
    }
  }

  /**
   Best effort, signal by signal: an output ends at the value of the last valid entry that names it, one
   callback fires per actual change of value, and inputs keep their value in silence.
   */
  lemma SetIoPerSignal(index: map<string, Meta>, io: Io, entries: seq<SetEntry>, name: string)
    requires Named(io.cache) && Agrees(index, io.cache) && name in io.cache
    ensures var io' := UpdateAll(io, ValidWrites(index, entries));
      var values := ValidValues(index, entries, name);
      && Agrees(index, io'.cache)
      && io'.cache[name] == io.cache[name].(state := LastOr(io.cache[name].state, values))
      && StatesOf(io'.fired, name) == StatesOf(io.fired, name) + Distinct(io.cache[name].state, values)
      && (io.cache[name].direction == IN ==> values == [] && io'.cache[name] == io.cache[name])
  {
    WritesCarryValidValues(index, entries, name);
    UpdateAllPerSignal(io, ValidWrites(index, entries), name);
    if io.cache[name].direction == IN {
      NoValidValuesForInputs(index, entries, name);
    }
  }

  lemma {:induction false} ValidValuesAppend(index: map<string, Meta>, a: seq<SetEntry>, b: seq<SetEntry>, name: string)
    ensures ValidValues(index, a + b, name) == ValidValues(index, a, name) + ValidValues(index, b, name)
    ensures FailedNames(index, a + b) == FailedNames(index, a) + FailedNames(index, b)
    decreases |b|
  {
    if b == [] {
      assert a + b == a;
    } else {
      var n := |b| - 1;
      assert (a + b)[..|a + b| - 1] == a + b[..n];
      ValidValuesAppend(index, a, b[..n], name);
    }
  }

  /** The entries of one list, whose values `wrap` turns into the kind that `digital` tells. */
  lemma {:induction false} ListDecides<V>(index: map<string, Meta>, list: seq<(string, V)>, wrap: V -> Value,
                                          digital: bool, entries: seq<SetEntry>, name: string)
    requires |entries| == |list| && forall v :: wrap(v).Bool? <==> digital
    requires forall i :: 0 <= i < |list| ==> entries[i] == SetEntry(list[i].0, wrap(list[i].1))
    ensures FailedNames(index, entries) == Unwritable(index, Meta(digital, OUT), list)
    ensures ValidValues(index, entries, name)
         == if name in index && index[name] == Meta(digital, OUT) then Map(wrap, ValuesAt(list, name)) else []
    decreases |list|
  {
    if list != [] {
      var n := |list| - 1;
      ListDecides(index, list[..n], wrap, digital, entries[..n], name);
      assert Valid(index, entries[n]) <==> list[n].0 in index && index[list[n].0] == Meta(digital, OUT);
    }
  }

  /** The entries of a command are those of its digital list, then those of its analog list. */
  lemma CommandLists(c: Command) returns (first: seq<SetEntry>, rest: seq<SetEntry>)
    ensures EntriesIn(c) == first + rest && |first| == |c.digital| && |rest| == |c.analog|
    ensures forall i :: 0 <= i < |c.digital| ==> first[i] == SetEntry(c.digital[i].0, OfBool(c.digital[i].1))
    ensures forall i :: 0 <= i < |c.analog| ==> rest[i] == SetEntry(c.analog[i].0, OfFloat(c.analog[i].1))
  {
    var entries, n := EntriesIn(c), |c.digital|;
    first, rest := entries[..n], entries[n..];
    assert forall i :: 0 <= i < |c.analog| ==> rest[i] == entries[n + i];
  }

  lemma CommandValues(index: map<string, Meta>, c: Command, name: string)
    ensures ValidValues(index, EntriesIn(c), name)
         == (if name in index && index[name] == Meta(true, OUT) then Map(OfBool, ValuesAt(c.digital, name)) else [])
            + (if name in index && index[name] == Meta(false, OUT) then Map(OfFloat, ValuesAt(c.analog, name)) else [])
  {
    var first, rest := CommandLists(c);
    hide EntriesIn, ValidValues, ValuesAt, Map;
    ListDecides(index, c.digital, OfBool, true, first, name);
    ListDecides(index, c.analog, OfFloat, false, rest, name);
    ValidValuesAppend(index, first, rest, name);
  }

  lemma CommandFailures(index: map<string, Meta>, c: Command)
    ensures FailedNames(index, EntriesIn(c))
         == Unwritable(index, Meta(true, OUT), c.digital) + Unwritable(index, Meta(false, OUT), c.analog)
  {
    var first, rest := CommandLists(c);
    hide EntriesIn, FailedNames, Unwritable, ValuesAt, Map;
    ListDecides(index, c.digital, OfBool, true, first, "");
    ListDecides(index, c.analog, OfFloat, false, rest, "");
    ValidValuesAppend(index, first, rest, "");
  }

  /** What a command does, over its two lists: which names are reported, and where every signal ends. */
  lemma CommandDecides(index: map<string, Meta>, io: Io, c: Command)
    requires Named(io.cache) && Agrees(index, io.cache)
    ensures FailedNames(index, EntriesIn(c))
         == Unwritable(index, Meta(true, OUT), c.digital) + Unwritable(index, Meta(false, OUT), c.analog)
    ensures forall n :: n in FailedNames(index, EntriesIn(c)) <==>
              Misnames(index, Meta(true, OUT), c.digital, n) || Misnames(index, Meta(false, OUT), c.analog, n)
    ensures var io' := UpdateAll(io, ValidWrites(index, EntriesIn(c)));
      forall n :: n in io.cache ==>
                    n in index && n in io'.cache && FollowsCommand(index, c, n, io.cache[n], io'.cache[n])
  {
    CommandFailures(index, c);
    hide Unwritable, UpdateAll, FollowsCommand, Agrees, Named, Misnames, FailedNames;
    forall n
      ensures n in FailedNames(index, EntriesIn(c)) <==>
              Misnames(index, Meta(true, OUT), c.digital, n) || Misnames(index, Meta(false, OUT), c.analog, n)
    {
      UnwritableNames(index, Meta(true, OUT), c.digital, n);
      UnwritableNames(index, Meta(false, OUT), c.analog, n);
    }
    forall n | n in io.cache
      ensures var io' := UpdateAll(io, ValidWrites(index, EntriesIn(c)));
        n in index && n in io'.cache && FollowsCommand(index, c, n, io.cache[n], io'.cache[n])
    {
      SignalFollows(index, io, c, n);
    }
  }

  lemma SignalFollows(index: map<string, Meta>, io: Io, c: Command, name: string)
    requires Named(io.cache) && Agrees(index, io.cache) && name in io.cache
    ensures var io' := UpdateAll(io, ValidWrites(index, EntriesIn(c)));
      name in index && name in io'.cache && FollowsCommand(index, c, name, io.cache[name], io'.cache[name])
  {
    CommandValues(index, c, name);
    SetIoPerSignal(index, io, EntriesIn(c), name);
    LastOrFollows(io.cache[name].state, c.digital, name, OfBool);
    LastOrFollows(io.cache[name].state, c.analog, name, OfFloat);
    assert forall vs: seq<Value> :: vs + [] == vs && [] + vs == vs;
    hide UpdateAll, EntriesIn, ValidWrites, ValidValues, ValuesAt, Unwritable, FailedNames, LastOr, FollowsLast;
  }

  // Every run of the configured node.

  datatype NodeEvent = SetIoCalled(entries: seq<SetEntry>) | MockTimerFires(name: string, value: Value)

  function NodeStep(index: map<string, Meta>, io: Io, e: NodeEvent): Io {
    match e
    case SetIoCalled(entries) => UpdateAll(io, ValidWrites(index, entries))
    case MockTimerFires(name, value) => MockChange(io, name, value)
  }

  function NodeRun(index: map<string, Meta>, io: Io, events: seq<NodeEvent>): Io
    decreases |events|
  {
    if events == [] then io else NodeRun(index, NodeStep(index, io, events[0]), events[1..])
  }

  lemma {:induction false} ValidWritesFit(index: map<string, Meta>, cache: map<string, Signal>, entries: seq<SetEntry>)
    requires Agrees(index, cache)
    ensures forall w :: w in ValidWrites(index, entries) ==> w.ioName in cache && Fits(cache[w.ioName].kind, w.value)
  {
    if entries != [] {
      ValidWritesFit(index, cache, entries[..|entries| - 1]);
    }
  }

  lemma NodeStepKeeps(index: map<string, Meta>, base: map<string, Signal>, io: Io, e: NodeEvent)
    requires Agrees(index, base) && Sound(base, io)
    ensures Sound(base, NodeStep(index, io, e))
  {
    match e
    case SetIoCalled(entries) =>
      ValidWritesFit(index, base, entries);
      UpdateAllKeeps(base, io, ValidWrites(index, entries));
    case MockTimerFires(name, value) =>
      if RequireInput(io.cache, name).Success? {
        var w := Write(name, Coerce(io.cache[name].kind, value));
        UpdateAllKeeps(base, io, [w]);
        UpdateAllSnoc(io, [], w);
        assert [] + [w] == [w];
      }
  }

  /**
   In every reachable configured state the index agrees with the cache, so no valid entry is ever refused
   by the driver; and the callbacks replay to the cache.
   */
  lemma {:induction false} IndexAlwaysAgrees(index: map<string, Meta>, base: map<string, Signal>, io: Io,
                                             events: seq<NodeEvent>)
    requires Agrees(index, base) && Sound(base, io)
    ensures var io' := NodeRun(index, io, events);
      && Sound(base, io')
      && Agrees(index, io'.cache)
      && forall e :: Valid(index, e) ==> RequireOutput(io'.cache, e.ioName, e.value.Bool?).Success?
    decreases |events|
  {
    if events != [] {
      NodeStepKeeps(index, base, io, events[0]);
      IndexAlwaysAgrees(index, base, NodeStep(index, io, events[0]), events[1..]);
    }
  }

  /** Outputs move only by `set_io`, inputs only by scripted changes. */
  lemma EachSideMovesItsOwn(index: map<string, Meta>, io: Io, e: NodeEvent, name: string)
    requires Named(io.cache) && Agrees(index, io.cache) && name in io.cache
    requires io.cache[name].direction == if e.SetIoCalled? then IN else OUT
    ensures name in NodeStep(index, io, e).cache && NodeStep(index, io, e).cache[name] == io.cache[name]
  {
    if e.SetIoCalled? {
      SetIoPerSignal(index, io, e.entries, name);
    }
  }
}
