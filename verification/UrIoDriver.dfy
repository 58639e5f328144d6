/** The UR driver: indexes built from the mapping, readback that updates the cache, and writes. */
module UrIoDriver {
  import opened ChangeLog
  import opened Sequences
  import opened UrConfig
  import opened UrMessages
  import opened Wrappers

  /** Where a name is written to. */
  datatype Target = ToPin(category: Category, pin: nat) | ToToolVoltage

  datatype DriverError = NotActivated | IsInput | UnknownName | WrongKind

  /** A service request: `set_io` for a digital output, a flag or the tool voltage, `set_analog_output` else. */
  datatype Request =
    | SetDigitalOut(pin: nat, on: bool)
    | SetFlag(pin: nat, on: bool)
    | SetToolVoltage(volts: real)
    | SetAnalogOutput(pin: nat, domain: Domain, state: real)

  /** The mapping makes `t` the place to write `name` to. */
  ghost predicate IsOutput(m: UrMapping, name: string, t: Target) {
    match t
    case ToPin(c, pin) => DirectionOf(c) == OUT && exists e :: e in EntriesOf(m, c) && e.ioName == name && e.pin == pin
    case ToToolVoltage => exists e :: e in m.toolVoltage && e.ioName == name
  }

  ghost predicate CacheHolds(cache: map<string, Signal>, signals: seq<Signal>) {
    && (forall n :: n in cache ==> cache[n] in signals && cache[n].ioName == n)
    && (forall s :: s in signals ==> s.ioName in cache && cache[s.ioName] == s)
  }

  lemma CacheHoldsNext(cache: map<string, Signal>, signals: seq<Signal>, i: nat)
    requires UniqueNames(signals) && i < |signals| && CacheHolds(cache, signals[..i])
    ensures CacheHolds(cache[signals[i].ioName := signals[i]], signals[..i + 1])
  {
    assert forall s :: s in signals[..i] ==> s.ioName != signals[i].ioName;
    assert signals[..i + 1] == signals[..i] + [signals[i]];
  }

  ghost predicate ReadIndexed(m: UrMapping, readIndex: map<Category, map<nat, string>>, c: Category) {
    c in readIndex && readIndex[c] == PinMap(EntriesOf(m, c))
  }

  /** The outputs of one category have their targets. */
  ghost predicate WriteIndexed(m: UrMapping, writeIndex: map<string, Target>, c: Category) {
    DirectionOf(c) == OUT ==> forall e :: e in EntriesOf(m, c) ==> e.ioName in writeIndex
  }

  ghost predicate OnlyOutputs(m: UrMapping, writeIndex: map<string, Target>) {
    forall n :: n in writeIndex ==> IsOutput(m, n, writeIndex[n])
  }

  lemma AddTarget(m: UrMapping, writeIndex: map<string, Target>, c: Category, e: Entry)
    requires OnlyOutputs(m, writeIndex) && DirectionOf(c) == OUT && e in EntriesOf(m, c)
    ensures OnlyOutputs(m, writeIndex[e.ioName := ToPin(c, e.pin)])
  {
  }

  ghost predicate Indexed(m: UrMapping, readIndex: map<Category, map<nat, string>>, writeIndex: map<string, Target>) {
    && (forall c :: ReadIndexed(m, readIndex, c))
    && (forall c :: WriteIndexed(m, writeIndex, c))
    && (forall e :: e in m.toolVoltage ==> e.ioName in writeIndex)
    && OnlyOutputs(m, writeIndex)
  }

  class UrDriver {
    var cache: map<string, Signal>
    var readIndex: map<Category, map<nat, string>>
    var writeIndex: map<string, Target>
    var activated: bool
    var requests: seq<Request>
    var fired: seq<Signal>  // what the change callback received

    ghost function CurrentIo(): Io
      reads this
    {
      Io(cache, fired)
    }

    constructor ()
      ensures cache == map[] && fired == [] && requests == [] && !activated
    {
      cache, readIndex, writeIndex, activated, requests, fired := map[], map[], map[], false, [], [];
    }

    /** Succeeds on exactly the well-formed mappings, and then holds the seeded cache and both indexes. */
    method Configure(m: UrMapping) returns (r: Result<(), ConfigError>)
      modifies this`cache, this`readIndex, this`writeIndex
      ensures r.Success? <==> WellFormed(m)
      ensures r.Success? ==> CacheHolds(cache, SignalsOf(m)) && Indexed(m, readIndex, writeIndex)
    {
      hide Normalized;
      var normalized := NormalizeUrMapping(m);
      if normalized.Failure? {
        return Failure(normalized.error);
      }
      var duplicates := FindDuplicates(normalized.value);
      if duplicates != {} {
        return Failure(DuplicateNames(duplicates));
      }
      SeedCache(normalized.value);
      var built := BuildIndexes(m);
      return built;
    }

    method SeedCache(signals: seq<Signal>)
      requires UniqueNames(signals)
      modifies this`cache
      ensures CacheHolds(cache, signals)
    {
      cache := map[];
      for i := 0 to |signals|
        invariant CacheHolds(cache, signals[..i])
      {
        CacheHoldsNext(cache, signals, i);
        cache := cache[signals[i].ioName := signals[i]];
      }
      assert signals[..|signals|] == signals;
    }

    method BuildIndexes(m: UrMapping) returns (r: Result<(), ConfigError>)
      modifies this`readIndex, this`writeIndex
      ensures r.Success? <==> PinsUnique(m)
      ensures r.Success? ==> Indexed(m, readIndex, writeIndex)
    {
      readIndex, writeIndex := map[], map[];
      for k := 0 to 5
        invariant OnlyOutputs(m, writeIndex)
        invariant forall c :: IndexOf(c) < k ==> UniquePins(EntriesOf(m, c)) && ReadIndexed(m, readIndex, c)
                                                 && WriteIndexed(m, writeIndex, c)
      {
        var indexed := IndexCategory(m, CATEGORIES[k]);
        if indexed.Failure? {
          return indexed;
        }
      }
      IndexToolVoltage(m);
      assert forall c :: IndexOf(c) < 5;
      return Success(());
    }

    method IndexOutput(m: UrMapping, c: Category, e: Entry)
      requires OnlyOutputs(m, writeIndex) && e in EntriesOf(m, c)
      modifies this`writeIndex
      ensures OnlyOutputs(m, writeIndex) && old(writeIndex).Keys <= writeIndex.Keys
      ensures DirectionOf(c) == OUT ==> e.ioName in writeIndex
    {
      if DirectionOf(c) == OUT {
        AddTarget(m, writeIndex, c, e);
        writeIndex := writeIndex[e.ioName := ToPin(c, e.pin)];
      }
    }

    /** One category: a repeated pin is refused, otherwise its pins and outputs join the indexes. */
    method IndexCategory(m: UrMapping, c: Category) returns (r: Result<(), ConfigError>)
      requires OnlyOutputs(m, writeIndex)
      modifies this`readIndex, this`writeIndex
      ensures r.Success? <==> UniquePins(EntriesOf(m, c))
      ensures r.Success? ==>
                ReadIndexed(m, readIndex, c) && WriteIndexed(m, writeIndex, c) && OnlyOutputs(m, writeIndex)
      ensures forall d :: d != c && d in old(readIndex) ==> d in readIndex && readIndex[d] == old(readIndex)[d]
      ensures old(writeIndex).Keys <= writeIndex.Keys
    {
      var entries := EntriesOf(m, c);
      PinnedFromStart(entries);
      hide Pinned, UniquePins, OnlyOutputs, EntriesOf, DirectionOf;
      var pinMap: map<nat, string> := map[];
      for i := 0 to |entries|
        invariant Pinned(entries, i, pinMap)
        invariant DirectionOf(c) == OUT ==> forall j :: 0 <= j < i ==> entries[j].ioName in writeIndex
        invariant OnlyOutputs(m, writeIndex)
        invariant readIndex == old(readIndex) && old(writeIndex).Keys <= writeIndex.Keys
      {
        var e := entries[i];
        PinnedNext(entries, i, pinMap);
        if e.pin in pinMap {
          return Failure(DuplicatePin(c, e.pin));
        }
        pinMap := pinMap[e.pin := e.ioName];
        IndexOutput(m, c, e);
      }
      PinnedToEnd(entries, pinMap);
      readIndex := readIndex[c := pinMap];
      return Success(());
    }

    method IndexToolVoltage(m: UrMapping)
      requires OnlyOutputs(m, writeIndex)
      modifies this`writeIndex
      ensures OnlyOutputs(m, writeIndex) && old(writeIndex).Keys <= writeIndex.Keys
      ensures forall e :: e in m.toolVoltage ==> e.ioName in writeIndex
    {
      for i := 0 to |m.toolVoltage|
        invariant OnlyOutputs(m, writeIndex) && old(writeIndex).Keys <= writeIndex.Keys
        invariant forall j :: 0 <= j < i ==> m.toolVoltage[j].ioName in writeIndex
      {
        assert m.toolVoltage[i] in m.toolVoltage;
        writeIndex := writeIndex[m.toolVoltage[i].ioName := ToToolVoltage];
      }
    }

    /** Compare and swap under the cache lock; the callback runs after it. */
    method UpdateCache(name: string, value: Value)
      requires Named(cache)
      modifies this`cache, this`fired
      ensures CurrentIo() == Update(old(CurrentIo()), name, value) && Named(cache)
    {
      if name !in cache || cache[name].state == value {
        return;
      }
      var updated := cache[name].(state := value);
      cache := cache[name := updated];
      fired := fired + [updated];
    }

    /** The subscription callback: every report of a mapped pin, in message order. */
    method OnIoStates(msg: IoStates, ghost m: UrMapping)
      requires Named(cache) && forall c :: ReadIndexed(m, readIndex, c)
      modifies this`cache, this`fired
      ensures CurrentIo() == UpdateAll(old(CurrentIo()), MessageWrites(m, msg)) && Named(cache)
      ensures WellFormed(m) ==> FieldsRead(m, msg, old(CurrentIo()), CurrentIo())
    {
      hide FieldsRead, WellFormed;
      if WellFormed(m) {
        MessageIsRead(m, CurrentIo(), msg);
      }
      ghost var before := CurrentIo();
      for k := 0 to 5
        invariant Named(cache) && CurrentIo() == UpdateAll(before, Flatten(CategoryWrites(m, msg)[..k]))
      {
        assert ReadIndexed(m, readIndex, CATEGORIES[k]);
        ghost var done := Flatten(CategoryWrites(m, msg)[..k]);
        ApplyReports(readIndex[CATEGORIES[k]], ReportsOf(msg, CATEGORIES[k]));
        UpdateAllAppend(before, done, CategoryWrites(m, msg)[k]);
        assert CategoryWrites(m, msg)[..k + 1] == CategoryWrites(m, msg)[..k] + [CategoryWrites(m, msg)[k]];
        FlattenSnoc(CategoryWrites(m, msg)[..k], CategoryWrites(m, msg)[k]);
      }
      assert CategoryWrites(m, msg)[..5] == CategoryWrites(m, msg);
    }

    method ApplyReports(pins: map<nat, string>, reports: seq<PinReport>)
      requires Named(cache)
      modifies this`cache, this`fired
      ensures CurrentIo() == UpdateAll(old(CurrentIo()), WritesFrom(pins, reports)) && Named(cache)
    {
      for i := 0 to |reports|
        invariant Named(cache) && CurrentIo() == UpdateAll(old(CurrentIo()), WritesFrom(pins, reports[..i]))
      {
        ghost var writes := WritesFrom(pins, reports[..i]);
        assert reports[..i + 1][..i] == reports[..i] && Last(reports[..i + 1]) == reports[i];
        assert reports[i].pin !in pins ==> WritesFrom(pins, reports[..i + 1]) == writes;
        if reports[i].pin in pins {
          UpdateCache(pins[reports[i].pin], reports[i].value);
          UpdateAllSnoc(old(CurrentIo()), writes, Write(pins[reports[i].pin], reports[i].value));
        }
      }
      assert reports[..|reports|] == reports;
    }

    /** Resolves a name to where it is written, or says why it cannot be. */
    function RequireWrite(name: string): (r: Result<Target, DriverError>)
      reads this
      ensures r.Success? <==> activated && name in writeIndex
      ensures r.Success? ==> r.value == writeIndex[name]
      ensures r == Failure(NotActivated) <==> !activated
      ensures r == Failure(IsInput) <==> activated && name !in writeIndex && name in cache
      ensures r == Failure(UnknownName) <==> activated && name !in writeIndex && name !in cache
    {
      if !activated then Failure(NotActivated)
      else if name in writeIndex then Success(writeIndex[name])
      else if name in cache then Failure(IsInput)
      else Failure(UnknownName)
    }

    /** Digital outputs and flags only; the cache waits for the readback. */
    method SetDigital(name: string, state: bool) returns (r: Result<(), DriverError>)
      modifies this`requests
      ensures r == match RequireWrite(name)
                   case Failure(e) => Failure(e)
                   case Success(ToPin(DigitalOut, _)) => Success(())
                   case Success(ToPin(Flag, _)) => Success(())
                   case Success(_) => Failure(WrongKind)
      ensures requests == old(requests) +
                          if r.Failure? then []
                          else if writeIndex[name].category == Flag then [SetFlag(writeIndex[name].pin, state)]
                          else [SetDigitalOut(writeIndex[name].pin, state)]
    {
      match RequireWrite(name) {
        case Failure(e) =>
          return Failure(e);
        case Success(target) =>
          if target.ToToolVoltage? || (target.category != DigitalOut && target.category != Flag) {
            return Failure(WrongKind);
          }
          requests := requests + [if target.category == DigitalOut then SetDigitalOut(target.pin, state)
                                  else SetFlag(target.pin, state)];
          return Success(());
      }
    }

    /** Analog outputs wait for the readback; the tool voltage has none and goes straight to the cache. */
    method SetAnalog(name: string, state: real) returns (r: Result<(), DriverError>)
      requires Named(cache)
      requires forall n :: n in writeIndex && writeIndex[n].ToPin? && writeIndex[n].category == AnalogOut ==>
                             n in cache && cache[n].kind.Analog?
      modifies this`requests, this`cache, this`fired
      ensures r == old(match RequireWrite(name)
                       case Failure(e) => Failure(e)
                       case Success(ToPin(AnalogOut, _)) => Success(())
                       case Success(ToToolVoltage) => Success(())
                       case Success(_) => Failure(WrongKind))
      ensures requests == old(requests) +
                          if r.Failure? then []
                          else if writeIndex[name].ToToolVoltage? then [SetToolVoltage(state)]
                          else [SetAnalogOutput(writeIndex[name].pin, old(cache)[name].kind.domain, state)]
      ensures CurrentIo() == if r.Success? && writeIndex[name].ToToolVoltage?
                             then Update(old(CurrentIo()), name, Float(state)) else old(CurrentIo())
      ensures Named(cache)
    {
      match RequireWrite(name) {
        case Failure(e) =>
          return Failure(e);
        case Success(target) =>
          if target.ToPin? && target.category == AnalogOut {
            requests := requests + [SetAnalogOutput(target.pin, cache[name].kind.domain, state)];
            return Success(());
          } else if target.ToToolVoltage? {
            requests := requests + [SetToolVoltage(state)];
            UpdateCache(name, Float(state));
            return Success(());
          }
          return Failure(WrongKind);
      }
    }
  }
}
