/** The simulated driver: outputs move by `set_io`, inputs by scripted changes. */
module MockIoDriver {
  import opened ChangeLog
  import opened UrConfig
  import opened UrIoDriver
  import opened Wrappers

  /** The output that a write of the given kind may go to, or why there is none. */
  function RequireOutput(cache: map<string, Signal>, name: string, digital: bool): Result<Signal, DriverError> {
    if name !in cache then Failure(UnknownName)
    else if cache[name].direction != OUT then Failure(IsInput)
    else if cache[name].kind.Digital? != digital then Failure(WrongKind)
    else Success(cache[name])
  }

  /** Python's `bool(value)` and `float(value)`. */
  function Coerce(kind: Kind, value: Value): (v: Value)
    ensures Fits(kind, v)
    ensures Fits(kind, value) ==> v == value
  {
    match (kind, value)
    case (Digital, Bool(b)) => Bool(b)
    case (Digital, Float(r)) => Bool(r != 0.0)
    case (Analog(_), Bool(b)) => Float(if b then 1.0 else 0.0)
    case (Analog(_), Float(r)) => Float(r)
  }

  function RequireInput(cache: map<string, Signal>, name: string): Result<Signal, DriverError> {
    if name !in cache then Failure(UnknownName)
    else if cache[name].direction != IN then Failure(WrongKind)
    else Success(cache[name])
  }

  /** A scripted change of an input; anything else is refused and changes nothing. */
  function MockChange(io: Io, name: string, value: Value): Io {
    if RequireInput(io.cache, name).Success? then Update(io, name, Coerce(io.cache[name].kind, value)) else io
  }

  class MockDriver {
    var cache: map<string, Signal>
    var fired: seq<Signal>

    ghost function CurrentIo(): Io
      reads this
    {
      Io(cache, fired)
    }

    constructor ()
      ensures cache == map[] && fired == []
    {
      cache, fired := map[], [];
    }

    /** Unlike the UR driver it never looks at pins. */
    method Configure(m: UrMapping) returns (r: Result<(), ConfigError>)
      modifies this`cache
      ensures r.Success? <==> NamesPresent(SignalsOf(m)) && UniqueNames(SignalsOf(m))
      ensures r.Success? ==> CacheHolds(cache, SignalsOf(m))
      ensures r.Failure? ==> cache == old(cache)
    {
      hide Normalized;
      var normalized := NormalizeUrMapping(m);
      if normalized.Failure? {
        return Failure(normalized.error);
      }
      var signals := normalized.value;
      var duplicates := FindDuplicates(signals);
      if duplicates != {} {
        return Failure(DuplicateNames(duplicates));
      }
      assert CacheHolds(map[], signals[..0]);
      hide CacheHolds, NamesPresent, UniqueNames, SignalsOf;
      cache := map[];
      for i := 0 to |signals|
        invariant CacheHolds(cache, signals[..i])
      {
        CacheHoldsNext(cache, signals, i);
        cache := cache[signals[i].ioName := signals[i]];
      }
      assert signals[..|signals|] == signals;
      return Success(());
    }

    /** `_apply`: compare, swap and report. */
    method ApplyValue(signal: Signal, value: Value)
      requires signal.ioName in cache && cache[signal.ioName] == signal
      modifies this
      ensures CurrentIo() == Update(old(CurrentIo()), signal.ioName, value)
    {
      if signal.state == value {
        return;
      }
      var updated := signal.(state := value);
      cache := cache[signal.ioName := updated];
      fired := fired + [updated];
    }

    method SetOutput(name: string, value: Value, digital: bool) returns (r: Result<(), DriverError>)
      requires Named(cache)
      modifies this
      ensures r.Success? <==>
              name in old(cache) && old(cache)[name].direction == OUT && (old(cache)[name].kind.Digital? <==> digital)
      ensures CurrentIo() == if r.Success? then Update(old(CurrentIo()), name, value) else old(CurrentIo())
    {
      match RequireOutput(cache, name, digital) {
        case Failure(e) =>
          return Failure(e);
        case Success(signal) =>
          ApplyValue(signal, value);
          return Success(());
      }
    }

    method ApplyMockChange(name: string, value: Value) returns (r: Result<(), DriverError>)
      requires Named(cache)
      modifies this
      ensures r.Success? <==> name in old(cache) && old(cache)[name].direction == IN
      ensures CurrentIo() == MockChange(old(CurrentIo()), name, value)
      ensures r.Failure? ==> CurrentIo() == old(CurrentIo())
      ensures r.Success? ==>
                CurrentIo() == Update(old(CurrentIo()), name, match (old(cache)[name].kind, value)
                                                              case (Digital, Float(x)) => Bool(x != 0.0)
                                                              case (Analog(_), Bool(b)) => Float(if b then 1.0 else 0.0)
                                                              case _ => value)
    {
      match RequireInput(cache, name) {
        case Failure(e) =>
          return Failure(e);
        case Success(signal) =>
          ApplyValue(signal, Coerce(signal.kind, value));
          return Success(());
      }
    }
  }
}
