/** The mapping block of a UR configuration: its signals, their uniqueness, and who owns which pin. */
module UrConfig {
  import opened ChangeLog
  import opened Sequences
  import opened Wrappers

  datatype Category = DigitalIn | DigitalOut | Flag | AnalogIn | AnalogOut

  datatype DigitalEntry = DigitalEntry(ioName: string, pin: nat, default: bool)
  datatype AnalogEntry = AnalogEntry(ioName: string, pin: nat, domain: Domain, default: real)
  datatype VoltageEntry = VoltageEntry(ioName: string, default: real)

  datatype UrMapping = UrMapping(
    digitalIn: seq<DigitalEntry>,
    digitalOut: seq<DigitalEntry>,
    flags: seq<DigitalEntry>,
    analogIn: seq<AnalogEntry>,
    analogOut: seq<AnalogEntry>,
    toolVoltage: seq<VoltageEntry>
  )

  datatype ConfigError = MissingName | DuplicateNames(names: set<string>) | DuplicatePin(category: Category, pin: nat)

  /** An entry of any pinned category. */
  datatype Entry = Entry(ioName: string, pin: nat, kind: Kind, default: Value)

  const CATEGORIES := [DigitalIn, DigitalOut, Flag, AnalogIn, AnalogOut]

  function FromDigital(e: DigitalEntry): Entry {
    Entry(e.ioName, e.pin, Digital, Bool(e.default))
  }

  function FromAnalog(e: AnalogEntry): Entry {
    Entry(e.ioName, e.pin, Analog(e.domain), Float(e.default))
  }

  function EntriesOf(m: UrMapping, c: Category): seq<Entry> {
    match c
    case DigitalIn => Map(FromDigital, m.digitalIn)
    case DigitalOut => Map(FromDigital, m.digitalOut)
    case Flag => Map(FromDigital, m.flags)
    case AnalogIn => Map(FromAnalog, m.analogIn)
    case AnalogOut => Map(FromAnalog, m.analogOut)
  }

  function DirectionOf(c: Category): Direction {
    if c == DigitalIn || c == AnalogIn then IN else OUT
  }

  /** The normalized signal of an entry, seeded with its default. */
  function SignalOf(c: Category, e: Entry): Signal {
    Signal(e.ioName, DirectionOf(c), e.kind, e.default, e.default)
  }

  function VoltageSignal(e: VoltageEntry): Signal {
    Signal(e.ioName, OUT, Analog(VOLTAGE), Float(e.default), Float(e.default))
  }

  /** The signals of a category; the sixth part is the tool voltage. */
  function Part(m: UrMapping, k: nat): seq<Signal>
    requires k < 6
  {
    if k < 5 then Map(e => SignalOf(CATEGORIES[k], e), EntriesOf(m, CATEGORIES[k]))
    else Map(VoltageSignal, m.toolVoltage)
  }

  function Parts(m: UrMapping): (parts: seq<seq<Signal>>)
    ensures |parts| == 6
  {
    seq(6, k requires 0 <= k < 6 => Part(m, k))
  }

  function SignalsOf(m: UrMapping): seq<Signal> {
    Flatten(Parts(m))
  }

  function DigitalSignal(d: Direction, e: DigitalEntry): Signal {
    Signal(e.ioName, d, Digital, Bool(e.default), Bool(e.default))
  }

  function AnalogSignal(d: Direction, domain: Domain, ioName: string, default: real): Signal {
    Signal(ioName, d, Analog(domain), Float(default), Float(default))
  }

  /** The signals block by block: who is read, who is written, and the default as the first state. */
  ghost predicate Normalized(m: UrMapping, signals: seq<Signal>) {
    signals == Map((e: DigitalEntry) => DigitalSignal(IN, e), m.digitalIn)
    + Map((e: DigitalEntry) => DigitalSignal(OUT, e), m.digitalOut)
    + Map((e: DigitalEntry) => DigitalSignal(OUT, e), m.flags)
    + Map((e: AnalogEntry) => AnalogSignal(IN, e.domain, e.ioName, e.default), m.analogIn)
    + Map((e: AnalogEntry) => AnalogSignal(OUT, e.domain, e.ioName, e.default), m.analogOut)
    + Map((e: VoltageEntry) => AnalogSignal(OUT, VOLTAGE, e.ioName, e.default), m.toolVoltage)
  }

  lemma FlattenSix<T>(a: seq<T>, b: seq<T>, c: seq<T>, d: seq<T>, e: seq<T>, f: seq<T>)
    ensures Flatten([a, b, c, d, e, f]) == a + b + c + d + e + f
  {
    assert Flatten<T>([]) == [];
    hide Flatten;
    FlattenSnoc([], a);
    FlattenSnoc([a], b);
    FlattenSnoc([a, b], c);
    FlattenSnoc([a, b, c], d);
    FlattenSnoc([a, b, c, d], e);
    FlattenSnoc([a, b, c, d, e], f);
    assert [] + [a] == [a] && [a] + [b] == [a, b] && [a, b] + [c] == [a, b, c];
    assert [a, b, c] + [d] == [a, b, c, d] && [a, b, c, d] + [e] == [a, b, c, d, e];
    assert [a, b, c, d, e] + [f] == [a, b, c, d, e, f] && [] + a == a;
  }

  lemma SignalsByPart(m: UrMapping)
    ensures SignalsOf(m) == Part(m, 0) + Part(m, 1) + Part(m, 2) + Part(m, 3) + Part(m, 4) + Part(m, 5)
  {
    hide Part, Flatten;
    FlattenSix(Part(m, 0), Part(m, 1), Part(m, 2), Part(m, 3), Part(m, 4), Part(m, 5));
    assert Parts(m) == [Part(m, 0), Part(m, 1), Part(m, 2), Part(m, 3), Part(m, 4), Part(m, 5)];
  }

  lemma SignalsAreNormalized(m: UrMapping)
    ensures Normalized(m, SignalsOf(m))
  {
    SignalsByPart(m);
    hide SignalsOf;
    assert Part(m, 0) == Map((e: DigitalEntry) => DigitalSignal(IN, e), m.digitalIn);
    assert Part(m, 1) == Map((e: DigitalEntry) => DigitalSignal(OUT, e), m.digitalOut);
    assert Part(m, 2) == Map((e: DigitalEntry) => DigitalSignal(OUT, e), m.flags);
    assert Part(m, 3) == Map((e: AnalogEntry) => AnalogSignal(IN, e.domain, e.ioName, e.default), m.analogIn);
    assert Part(m, 4) == Map((e: AnalogEntry) => AnalogSignal(OUT, e.domain, e.ioName, e.default), m.analogOut);
    assert Part(m, 5) == Map((e: VoltageEntry) => AnalogSignal(OUT, VOLTAGE, e.ioName, e.default), m.toolVoltage);
  }

  ghost predicate NamesPresent(signals: seq<Signal>) {
    forall i :: 0 <= i < |signals| ==> signals[i].ioName != ""
  }

  ghost predicate UniqueNames(signals: seq<Signal>) {
    forall i, j :: 0 <= i < j < |signals| ==> signals[i].ioName != signals[j].ioName
  }

  ghost predicate UniquePins(entries: seq<Entry>) {
    forall i, j :: 0 <= i < j < |entries| ==> entries[i].pin != entries[j].pin
  }

  ghost predicate PinsUnique(m: UrMapping) {
    forall c :: UniquePins(EntriesOf(m, c))
  }

  ghost predicate WellFormed(m: UrMapping) {
    NamesPresent(SignalsOf(m)) && UniqueNames(SignalsOf(m)) && PinsUnique(m)
  }

  /** The names that occur more than once. */
  method FindDuplicates(signals: seq<Signal>) returns (duplicates: set<string>)
    ensures duplicates == {} <==> UniqueNames(signals)
    ensures forall n :: n in duplicates <==>
                          exists i, j :: 0 <= i < j < |signals| && signals[i].ioName == n == signals[j].ioName
  {
    var seen: set<string> := {};
    duplicates := {};
    for k := 0 to |signals|
      invariant forall n :: n in seen <==> exists i :: 0 <= i < k && signals[i].ioName == n
      invariant forall n :: n in duplicates <==>
                              exists i, j :: 0 <= i < j < k && signals[i].ioName == n == signals[j].ioName
    {
      if signals[k].ioName in seen {
        duplicates := duplicates + {signals[k].ioName};
      }
      seen := seen + {signals[k].ioName};
    }
    if !UniqueNames(signals) {
      var i, j :| 0 <= i < j < |signals| && signals[i].ioName == signals[j].ioName;
      assert signals[i].ioName in duplicates;
    }
  }

  /** One category's entries join the list, up to the first without a name. */
  method AppendNamed(signals: seq<Signal>, part: seq<Signal>) returns (r: Result<seq<Signal>, ConfigError>)
    requires NamesPresent(signals)
    ensures r.Success? ==> r.value == signals + part && NamesPresent(r.value)
    ensures r.Failure? ==> r.error == MissingName && exists i :: 0 <= i < |part| && part[i].ioName == ""
  {
    var all := signals;
    for i := 0 to |part|
      invariant all == signals + part[..i] && NamesPresent(all)
    {
      if part[i].ioName == "" {
        return Failure(MissingName);
      }
      all := all + [part[i]];
    }
    assert part[..|part|] == part;
    return Success(all);
  }

  /** Normalization: the categories' entries in order, then the tool voltage; an empty name is refused. */
  method NormalizeUrMapping(m: UrMapping) returns (r: Result<seq<Signal>, ConfigError>)
    ensures r.Success? <==> NamesPresent(SignalsOf(m))
    ensures r.Success? ==> r.value == SignalsOf(m) && Normalized(m, r.value)
  {
    SignalsAreNormalized(m);
    var signals: seq<Signal> := [];
    ghost var parts := Parts(m);
    for k := 0 to 6
      invariant signals == Flatten(parts[..k]) && NamesPresent(signals)
    {
      var part := Part(m, k);
      assert parts[..k + 1] == parts[..k] + [part];
      FlattenSnoc(parts[..k], part);
      hide Part, Parts, Flatten, NamesPresent, Normalized;
      var appended := AppendNamed(signals, part);
      if appended.Failure? {
        var i :| 0 <= i < |part| && part[i].ioName == "";
        MissingNameShows(parts, k, i);
        return appended;
      }
      signals := appended.value;
    }
    assert parts[..6] == parts;
    return Success(signals);
  }

  lemma MissingNameShows(parts: seq<seq<Signal>>, k: nat, i: nat)
    requires k < |parts| && i < |parts[k]| && parts[k][i].ioName == ""
    ensures !NamesPresent(Flatten(parts))
  {
    PositionFinds(parts, k, i);
  }

  /** Unique names tell apart any two places of the mapping. */
  lemma PlacesHaveDistinctNames(m: UrMapping, k: nat, i: nat, k': nat, i': nat)
    requires UniqueNames(SignalsOf(m)) && k < 6 && k' < 6
    requires i < |Part(m, k)| && i' < |Part(m, k')|
    requires Part(m, k)[i].ioName == Part(m, k')[i'].ioName
    ensures k == k' && i == i'
  {
    PositionFinds(Parts(m), k, i);
    PositionFinds(Parts(m), k', i');
    if k < k' {
      PositionsIncrease(Parts(m), k, i, k', i');
    } else if k' < k {
      PositionsIncrease(Parts(m), k', i', k, i);
    }
  }

  /** The read index of one category: the last entry for a pin, which is its only one once pins are unique. */
  function PinMap(entries: seq<Entry>): map<nat, string> {
    if entries == [] then map[] else PinMap(entries[..|entries| - 1])[Last(entries).pin := Last(entries).ioName]
  }

  lemma {:induction false} PinMapFinds(entries: seq<Entry>, pin: nat) returns (i: nat)
    requires pin in PinMap(entries)
    ensures i < |entries| && entries[i].pin == pin && entries[i].ioName == PinMap(entries)[pin]
  {
    var n := |entries| - 1;
    if entries[n].pin == pin {
      i := n;
    } else {
      i := PinMapFinds(entries[..n], pin);
    }
  }

  lemma {:induction false} PinMapHas(entries: seq<Entry>, i: nat)
    requires UniquePins(entries) && i < |entries|
    ensures entries[i].pin in PinMap(entries) && PinMap(entries)[entries[i].pin] == entries[i].ioName
  {
    var n := |entries| - 1;
    if i < n {
      PinMapHas(entries[..n], i);
      assert entries[i].pin != entries[n].pin;
    }
  }

  /** The first `i` entries repeat no pin, and make up the map. */
  ghost predicate Pinned(entries: seq<Entry>, i: nat, pins: map<nat, string>)
    requires i <= |entries|
  {
    UniquePins(entries[..i]) && pins == PinMap(entries[..i])
  }

  lemma PinnedFromStart(entries: seq<Entry>)
    ensures Pinned(entries, 0, map[])
  {
    assert entries[..0] == [];
  }

  /** A pin that is already mapped is a repeated one; any other extends the map. */
  lemma PinnedNext(entries: seq<Entry>, i: nat, pins: map<nat, string>)
    requires i < |entries| && Pinned(entries, i, pins)
    ensures if entries[i].pin in pins then !UniquePins(entries)
            else Pinned(entries, i + 1, pins[entries[i].pin := entries[i].ioName])
  {
    assert entries[..i + 1][..i] == entries[..i];
    if entries[i].pin in pins {
      var j := PinMapFinds(entries[..i], entries[i].pin);
      assert entries[j].pin == entries[i].pin;
    } else {
      forall j | 0 <= j < i
        ensures entries[j].pin != entries[i].pin
      {
        PinMapHas(entries[..i], j);
      }
    }
  }

  lemma PinnedToEnd(entries: seq<Entry>, pins: map<nat, string>)
    requires Pinned(entries, |entries|, pins)
    ensures UniquePins(entries) && pins == PinMap(entries)
  {
    assert entries[..|entries|] == entries;
  }

  function IndexOf(c: Category): (k: nat)
    ensures k < 5 && CATEGORIES[k] == c
  {
    match c
    case DigitalIn => 0
    case DigitalOut => 1
    case Flag => 2
    case AnalogIn => 3
    case AnalogOut => 4
  }

  /** After a successful configuration a name is read from one category and one pin. */
  lemma ReadIndexIsOneToOne(m: UrMapping, c: Category, pin: nat, c': Category, pin': nat)
    requires WellFormed(m)
    requires pin in PinMap(EntriesOf(m, c)) && pin' in PinMap(EntriesOf(m, c'))
    requires PinMap(EntriesOf(m, c))[pin] == PinMap(EntriesOf(m, c'))[pin']
    ensures c == c' && pin == pin'
  {
    var i := PinMapFinds(EntriesOf(m, c), pin);
    var i' := PinMapFinds(EntriesOf(m, c'), pin');
    assert Part(m, IndexOf(c))[i].ioName == Part(m, IndexOf(c'))[i'].ioName;
    PlacesHaveDistinctNames(m, IndexOf(c), i, IndexOf(c'), i');
  }
}
