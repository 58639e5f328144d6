/** The cached signals of a driver and the change callbacks that report them. */
module ChangeLog {
  import opened Sequences

  datatype Direction = IN | OUT
  datatype Domain = VOLTAGE | CURRENT
  datatype Kind = Digital | Analog(domain: Domain)

  /** A signal's state: the source's `bool` or `float`. */
  datatype Value = Bool(b: bool) | Float(r: real)

  datatype Signal = Signal(ioName: string, direction: Direction, kind: Kind, default: Value, state: Value)

  /** A driver's cache, and every signal it passed to the change callback, in order. */
  datatype Io = Io(cache: map<string, Signal>, fired: seq<Signal>)

  datatype Write = Write(ioName: string, value: Value)

  function OfBool(b: bool): Value {
    Bool(b)
  }

  function OfFloat(r: real): Value {
    Float(r)
  }

  predicate Fits(kind: Kind, v: Value) {
    kind.Digital? <==> v.Bool?
  }

  /** Entries are filed under their own names. */
  ghost predicate Named(cache: map<string, Signal>) {
    forall n :: n in cache ==> cache[n].ioName == n
  }

  /** Entries hold values of their own kind. */
  ghost predicate WellTyped(cache: map<string, Signal>) {
    forall n :: n in cache ==> Fits(cache[n].kind, cache[n].state)
  }

  /** Compare and swap: an unknown name or an unchanged value does nothing. */
  function Update(io: Io, name: string, value: Value): Io {
    if name !in io.cache || io.cache[name].state == value then io
    else
      var updated := io.cache[name].(state := value);
      Io(io.cache[name := updated], io.fired + [updated])
  }

  function UpdateAll(io: Io, writes: seq<Write>): Io
    decreases |writes|
  {
    if writes == [] then io else UpdateAll(Update(io, writes[0].ioName, writes[0].value), writes[1..])
  }

  lemma {:induction false} UpdateAllAppend(io: Io, before: seq<Write>, after: seq<Write>)
    ensures UpdateAll(io, before + after) == UpdateAll(UpdateAll(io, before), after)
    decreases |before|
  {
    if before == [] {
      assert before + after == after;
    } else {
      assert (before + after)[1..] == before[1..] + after;
      UpdateAllAppend(Update(io, before[0].ioName, before[0].value), before[1..], after);
    }
  }

  lemma UpdateAllSnoc(io: Io, writes: seq<Write>, w: Write)
    ensures UpdateAll(io, writes + [w]) == Update(UpdateAll(io, writes), w.ioName, w.value)
  {
    UpdateAllAppend(io, writes, [w]);
    assert UpdateAll(UpdateAll(io, writes), [w]) == UpdateAll(Update(UpdateAll(io, writes), w.ioName, w.value), []);
  }

  // Three readings of the log that do not mention how it was produced.

  /** What a listener believes after hearing `changes`. */
  function Replay(cache: map<string, Signal>, changes: seq<Signal>): map<string, Signal> {
    if changes == [] then cache
    else Replay(cache, changes[..|changes| - 1])[changes[|changes| - 1].ioName := changes[|changes| - 1]]
  }

  /** `s` alters the state, and only the state, of a signal in the cache. */
  predicate IsChange(cache: map<string, Signal>, s: Signal) {
    s.ioName in cache && s.state != cache[s.ioName].state && s == cache[s.ioName].(state := s.state)
  }

  /** Every change alters a signal that the listener already knows. */
  ghost predicate EachIsAChange(base: map<string, Signal>, changes: seq<Signal>) {
    forall i :: 0 <= i < |changes| ==> IsChange(Replay(base, changes[..i]), changes[i])
  }

  /** The log tells a listener who knows `base` exactly what the cache holds. */
  ghost predicate Faithful(base: map<string, Signal>, io: Io) {
    io.cache.Keys == base.Keys && Replay(base, io.fired) == io.cache && EachIsAChange(base, io.fired)
  }

  lemma ReplaySnoc(base: map<string, Signal>, changes: seq<Signal>, s: Signal)
    ensures Replay(base, changes + [s]) == Replay(base, changes)[s.ioName := s]
  {
    assert (changes + [s])[..|changes|] == changes;
  }

  lemma EachIsAChangeSnoc(base: map<string, Signal>, changes: seq<Signal>, s: Signal)
    requires EachIsAChange(base, changes) && IsChange(Replay(base, changes), s)
    ensures EachIsAChange(base, changes + [s])
  {
    hide IsChange, Replay;
    var more := changes + [s];
    forall i | 0 <= i < |more|
      ensures IsChange(Replay(base, more[..i]), more[i])
    {
      assert more[..i] == changes[..i];
      assert i == |changes| ==> changes[..i] == changes;
    }
  }

  lemma UpdateKeepsFaithful(base: map<string, Signal>, io: Io, name: string, value: Value)
    requires Faithful(base, io) && Named(io.cache)
    ensures Faithful(base, Update(io, name, value))
  {
    var io' := Update(io, name, value);
    if io' != io {
      var updated := io.cache[name].(state := value);
      assert IsChange(io.cache, updated);
      hide EachIsAChange, Replay, IsChange;
      ReplaySnoc(base, io.fired, updated);
      EachIsAChangeSnoc(base, io.fired, updated);
    }
  }

  /** Two successive changes of one signal differ in value. */
  lemma SuccessiveChangesDiffer(base: map<string, Signal>, changes: seq<Signal>, i: nat, j: nat)
    requires EachIsAChange(base, changes) && i < j < |changes| && changes[i].ioName == changes[j].ioName
    requires forall k :: i < k < j ==> changes[k].ioName != changes[i].ioName
    ensures changes[i].state != changes[j].state
  {
    ReplayRemembers(base, changes, i, j);
  }

  lemma {:induction false} ReplayRemembers(base: map<string, Signal>, changes: seq<Signal>, i: nat, j: nat)
    requires i < j <= |changes|
    requires forall k :: i < k < j ==> changes[k].ioName != changes[i].ioName
    ensures var after := Replay(base, changes[..j]);
      changes[i].ioName in after && after[changes[i].ioName] == changes[i]
    decreases j
  {
    var m := j - 1;
    assert changes[..j][..m] == changes[..m];
    if m > i {
      ReplayRemembers(base, changes, i, m);
    }
  }

  // What a signal's own stream of changes is, as a function of what was written to it.

  function ValuesFor(writes: seq<Write>, name: string): seq<Value>
    decreases |writes|
  {
    if writes == [] then []
    else (if writes[0].ioName == name then [writes[0].value] else []) + ValuesFor(writes[1..], name)
  }

  lemma {:induction false} ValuesForAppend(a: seq<Write>, b: seq<Write>, name: string)
    ensures ValuesFor(a + b, name) == ValuesFor(a, name) + ValuesFor(b, name)
    decreases |a|
  {
    if a == [] {
      assert a + b == b;
    } else {
      assert (a + b)[1..] == a[1..] + b;
      ValuesForAppend(a[1..], b, name);
      var head := if a[0].ioName == name then [a[0].value] else [];
      assert ValuesFor(a, name) == head + ValuesFor(a[1..], name);
      assert ValuesFor(a + b, name) == head + ValuesFor(a[1..] + b, name);
      AppendAssociates(head, ValuesFor(a[1..], name), ValuesFor(b, name));
      hide ValuesFor;
    }
  }

  function StatesOf(changes: seq<Signal>, name: string): seq<Value>
    decreases |changes|
  {
    if changes == [] then []
    else (if changes[0].ioName == name then [changes[0].state] else []) + StatesOf(changes[1..], name)
  }

  /** The values that differ from the one before them. */
  function Distinct(current: Value, values: seq<Value>): seq<Value>
    decreases |values|
  {
    if values == [] then []
    else if values[0] == current then Distinct(current, values[1..])
    else [values[0]] + Distinct(values[0], values[1..])
  }

  function LastOr(current: Value, values: seq<Value>): Value {
    if values == [] then current else values[|values| - 1]
  }

  /** A state that follows its entries in `pairs`: the last one's value, or its old value without any. */
  ghost predicate FollowsLast<K, V>(before: Value, after: Value, pairs: seq<(K, V)>, key: K, wrap: V -> Value) {
    && (forall i :: IsLastFor(pairs, key, i) ==> after == wrap(pairs[i].1))
    && ((forall i :: 0 <= i < |pairs| ==> pairs[i].0 != key) ==> after == before)
  }

  lemma LastOrFollows<K, V>(before: Value, pairs: seq<(K, V)>, key: K, wrap: V -> Value)
    ensures FollowsLast(before, LastOr(before, Map(wrap, ValuesAt(pairs, key))), pairs, key, wrap)
  {
    forall i | IsLastFor(pairs, key, i)
      ensures LastOr(before, Map(wrap, ValuesAt(pairs, key))) == wrap(pairs[i].1)
    {
      ValuesAtLast(pairs, key, i);
    }
    if forall i :: 0 <= i < |pairs| ==> pairs[i].0 != key {
      ValuesAtNone(pairs, key);
    }
  }

  lemma {:induction false} StatesOfSnoc(changes: seq<Signal>, s: Signal, name: string)
    ensures StatesOf(changes + [s], name) == StatesOf(changes, name) + (if s.ioName == name then [s.state] else [])
    decreases |changes|
  {
    if changes != [] {
      assert (changes + [s])[1..] == changes[1..] + [s];
      StatesOfSnoc(changes[1..], s, name);
    }
  }

  /** Updating keeps every signal's identity: only states move. */
  ghost predicate SameSignals(cache: map<string, Signal>, cache': map<string, Signal>) {
    && cache'.Keys == cache.Keys
    && forall n :: n in cache ==> cache'[n] == cache[n].(state := cache'[n].state)
  }

  lemma UpdatePerSignal(io: Io, w: Write, name: string)
    requires name in io.cache && Named(io.cache)
    ensures var io' := Update(io, w.ioName, w.value);
      && SameSignals(io.cache, io'.cache)
      && Named(io'.cache)
      && io'.cache[name].state == LastOr(io.cache[name].state, ValuesFor([w], name))
      && StatesOf(io'.fired, name) == StatesOf(io.fired, name) + Distinct(io.cache[name].state, ValuesFor([w], name))
  {
    var io' := Update(io, w.ioName, w.value);
    if io' != io {
      StatesOfSnoc(io.fired, io'.cache[w.ioName], name);
    }
  }

  lemma DistinctCons(current: Value, first: seq<Value>, rest: seq<Value>)
    requires |first| <= 1
    ensures Distinct(current, first + rest) == Distinct(current, first) + Distinct(LastOr(current, first), rest)
    ensures LastOr(current, first + rest) == LastOr(LastOr(current, first), rest)
  {
    if first == [] {
      assert first + rest == rest;
    } else {
      assert (first + rest)[1..] == rest && first[1..] == [];
    }
  }

  /**
   The exact effect of a list of writes on one signal: it ends at the last value written to it, the
   callbacks fired for it are the written values that differ from the one before, and a signal that no
   write names is untouched.
   */
  lemma {:induction false} UpdateAllPerSignal(io: Io, writes: seq<Write>, name: string)
    requires name in io.cache && Named(io.cache)
    ensures var io' := UpdateAll(io, writes);
      && SameSignals(io.cache, io'.cache)
      && io'.cache[name].state == LastOr(io.cache[name].state, ValuesFor(writes, name))
      && StatesOf(io'.fired, name)
         == StatesOf(io.fired, name) + Distinct(io.cache[name].state, ValuesFor(writes, name))
    decreases |writes|
  {
    if writes != [] {
      var w, rest := writes[0], writes[1..];
      UpdatePerSignal(io, w, name);
      UpdateAllPerSignal(Update(io, w.ioName, w.value), rest, name);
      assert ValuesFor(writes, name) == ValuesFor([w], name) + ValuesFor(rest, name);
      DistinctCons(io.cache[name].state, ValuesFor([w], name), ValuesFor(rest, name));
      AppendAssociates(StatesOf(io.fired, name), Distinct(io.cache[name].state, ValuesFor([w], name)),
                       Distinct(Update(io, w.ioName, w.value).cache[name].state, ValuesFor(rest, name)));
      hide Update, ValuesFor, Distinct, LastOr, StatesOf;
    }
  }

  /** What holds in every reachable configured state, `base` being the seeded cache. */
  ghost predicate Sound(base: map<string, Signal>, io: Io) {
    Faithful(base, io) && Named(io.cache) && WellTyped(io.cache) && SameSignals(base, io.cache)
  }

  lemma UpdateKeeps(base: map<string, Signal>, io: Io, w: Write)
    requires Sound(base, io) && (w.ioName in base ==> Fits(base[w.ioName].kind, w.value))
    ensures Sound(base, Update(io, w.ioName, w.value))
  {
    UpdateKeepsFaithful(base, io, w.ioName, w.value);
    hide Faithful;
  }

  lemma {:induction false} UpdateAllKeeps(base: map<string, Signal>, io: Io, writes: seq<Write>)
    requires Sound(base, io)
    requires forall i :: 0 <= i < |writes| && writes[i].ioName in base ==>
                           Fits(base[writes[i].ioName].kind, writes[i].value)
    ensures Sound(base, UpdateAll(io, writes))
    decreases |writes|
  {
    if writes != [] {
      UpdateKeeps(base, io, writes[0]);
      hide Sound, Update, Fits;
      UpdateAllKeeps(base, Update(io, writes[0].ioName, writes[0].value), writes[1..]);
    }
  }
}
