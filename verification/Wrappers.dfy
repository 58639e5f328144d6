/** The failure-compatible results used across the model. */
module Wrappers {

  datatype Option<+T> = None | Some(value: T)

  /** A returned value, or what was raised instead. */
  datatype Result<+T, +E> = Success(value: T) | Failure(error: E)
}

/** Sequences of sequences, as the goal and its groups use them. */
module Sequences {

  function Last<T>(s: seq<T>): T
    requires s != []
  {
    s[|s| - 1]
  }

  function Map<A, B>(f: A -> B, s: seq<A>): (r: seq<B>)
    ensures |r| == |s|
    ensures forall i :: 0 <= i < |s| ==> r[i] == f(s[i])
  {
    seq(|s|, i requires 0 <= i < |s| => f(s[i]))
  }

  function Flatten<T>(parts: seq<seq<T>>): seq<T> {
    if parts == [] then [] else parts[0] + Flatten(parts[1..])
  }

  lemma AppendAssociates<T>(a: seq<T>, b: seq<T>, c: seq<T>)
    ensures a + (b + c) == (a + b) + c
  {
  }

  lemma {:induction false} FlattenAppend<T>(parts: seq<seq<T>>, more: seq<seq<T>>)
    ensures Flatten(parts + more) == Flatten(parts) + Flatten(more)
  {
    if parts == [] {
      assert parts + more == more;
    } else {
      var rest := parts[1..];
      assert Flatten(parts + more) == parts[0] + Flatten(rest + more) by {
        assert (parts + more)[1..] == rest + more;
      }
      FlattenAppend(rest, more);
      AppendAssociates(parts[0], Flatten(rest), Flatten(more));
    }
  }

  lemma FlattenSnoc<T>(parts: seq<seq<T>>, part: seq<T>)
    ensures Flatten(parts + [part]) == Flatten(parts) + part
  {
    FlattenAppend(parts, [part]);
    assert Flatten([part]) == part;
  }

  /** Cutting a list of parts anywhere cuts its flattening at the same place. */
  lemma FlattenSplit<T>(parts: seq<seq<T>>, k: nat)
    requires k <= |parts|
    ensures Flatten(parts) == Flatten(parts[..k]) + Flatten(parts[k..])
  {
    assert parts == parts[..k] + parts[k..];
    FlattenAppend(parts[..k], parts[k..]);
    hide Flatten;
  }

  /** Where element `j` of part `k` stands in the flattening. */
  function Position<T>(parts: seq<seq<T>>, k: nat, j: nat): nat
    requires k < |parts|
  {
    |Flatten(parts[..k])| + j
  }

  lemma PositionFinds<T>(parts: seq<seq<T>>, k: nat, j: nat)
    requires k < |parts| && j < |parts[k]|
    ensures Position(parts, k, j) < |Flatten(parts)| && Flatten(parts)[Position(parts, k, j)] == parts[k][j]
    ensures j + 1 == |parts[k]| && k + 1 < |parts| ==> Position(parts, k + 1, 0) == Position(parts, k, j) + 1
    ensures j + 1 == |parts[k]| && k + 1 == |parts| ==> Position(parts, k, j) + 1 == |Flatten(parts)|
  {
    FlattenSplit(parts, k);
    FlattenSplit(parts, k + 1);
    assert Flatten<T>([]) == [];
    hide Flatten;
    assert parts[..k + 1] == parts[..k] + [parts[k]];
    FlattenSnoc(parts[..k], parts[k]);
    assert k + 1 == |parts| ==> parts[k + 1..] == [];
    assert k + 1 == |parts| ==> parts[..k + 1] == parts;
  }

  lemma PositionsIncrease<T>(parts: seq<seq<T>>, k: nat, j: nat, k': nat, j': nat)
    requires k < k' < |parts| && j < |parts[k]|
    ensures Position(parts, k, j) < Position(parts, k', j')
  {
    assert parts[..k + 1] == parts[..k] + [parts[k]];
    FlattenSnoc(parts[..k], parts[k]);
    FlattenSplit(parts[..k'], k + 1);
    assert parts[..k'][..k + 1] == parts[..k + 1];
  }

  /** The values listed under `key`, in order. */
  function ValuesAt<K(==), V>(pairs: seq<(K, V)>, key: K): seq<V> {
    if pairs == [] then []
    else ValuesAt(pairs[..|pairs| - 1], key) + (if Last(pairs).0 == key then [Last(pairs).1] else [])
  }

  /** Entry `i` is the last one for `key`. */
  ghost predicate IsLastFor<K, V>(pairs: seq<(K, V)>, key: K, i: int) {
    0 <= i < |pairs| && pairs[i].0 == key && forall j :: i < j < |pairs| ==> pairs[j].0 != key
  }

  lemma {:induction false} ValuesAtNone<K, V>(pairs: seq<(K, V)>, key: K)
    requires forall i :: 0 <= i < |pairs| ==> pairs[i].0 != key
    ensures ValuesAt(pairs, key) == []
  {
    if pairs != [] {
      ValuesAtNone(pairs[..|pairs| - 1], key);
    }
  }

  lemma {:induction false} ValuesAtLast<K, V>(pairs: seq<(K, V)>, key: K, i: nat)
    requires IsLastFor(pairs, key, i)
    ensures ValuesAt(pairs, key) != [] && Last(ValuesAt(pairs, key)) == pairs[i].1
  {
    var n := |pairs| - 1;
    if i < n {
      assert pairs[n].0 != key;
      ValuesAtLast(pairs[..n], key, i);
    }
  }
}

/** Powers of two, of a halved bracket and of a halved weight. */
module Powers {

  function Power2(k: nat): (p: real)
    ensures p >= 1.0
  {
    if k == 0 then 1.0 else 2.0 * Power2(k - 1)
  }
}
