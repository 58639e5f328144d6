/** The camera node's brightness estimate, its search loop and the table of remembered exposures. */
module Brightness {
  import opened Powers
  import opened SamplingIndices
  import opened Sequences
  import opened Wrappers

  type Byte = x: int | 0 <= x < 256

  // The mean of the image.

  function Total(s: seq<Byte>): nat {
    if s == [] then 0 else Total(s[..|s| - 1]) + Last(s)
  }

  function Mean(s: seq<Byte>): real {
    if s == [] then 0.0 else Total(s) as real / |s| as real
  }

  lemma AllBelowSplit(indices: seq<nat>, bound: nat)
    requires indices != []
    ensures AllBelow(indices, bound) <==> AllBelow(indices[..|indices| - 1], bound) && Last(indices) < bound
  {
    var front, last := indices[..|indices| - 1], Last(indices);
    assert indices == front + [last];
    assert forall j :: j in indices <==> j in front || j == last;
    assert last in indices;
  }

  /** The sampled pixels. */
  function Picked(data: seq<Byte>, indices: seq<nat>): (p: seq<Byte>)
    requires AllBelow(indices, |data|)
    ensures |p| == |indices|
  {
    if indices == [] then []
    else
      AllBelowSplit(indices, |data|);
      Picked(data, indices[..|indices| - 1]) + [data[Last(indices)]]
  }

  /** `vector::at` raised, or the `int` accumulator of a sum overflowed, which C++ leaves undefined. */
  datatype Fault = OutOfRange | Overflow

  const MAX_INT := 0x7FFF_FFFF

  /** Sums of that many bytes always fit the accumulator. */
  const MAX_ACCUMULATED := 8421504

  lemma {:induction false} TotalBounds(s: seq<Byte>, lo: nat, hi: nat)
    requires forall i :: 0 <= i < |s| ==> lo <= s[i] <= hi
    ensures lo * |s| <= Total(s) <= hi * |s|
  {
    if s != [] {
      var rest := s[..|s| - 1];
      TotalBounds(rest, lo, hi);
      assert lo * |s| == lo * |rest| + lo && hi * |s| == hi * |rest| + hi;
    }
  }

  /** A mean lies between the darkest and the brightest sample, hence within a byte's range. */
  lemma MeanBounds(s: seq<Byte>, lo: nat, hi: nat)
    requires s != [] && forall i :: 0 <= i < |s| ==> lo <= s[i] <= hi
    ensures lo as real <= Mean(s) <= hi as real
  {
    TotalBounds(s, lo, hi);
    QuotientBetween(Total(s), |s|, lo, hi);
  }

  lemma QuotientBetween(total: nat, n: nat, lo: nat, hi: nat)
    requires n > 0 && lo * n <= total <= hi * n
    ensures lo as real <= total as real / n as real <= hi as real
  {
    var t, m := total as real, n as real;
    assert (lo * n) as real == lo as real * m && (hi * n) as real == hi as real * m;
    assert t / m * m == t;
  }

  lemma PickedSnoc(data: seq<Byte>, indices: seq<nat>, i: nat)
    requires AllBelow(indices, |data|) && i < |data|
    ensures AllBelow(indices + [i], |data|)
    ensures Total(Picked(data, indices + [i])) == Total(Picked(data, indices)) + data[i]
  {
    var more := indices + [i];
    AllBelowSplit(more, |data|);
    assert more[..|indices|] == indices;
    assert Picked(data, more) == Picked(data, indices) + [data[i]];
    assert (Picked(data, indices) + [data[i]])[..|indices|] == Picked(data, indices);
  }

  method SampledMean(data: seq<Byte>, indices: seq<nat>) returns (r: Result<real, Fault>)
    ensures r.Success? <==> AllBelow(indices, |data|)
    ensures r.Success? ==> r.value == Mean(Picked(data, indices)) && 0.0 <= r.value <= 255.0
    ensures r.Failure? ==> r.error == OutOfRange
  {
    var sum := 0.0;
    for i := 0 to |indices|
      invariant AllBelow(indices[..i], |data|)
      invariant sum == Total(Picked(data, indices[..i])) as real
    {
      assert indices[i] in indices;
      if indices[i] >= |data| {
        return Failure(OutOfRange);
      }
      PickedSnoc(data, indices[..i], indices[i]);
      assert indices[..i + 1] == indices[..i] + [indices[i]];
      sum := sum + data[indices[i]] as real;
    }
    assert indices[..|indices|] == indices;
    if |indices| > 0 {
      sum := sum / |indices| as real;
      MeanBounds(Picked(data, indices), 0, 255);
    }
    return Success(sum);
  }

  lemma {:induction false} PrefixTotal(data: seq<Byte>, i: nat)
    requires i <= |data|
    ensures Total(data[..i]) <= Total(data)
    decreases |data| - i
  {
    if i == |data| {
      assert data[..i] == data;
    } else {
      PrefixTotal(data, i + 1);
      assert data[..i + 1][..i] == data[..i];
    }
  }

  /** All bytes, summed in an `int`: the sum overflows somewhere exactly when the total does not fit. */
  method FullMean(data: seq<Byte>) returns (r: Result<real, Fault>)
    requires data != []
    ensures r.Success? <==> Total(data) <= MAX_INT
    ensures r.Success? ==> r.value == Mean(data) && 0.0 <= r.value <= 255.0
    ensures r.Failure? ==> r.error == Overflow
  {
    var accumulator: nat := 0;
    for i := 0 to |data|
      invariant accumulator == Total(data[..i]) <= MAX_INT
    {
      assert data[..i + 1][..i] == data[..i];
      PrefixTotal(data, i + 1);
      if accumulator + data[i] > MAX_INT {
        return Failure(Overflow);
      }
      accumulator := accumulator + data[i];
    }
    assert data[..|data|] == data;
    MeanBounds(data, 0, 255);
    return Success(accumulator as real / |data| as real);
  }

  /** The bound is sharp: one white byte more overflows. */
  lemma SmallImagesFit(data: seq<Byte>)
    ensures |data| <= MAX_ACCUMULATED ==> Total(data) <= MAX_INT
    ensures |data| == MAX_ACCUMULATED + 1 && (forall i :: 0 <= i < |data| ==> data[i] == 255) ==> Total(data) > MAX_INT
  {
    TotalBounds(data, 0, 255);
    if forall i :: 0 <= i < |data| ==> data[i] == 255 {
      TotalBounds(data, 255, 255);
    }
  }

  lemma WhiteImageOverflows()
    ensures var white: seq<Byte> := seq(MAX_ACCUMULATED + 1, _ => 255);
      BrightnessOf(Picture(white, 1, MAX_ACCUMULATED + 1, false), []) == Failure(Overflow)
  {
    SmallImagesFit(seq(MAX_ACCUMULATED + 1, _ => 255));
  }

  /** A mono image of the expected size is sampled. */
  predicate IsSampled(data: seq<Byte>, height: nat, width: nat, mono: bool) {
    mono && data != [] && |data| == Pixels(height, width)
  }

  /** An image message, as far as the estimate reads it. */
  datatype Picture = Picture(data: seq<Byte>, height: nat, width: nat, mono: bool)

  function BrightnessOf(p: Picture, indices: seq<nat>): (r: Result<real, Fault>)
    ensures r.Success? ==> 0.0 <= r.value <= 255.0
  {
    if !p.mono then
      if Total(p.data) > MAX_INT then Failure(Overflow) else MeanIsByte(p.data); Success(Mean(p.data))
    else if !IsSampled(p.data, p.height, p.width, p.mono) then Success(0.0)
    else if !AllBelow(indices, |p.data|) then Failure(OutOfRange)
    else MeanIsByte(Picked(p.data, indices)); Success(Mean(Picked(p.data, indices)))
  }

  lemma MeanIsByte(s: seq<Byte>)
    ensures 0.0 <= Mean(s) <= 255.0
  {
    if s != [] {
      MeanBounds(s, 0, 255);
    }
  }

  /**
   The sampled mean of a mono image of the expected size, the full mean of a colour image. Only a bad index
   raises, and only a colour image whose bytes do not add up within an `int` overflows.
   */
  method CalcCurrentBrightness(p: Picture, indices: seq<nat>) returns (r: Result<real, Fault>)
    ensures r == BrightnessOf(p, indices)
    ensures r == Failure(OutOfRange) <==>
              IsSampled(p.data, p.height, p.width, p.mono) && !AllBelow(indices, |p.data|)
    ensures r == Failure(Overflow) <==> !p.mono && Total(p.data) > MAX_INT
    ensures r.Success? ==>
              r.value == if !p.mono then Mean(p.data)
                         else if IsSampled(p.data, p.height, p.width, p.mono) then Mean(Picked(p.data, indices))
                         else 0.0
    ensures r.Success? ==> 0.0 <= r.value <= 255.0
  {
    if p.data == [] {
      return Success(0.0);
    }
    if p.mono {
      if |p.data| != Pixels(p.height, p.width) {
        return Success(0.0);
      }
      r := SampledMean(p.data, indices);
    } else {
      r := FullMean(p.data);
    }
  }

  /** Setting up the samples for a mono image and averaging them raises exactly when its corner overruns. */
  method EstimateBrightness(data: seq<Byte>, rows: nat, cols: nat, downsamplingFactor: nat, quotient: real)
    returns (r: Result<real, Fault>)
    requires cols >= 1 && rows >= downsamplingFactor >= 1 && |data| == Pixels(rows, cols)
    requires SingleQuotient(rows, downsamplingFactor, quotient)
    ensures r.Failure? <==> CornerOverrun(rows, cols, rows / downsamplingFactor)
    ensures r.Success? ==> 0.0 <= r.value <= 255.0
  {
    hide Pushed, Pixels, CornerOverrun, AllBelow, Sorted, SingleQuotient;
    var sampler := new Sampler(rows, cols);
    sampler.SetupSamplingIndices(downsamplingFactor, quotient);
    SafeIff(rows, cols, rows / downsamplingFactor);
    SameElementsBelow(sampler.indices,
                      [Pixels(rows, cols) / 2] + Pushed(Image(rows, cols), rows / downsamplingFactor, cols),
                      Pixels(rows, cols));
    PixelsPositive(rows, cols);
    r := CalcCurrentBrightness(Picture(data, rows, cols, true), sampler.indices);
    assert r.Failure? ==> r.error.OutOfRange?;
  }

  lemma {:induction false} TotalWithout(s: seq<Byte>, i: nat)
    requires i < |s|
    ensures Total(s) == s[i] + Total(s[..i] + s[i + 1..])
  {
    var n := |s| - 1;
    if i < n {
      TotalWithout(s[..n], i);
      assert s[..n][..i] + s[..n][i + 1..] == (s[..i] + s[i + 1..])[..n - 1];
    } else {
      assert s[..i] + s[i + 1..] == s[..n];
    }
  }

  /** Sorting the samples does not change their mean. */
  lemma {:induction false} MeanIgnoresOrder(a: seq<Byte>, b: seq<Byte>)
    requires multiset(a) == multiset(b)
    ensures Total(a) == Total(b) && |a| == |b| && Mean(a) == Mean(b)
    decreases |a|
  {
    assert |a| == |multiset(a)| == |multiset(b)| == |b|;
    if a != [] {
      var n := |a| - 1;
      var x, front := a[n], a[..n];
      assert a == front + [x];
      assert x in multiset(b);
      var i :| 0 <= i < |b| && b[i] == x;
      var rest := b[..i] + b[i + 1..];
      TotalWithout(b, i);
      WithoutOne(b, i);
      assert multiset(front) == multiset(a) - multiset{x} == multiset(rest);
      MeanIgnoresOrder(front, rest);
    }
  }

  lemma WithoutOne(s: seq<Byte>, i: nat)
    requires i < |s|
    ensures multiset(s[..i] + s[i + 1..]) == multiset(s) - multiset{s[i]}
  {
    assert s == s[..i] + ([s[i]] + s[i + 1..]);
  }

  // The table of remembered exposures; 0 marks an entry never recorded.

  datatype Search = Search(reached: nat, target: nat, exposure: real)

  predicate Plausible(search: Search) {
    search.reached < 256 && search.target < 256 && search.exposure > 0.0
  }

  function Blend(entry: real, exposure: real): real {
    if entry == 0.0 then exposure else (entry + exposure) * 0.5
  }

  function RecordAt(table: seq<real>, i: nat, exposure: real): seq<real>
    requires i < |table|
  {
    table[i := Blend(table[i], exposure)]
  }

  /** The reached entry first, then the target's, which is the same entry when they are equal. */
  function Record(table: seq<real>, search: Search): seq<real>
    requires |table| == 256 && Plausible(search)
  {
    RecordAt(RecordAt(table, search.reached, search.exposure), search.target, search.exposure)
  }

  /**
   An unused entry takes the exposure over; a used one halves its distance to it, and halves it again when it is
   both the reached entry and the target's. No other entry moves.
   */
  ghost predicate Approaches(before: seq<real>, after: seq<real>, search: Search)
    requires |before| == |after| == 256
  {
    forall i :: 0 <= i < 256 ==>
      if i != search.reached && i != search.target then after[i] == before[i]
      else if before[i] == 0.0 then after[i] == search.exposure
      else if search.reached != search.target then
        after[i] - search.exposure == (before[i] - search.exposure) / 2.0
      else before[i] > 0.0 ==> after[i] - search.exposure == (before[i] - search.exposure) / 4.0
  }

  function RecordAll(table: seq<real>, searches: seq<Search>): (t: seq<real>)
    requires |table| == 256 && forall s :: s in searches ==> Plausible(s)
    ensures |t| == 256
  {
    if searches == [] then table else Record(RecordAll(table, searches[..|searches| - 1]), Last(searches))
  }

  /** The exposures recorded for an entry: one for reaching it and one for aiming at it. */
  function ExposuresFor(searches: seq<Search>, i: nat): seq<real> {
    if searches == [] then []
    else
      var last := Last(searches);
      ExposuresFor(searches[..|searches| - 1], i)
      + (if last.reached == i then [last.exposure] else [])
      + (if last.target == i then [last.exposure] else [])
  }

  function BlendAll(exposures: seq<real>): real {
    if exposures == [] then 0.0 else Blend(BlendAll(exposures[..|exposures| - 1]), Last(exposures))
  }

  const EMPTY_TABLE: seq<real> := seq(256, _ => 0.0)

  lemma BlendAllSnoc(exposures: seq<real>, e: real)
    ensures BlendAll(exposures + [e]) == Blend(BlendAll(exposures), e)
  {
    assert (exposures + [e])[..|exposures|] == exposures;
  }

  lemma RecordPerEntry(table: seq<real>, search: Search, i: nat)
    requires |table| == 256 && Plausible(search) && i < 256
    ensures var blended := if search.reached == i then Blend(table[i], search.exposure) else table[i];
      Record(table, search)[i] == if search.target == i then Blend(blended, search.exposure) else blended
  {
  }

  /** What an entry holds depends on its own exposures only. */
  lemma {:induction false} EntryIsBlend(searches: seq<Search>, i: nat)
    requires i < 256 && forall s :: s in searches ==> Plausible(s)
    ensures RecordAll(EMPTY_TABLE, searches)[i] == BlendAll(ExposuresFor(searches, i))
  {
    if searches != [] {
      var before, last := searches[..|searches| - 1], Last(searches);
      assert last in searches && Plausible(last);
      EntryIsBlend(before, i);
      var es, e := ExposuresFor(before, i), last.exposure;
      RecordPerEntry(RecordAll(EMPTY_TABLE, before), last, i);
      BlendAllSnoc(es, e);
      BlendAllSnoc(es + [e], e);
      assert es + [] == es && es + [e] + [] == es + [e];
      assert ExposuresFor(searches, i)
             == es + (if last.reached == i then [e] else []) + (if last.target == i then [e] else []);
      hide Record, BlendAll, ExposuresFor, Blend;
    }
  }

  /** How much the `k`-th of `n` recorded exposures counts: the latest by a half, each before by half of the next. */
  function Weight(n: nat, k: nat): real
    requires k < n
  {
    1.0 / Power2(if k == 0 then n - 1 else n - k)
  }

  /** The first `k` exposures, weighted as the first of `n`. */
  function WeightedUpTo(exposures: seq<real>, n: nat, k: nat): real
    requires k <= |exposures| && k <= n
  {
    if k == 0 then 0.0 else WeightedUpTo(exposures, n, k - 1) + exposures[k - 1] * Weight(n, k - 1)
  }

  function Weighted(exposures: seq<real>): real {
    WeightedUpTo(exposures, |exposures|, |exposures|)
  }

  lemma WeightHalves(n: nat, k: nat)
    requires k < n
    ensures Weight(n + 1, k) == Weight(n, k) * 0.5
  {
    var p := Power2(if k == 0 then n - 1 else n - k);
    assert 1.0 / (2.0 * p) == 1.0 / p * 0.5 by {
      assert 1.0 / p * 0.5 * (2.0 * p) == 1.0 / p * p == 1.0;
    }
  }

  lemma UpToNext(exposures: seq<real>, n: nat, k: nat)
    requires 0 < k <= |exposures| && k <= n
    ensures WeightedUpTo(exposures, n, k) == WeightedUpTo(exposures, n, k - 1) + exposures[k - 1] * Weight(n, k - 1)
  {
  }

  lemma HalvesTogether(a: real, x: real, w: real)
    ensures a * 0.5 + x * (w * 0.5) == (a + x * w) * 0.5
  {
    assert x * (w * 0.5) == x * w * 0.5;
  }

  /** One more exposure halves the weight of all that were there. */
  lemma {:induction false} OneMoreHalves(exposures: seq<real>, e: real, k: nat)
    requires k <= |exposures|
    ensures WeightedUpTo(exposures + [e], |exposures| + 1, k) == WeightedUpTo(exposures, |exposures|, k) * 0.5
  {
    if k > 0 {
      var n, x, w := |exposures|, exposures[k - 1], Weight(|exposures|, k - 1);
      OneMoreHalves(exposures, e, k - 1);
      WeightHalves(n, k - 1);
      UpToNext(exposures, n, k);
      UpToNext(exposures + [e], n + 1, k);
      hide Weight, WeightedUpTo;
      HalvesTogether(WeightedUpTo(exposures, n, k - 1), x, w);
    }
  }

  /**
   What n recorded exposures leave: e1 / 2^(n - 1) and, for every later one, ek / 2^(n - k + 1). A recorded exposure
   is positive, so the entry never looks unused again.
   */
  lemma {:induction false} BlendIsWeighted(exposures: seq<real>)
    requires forall e :: e in exposures ==> e > 0.0
    ensures BlendAll(exposures) == Weighted(exposures)
    ensures exposures != [] ==> BlendAll(exposures) > 0.0
  {
    if exposures != [] {
      var n := |exposures| - 1;
      var front, e := exposures[..n], Last(exposures);
      assert exposures == front + [e] && e in exposures && forall x :: x in front ==> x in exposures;
      BlendIsWeighted(front);
      OneMoreHalves(front, e, n);
      assert Power2(0) == 1.0 && Power2(1) == 2.0;
      if n == 0 {
        assert Weight(1, 0) == 1.0;
      } else {
        assert Weight(n + 1, n) == 0.5;
      }
    }
  }

  lemma {:induction false} BlendBetween(exposures: seq<real>, lo: real, hi: real)
    requires exposures != [] && 0.0 < lo
    requires forall k :: 0 <= k < |exposures| ==> lo <= exposures[k] <= hi
    ensures lo <= BlendAll(exposures) <= hi
  {
    if |exposures| > 1 {
      BlendBetween(exposures[..|exposures| - 1], lo, hi);
    }
  }

  lemma {:induction false} Extremes(exposures: seq<real>) returns (a: nat, b: nat)
    requires exposures != []
    ensures a < |exposures| && b < |exposures|
    ensures forall k :: 0 <= k < |exposures| ==> exposures[a] <= exposures[k] <= exposures[b]
  {
    var n := |exposures| - 1;
    a, b := n, n;
    if n > 0 {
      var a', b' := Extremes(exposures[..n]);
      assert forall k :: 0 <= k < n ==> exposures[..n][k] == exposures[k];
      a := if exposures[a'] <= exposures[n] then a' else n;
      b := if exposures[b'] >= exposures[n] then b' else n;
    }
  }

  lemma {:induction false} ExposuresArePositive(searches: seq<Search>, i: nat)
    requires forall s :: s in searches ==> Plausible(s)
    ensures forall e :: e in ExposuresFor(searches, i) ==> e > 0.0
  {
    if searches != [] {
      assert Last(searches) in searches;
      ExposuresArePositive(searches[..|searches| - 1], i);
    }
  }

  /** 0 exactly if nothing was recorded, otherwise between two of the recorded exposures. */
  ghost predicate InHull(entry: real, recorded: seq<real>) {
    && (entry == 0.0 <==> recorded == [])
    && (recorded != [] ==>
          exists a, b :: 0 <= a < |recorded| && 0 <= b < |recorded| && recorded[a] <= entry <= recorded[b])
  }

  /**
   After any searches an entry is 0 if nothing was recorded for it, and otherwise lies between the smallest
   and the largest exposure recorded for it.
   */
  lemma TableHull(searches: seq<Search>, i: nat)
    requires i < 256 && forall s :: s in searches ==> Plausible(s)
    ensures InHull(RecordAll(EMPTY_TABLE, searches)[i], ExposuresFor(searches, i))
  {
    EntryIsBlend(searches, i);
    var es := ExposuresFor(searches, i);
    if es != [] {
      ExposuresArePositive(searches, i);
      var a, b := Extremes(es);
      assert es[a] in es;
      BlendBetween(es, es[a], es[b]);
    }
  }

  /** After any searches an entry is the weighted sum of the exposures recorded for it. */
  lemma EntryIsWeighted(searches: seq<Search>, i: nat)
    requires i < 256 && forall s :: s in searches ==> Plausible(s)
    ensures RecordAll(EMPTY_TABLE, searches)[i] == Weighted(ExposuresFor(searches, i))
  {
    EntryIsBlend(searches, i);
    ExposuresArePositive(searches, i);
    BlendIsWeighted(ExposuresFor(searches, i));
  }

  // The search loop of `setBrightness`.

  function Abs(x: real): (a: real)
    ensures a >= 0.0 && (a == x || a == -x)
  {
    if x < 0.0 then -x else x
  }

  /** What the camera does in one cycle; `exposure` is the one it used for the image. */
  datatype Cycle = Cycle(searchOk: bool, grabbed: bool, autoRunning: bool, image: Picture, exposure: real,
                         timedOut: bool)

  /** Why `setBrightness` returned, or that it raised. */
  datatype Ending =
    | NotReady | Raised | NoImage | AlreadyReached | NothingAutomatic
    | Reached | SearchFailed | GrabFailed | Stuck | TimedOut | ShutDown

  /**
   A request: the target, the samples set up at the time, what the caller and the camera allow, and the first image,
   if one came.
   */
  datatype Request = Request(target: int, indices: seq<nat>, ready: bool, automatic: bool, limit: nat, tolerance: real,
                             first: Option<Picture>, cycles: seq<Cycle>)

  predicate Physical(q: Request) {
    forall c :: c in q.cycles ==> c.exposure > 0.0
  }

  function TargetOf(q: Request): (target: int)
    ensures target <= 255 && target <= q.target && (target == 255 || target == q.target)
  {
    if q.target < 255 then q.target else 255
  }

  predicate Measures(c: Cycle, indices: seq<nat>) {
    c.searchOk && c.grabbed && !c.autoRunning && BrightnessOf(c.image, indices).Success?
  }

  /** The brightness values that the loop looked at, in order. */
  function Measured(cycles: seq<Cycle>, indices: seq<nat>): seq<real> {
    if cycles == [] then []
    else
      Measured(cycles[..|cycles| - 1], indices)
      + (if Measures(Last(cycles), indices) then [BrightnessOf(Last(cycles).image, indices).value] else [])
  }

  predicate Close(brightness: real, target: nat, tolerance: real): (close: bool)
    ensures close <==> target as real - tolerance < brightness < target as real + tolerance
  {
    Abs(brightness - target as real) < tolerance
  }

  /** The last `n` values each differ from the one before by at most one. */
  predicate Stagnant(values: seq<real>, n: nat) {
    n < |values| && forall k :: |values| - n <= k < |values| ==> Abs(values[k - 1] - values[k]) <= 1.0
  }

  // How a request ends.

  /** The brightness of the first image, unless there is none or its estimate raises. */
  function FirstSeen(q: Request): Option<real> {
    if q.first.Some? && BrightnessOf(q.first.value, q.indices).Success?
    then Some(BrightnessOf(q.first.value, q.indices).value)
    else None
  }

  /** The target is still to be searched for. */
  predicate Searches(q: Request) {
    && q.ready && q.target >= 0 && FirstSeen(q).Some? && q.automatic
    && Abs(FirstSeen(q).value - TargetOf(q) as real) > 1.0
  }

  function EndingBefore(q: Request): Ending
    requires !Searches(q)
  {
    if !q.ready then NotReady
    else if q.target < 0 then Raised
    else if q.first.None? then NoImage
    else if FirstSeen(q).None? then Raised
    else if Abs(FirstSeen(q).value - TargetOf(q) as real) <= 1.0 then AlreadyReached
    else NothingAutomatic
  }

  /** Whether cycle `i` ends the search, and why; stuck means more than the limit of measurements that barely moved. */
  function EndingAt(q: Request, i: nat): Option<Ending>
    requires q.target >= 0 && i < |q.cycles|
  {
    var c := q.cycles[i];
    var brightness := BrightnessOf(c.image, q.indices);
    if !c.searchOk then Some(SearchFailed)
    else if !c.grabbed then Some(GrabFailed)
    else if c.autoRunning then None
    else if brightness.Failure? then Some(Raised)
    else if Close(brightness.value, TargetOf(q), q.tolerance) then Some(Reached)
    else if Stagnant(Measured(q.cycles[..i + 1], q.indices), q.limit + 1) then Some(Stuck)
    else if c.timedOut then Some(TimedOut)
    else None
  }

  /** The brightness last looked at. */
  function LastSeen(q: Request, used: nat): real
    requires used <= |q.cycles|
  {
    var m := Measured(q.cycles[..used], q.indices);
    if m != [] then Last(m) else if FirstSeen(q).Some? then FirstSeen(q).value else 0.0
  }

  predicate Reports(ending: Ending) {
    match ending
    case NotReady => false
    case Raised => false
    case NoImage => false
    case NothingAutomatic => false
    case GrabFailed => false
    case _ => true
  }

  function GuessOf(table: seq<real>, i: nat): seq<real>
    requires i < |table|
  {
    if table[i] != 0.0 then [table[i]] else []
  }

  /** The exposures set from the table before the search: the target's, and that of 50 for dark targets. */
  function GuessesOf(q: Request, table: seq<real>): seq<real>
    requires |table| == 256
  {
    if !q.ready || q.target < 0 then []
    else
      GuessOf(table, TargetOf(q))
      + if FirstSeen(q).Some? && Abs(FirstSeen(q).value - TargetOf(q) as real) > 1.0 && TargetOf(q) <= 50
        then GuessOf(table, 50) else []
  }

  /** The loop of a request, up to the cycle that ends it or until the node shuts down. */
  method SearchLoop(q: Request) returns (ending: Ending, current: real, used: nat)
    requires Searches(q) && Physical(q)
    ensures used <= |q.cycles| && current == LastSeen(q, used) && 0.0 <= current <= 255.0
    ensures forall i :: 0 <= i < used - 1 ==> EndingAt(q, i).None?
    ensures if ending.ShutDown? then used == |q.cycles| && (used > 0 ==> EndingAt(q, used - 1).None?)
            else used > 0 && EndingAt(q, used - 1) == Some(ending)
  {
    hide Measured, Stagnant;
    used, current := 0, FirstSeen(q).value;
    var failSafe: nat, last: Option<real> := 0, None;
    NothingMeasured(q);
    while used < |q.cycles|
      invariant used <= |q.cycles| && 0.0 <= current <= 255.0 && current == LastSeen(q, used)
      invariant forall i :: 0 <= i < used ==> EndingAt(q, i).None?
      invariant var m := Measured(q.cycles[..used], q.indices);
        if m == [] then last.None? && failSafe == 0
        else last == Some(Last(m)) && failSafe <= q.limit && forall n: nat :: Stagnant(m, n) <==> n <= failSafe
    {
      var c := q.cycles[used];
      ghost var m := Measured(q.cycles[..used], q.indices);
      MeasuredNext(q, used);
      used := used + 1;
      if !c.searchOk {
        return SearchFailed, current, used;
      }
      if !c.grabbed {
        return GrabFailed, current, used;
      }
      if c.autoRunning {
        continue;
      }
      var brightness := CalcCurrentBrightness(c.image, q.indices);
      if brightness.Failure? {
        return Raised, current, used;
      }
      current := brightness.value;
      if Close(current, TargetOf(q), q.tolerance) {
        return Reached, current, used;
      }
      MoreStagnant(m, current, failSafe);
      if last.Some? && Abs(last.value - current) <= 1.0 {
        failSafe := failSafe + 1;
      } else {
        failSafe := 0;
      }
      last := Some(current);
      if failSafe > q.limit {
        return Stuck, current, used;
      }
      if c.timedOut {
        return TimedOut, current, used;
      }
    }
    return ShutDown, current, used;
  }

  class BrightnessControl {
    const lut: array<real>

    ghost predicate Valid()
      reads this
    {
      lut.Length == 256
    }

    constructor ()
      ensures Valid() && fresh(lut) && lut[..] == EMPTY_TABLE
    {
      lut := new real[256](_ => 0.0);
      new;
      assert lut[..] == EMPTY_TABLE;
    }

    /** The four table assignments that end a successful search. */
    method Remember(reached: nat, target: nat, exposure: real)
      requires Valid() && Plausible(Search(reached, target, exposure))
      modifies lut
      ensures lut[..] == Record(old(lut[..]), Search(reached, target, exposure))
      ensures Approaches(old(lut[..]), lut[..], Search(reached, target, exposure))
    {
      if lut[reached] == 0.0 {
        lut[reached] := exposure;
      } else {
        lut[reached] := lut[reached] + exposure;
        lut[reached] := lut[reached] * 0.5;
      }
      assert lut[..] == RecordAt(old(lut[..]), reached, exposure);
      if lut[target] == 0.0 {
        lut[target] := exposure;
      } else {
        lut[target] := lut[target] + exposure;
        lut[target] := lut[target] * 0.5;
      }
    }

    /** The remembered exposure of an entry, tried first if there is one. */
    method Guess(i: nat) returns (guesses: seq<real>)
      requires Valid() && i < 256
      ensures guesses == GuessOf(lut[..], i)
    {
      guesses := if lut[i] != 0.0 then [lut[i]] else [];
    }

    /**
     A brightness request, for as many cycles as the node keeps running. What ends it is the first cycle that
     does, for that cycle's reason; an exposure is remembered exactly when that reason is that a measured image
     came close to the target.
     */
    method SetBrightness(q: Request)
      returns (ending: Ending, reached: Option<nat>, guesses: seq<real>, used: nat)
      requires Valid() && Physical(q)
      modifies lut
      ensures used <= |q.cycles|
      ensures !Searches(q) ==> used == 0 && ending == EndingBefore(q)
      ensures Searches(q) ==>
                && (forall i :: 0 <= i < used - 1 ==> EndingAt(q, i).None?)
                && if ending.ShutDown? then used == |q.cycles| && (used > 0 ==> EndingAt(q, used - 1).None?)
                   else used > 0 && EndingAt(q, used - 1) == Some(ending)
      ensures reached == if Reports(ending) then Some(LastSeen(q, used).Floor) else None
      ensures guesses == GuessesOf(q, old(lut[..]))
      ensures ending.Reached? ==>
                var search := Search(reached.value, TargetOf(q), q.cycles[used - 1].exposure);
                && Plausible(search)
                && lut[..] == Record(old(lut[..]), search)
      ensures !ending.Reached? ==> lut[..] == old(lut[..])
    {
      hide Approaches;
      used, guesses, reached := 0, [], None;
      if !q.ready {
        return NotReady, None, [], 0;
      }
      if q.target < 0 {
        return Raised, None, [], 0;
      }
      var target := TargetOf(q);
      guesses := Guess(target);
      if q.first.None? {
        return NoImage, None, guesses, 0;
      }
      var seen := CalcCurrentBrightness(q.first.value, q.indices);
      if seen.Failure? {
        return Raised, None, guesses, 0;
      }
      var current := seen.value;
      if Abs(current - target as real) <= 1.0 {
        return AlreadyReached, Some(current.Floor), guesses, 0;
      }
      if target <= 50 {
        var more := Guess(50);
        guesses := guesses + more;
      }
      if !q.automatic {
        return NothingAutomatic, None, guesses, 0;
      }
      ending, current, used := SearchLoop(q);
      if ending.GrabFailed? || ending.Raised? {
        return ending, None, guesses, used;
      }
      reached := Some(current.Floor);
      if ending.Reached? {
        Remember(reached.value, target, q.cycles[used - 1].exposure);
      }
    }

    /**
     Any number of requests one after the other: the table is what their successful searches recorded, so every
     entry is the weighted sum of the exposures recorded for it, which is 0 or lies between two of them.
     */
    method ServeAll(requests: seq<Request>) returns (searches: seq<Search>)
      requires Valid() && lut[..] == EMPTY_TABLE
      requires forall q :: q in requests ==> Physical(q)
      modifies lut
      ensures |searches| <= |requests| && forall s :: s in searches ==> Plausible(s)
      ensures lut[..] == RecordAll(EMPTY_TABLE, searches)
      ensures forall i :: 0 <= i < 256 ==>
                lut[i] == Weighted(ExposuresFor(searches, i)) && InHull(lut[i], ExposuresFor(searches, i))
    {
      searches := [];
      for n := 0 to |requests|
        invariant |searches| <= n && forall s :: s in searches ==> Plausible(s)
        invariant lut[..] == RecordAll(EMPTY_TABLE, searches)
      {
        var q := requests[n];
        var ending, reached, guesses, used := SetBrightness(q);
        if ending.Reached? {
          var search := Search(reached.value, TargetOf(q), q.cycles[used - 1].exposure);
          RecordAllSnoc(searches, search);
          searches := searches + [search];
        }
      }
      forall i | 0 <= i < 256
        ensures lut[i] == Weighted(ExposuresFor(searches, i)) && InHull(lut[i], ExposuresFor(searches, i))
      {
        EntryIsWeighted(searches, i);
        TableHull(searches, i);
        assert lut[i] == lut[..][i];
      }
    }
  }

  lemma RecordAllSnoc(searches: seq<Search>, search: Search)
    requires (forall s :: s in searches ==> Plausible(s)) && Plausible(search)
    ensures forall s :: s in searches + [search] ==> Plausible(s)
    ensures RecordAll(EMPTY_TABLE, searches + [search]) == Record(RecordAll(EMPTY_TABLE, searches), search)
  {
    assert (searches + [search])[..|searches|] == searches;
  }

  lemma NothingMeasured(q: Request)
    ensures Measured(q.cycles[..0], q.indices) == []
  {
  }

  lemma MeasuredNext(q: Request, i: nat)
    requires i < |q.cycles|
    ensures var before := Measured(q.cycles[..i], q.indices);
      Measured(q.cycles[..i + 1], q.indices)
      == if Measures(q.cycles[i], q.indices) then before + [BrightnessOf(q.cycles[i].image, q.indices).value]
         else before
  {
    assert q.cycles[..i + 1][..i] == q.cycles[..i] && Last(q.cycles[..i + 1]) == q.cycles[i];
  }

  lemma MoreStagnant(m: seq<real>, next: real, counter: nat)
    requires m != [] ==> forall n: nat :: Stagnant(m, n) <==> n <= counter
    requires m == [] ==> counter == 0
    ensures var counter' := if m != [] && Abs(Last(m) - next) <= 1.0 then counter + 1 else 0;
      forall n: nat :: Stagnant(m + [next], n) <==> n <= counter'
  {
    var m' := m + [next];
    forall n: nat
      ensures n > 0 ==> (Stagnant(m', n) <==> m != [] && Abs(Last(m) - next) <= 1.0 && Stagnant(m, n - 1))
      ensures Stagnant(m', 0)
    {
      if n > 0 && m != [] {
        assert m'[|m|] == next && m'[|m| - 1] == Last(m);
        assert forall k :: 0 <= k < |m| ==> m'[k] == m[k];
      }
    }
  }
}
