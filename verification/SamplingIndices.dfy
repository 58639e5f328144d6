/** The pixels sampled for a brightness estimate: `genSamplingIndicesRec` and its caller. */
module SamplingIndices {
  datatype Point = Point(x: nat, y: nat)

  /** `0.5 * n` as OpenCV rounds it to an integer coordinate: halves go to the even neighbour. */
  function Half(n: nat): (h: nat)
    ensures 2 * h - 1 <= n <= 2 * h + 1
    ensures n % 2 == 1 ==> h % 2 == 0
  {
    if n % 2 == 0 || n % 4 == 1 then n / 2 else n / 2 + 1
  }

  /** A window from `s` up to, not including, `e`. */
  datatype Window = Window(s: Point, e: Point)

  predicate Ordered(w: Window) {
    w.s.x <= w.e.x && w.s.y <= w.e.y
  }

  function Height(w: Window): nat
    requires Ordered(w)
  {
    w.e.y - w.s.y
  }

  function Width(w: Window): nat
    requires Ordered(w)
  {
    w.e.x - w.s.x
  }

  function Centre(w: Window): (a: Point)
    requires Ordered(w)
    ensures w.s.x <= a.x <= w.e.x && w.s.y <= a.y <= w.e.y
    ensures Width(w) > 0 ==> a.x < w.e.x
    ensures Height(w) > 0 ==> a.y < w.e.y
    ensures Height(w) > 1 ==> w.s.y < a.y
  {
    Point(w.s.x + Half(Width(w)), w.s.y + Half(Height(w)))
  }

  /** The four quarters, in the order of the recursive calls. */
  function Quarter(w: Window, k: nat): (q: Window)
    requires Ordered(w) && k < 4
    ensures Ordered(q)
    ensures Height(w) > 1 ==> Height(q) < Height(w)
  {
    var a := Centre(w);
    if k == 0 then Window(w.s, a)
    else if k == 1 then Window(a, w.e)
    else if k == 2 then Window(Point(w.s.x, a.y), Point(a.x, w.e.y))
    else Window(Point(a.x, w.s.y), Point(w.e.x, a.y))
  }

  lemma QuarterWindows(w: Window, a: Point)
    requires Ordered(w) && a == Centre(w)
    ensures Quarter(w, 0) == Window(w.s, a)
    ensures Quarter(w, 1) == Window(a, w.e)
    ensures Quarter(w, 2) == Window(Point(w.s.x, a.y), Point(a.x, w.e.y))
    ensures Quarter(w, 3) == Window(Point(a.x, w.s.y), Point(w.e.x, a.y))
  {
  }

  function Index(p: Point, cols: nat): nat {
    p.y * cols + p.x
  }

  /** The points below, left of, above and right of the centre; products with 1.5 and 0.5 are truncated. */
  function Samples(w: Window): seq<Point>
    requires Ordered(w)
  {
    var dx, dy := Half(Width(w)), Half(Height(w));
    [ Point(w.s.x + dx, w.s.y + 3 * dy / 2),
      Point(w.s.x + dx / 2, w.s.y + dy),
      Point(w.s.x + dx, w.s.y + dy / 2),
      Point(w.s.x + 3 * dx / 2, w.s.y + dy) ]
  }

  /** Each point lies half of a half window away from the centre, straight down, left, up and right. */
  lemma SamplesSurroundCentre(w: Window)
    requires Ordered(w)
    ensures var a, p := Centre(w), Samples(w);
      var dx, dy := a.x - w.s.x, a.y - w.s.y;
      && p[0] == Point(a.x, a.y + dy / 2)
      && p[1].y == a.y && p[1].x == a.x - (dx + 1) / 2
      && p[2].x == a.x && p[2].y == a.y - (dy + 1) / 2
      && p[3] == Point(a.x + dx / 2, a.y)
  {
    var dx, dy := Half(Width(w)), Half(Height(w));
    assert 3 * dx / 2 == dx + dx / 2 && dx / 2 == dx - (dx + 1) / 2;
    assert 3 * dy / 2 == dy + dy / 2 && dy / 2 == dy - (dy + 1) / 2;
  }

  function SampleIndices(w: Window, cols: nat): seq<nat>
    requires Ordered(w)
  {
    var p := Samples(w);
    [Index(p[0], cols), Index(p[1], cols), Index(p[2], cols), Index(p[3], cols)]
  }

  function Pixels(rows: nat, cols: nat): nat {
    rows * cols
  }

  /** Everything pushed for a window and the windows below it, in order. */
  function Pushed(w: Window, minHeight: nat, cols: nat): seq<nat>
    requires Ordered(w) && minHeight >= 1
    decreases Height(w)
  {
    if Height(w) <= minHeight then []
    else
      SampleIndices(w, cols)
      + Pushed(Quarter(w, 0), minHeight, cols)
      + Pushed(Quarter(w, 1), minHeight, cols)
      + Pushed(Quarter(w, 2), minHeight, cols)
      + Pushed(Quarter(w, 3), minHeight, cols)
  }

  lemma PushedBySplit(w: Window, minHeight: nat, cols: nat)
    requires Ordered(w) && Height(w) > minHeight >= 1
    ensures Pushed(w, minHeight, cols)
            == SampleIndices(w, cols) + Pushed(Quarter(w, 0), minHeight, cols) + Pushed(Quarter(w, 1), minHeight, cols)
               + Pushed(Quarter(w, 2), minHeight, cols) + Pushed(Quarter(w, 3), minHeight, cols)
  {
    hide SampleIndices, Quarter;
  }

  function Image(rows: nat, cols: nat): Window {
    Window(Point(0, 0), Point(cols, rows))
  }

  lemma AppendFive<T>(before: seq<T>, a: seq<T>, b: seq<T>, c: seq<T>, d: seq<T>, e: seq<T>)
    ensures before + a + b + c + d + e == before + (a + b + c + d + e)
  {
  }

  /** The camera node's sampler; the indices are the member vector that the source passes to itself. */
  class Sampler {
    const rows: nat
    const cols: nat
    var indices: seq<nat>

    constructor (rows: nat, cols: nat)
      ensures this.rows == rows && this.cols == cols && indices == []
    {
      this.rows, this.cols := rows, cols;
      indices := [];
    }

    method GenSamplingIndicesRec(minHeight: nat, s: Point, e: Point)
      requires Ordered(Window(s, e)) && minHeight >= 1
      modifies this
      ensures indices == old(indices) + Pushed(Window(s, e), minHeight, cols)
      decreases e.y - s.y
    {
      if e.y - s.y <= minHeight {
        return;
      }
      ghost var w, before := Window(s, e), indices;
      var delta := Point(Half(e.x - s.x), Half(e.y - s.y));
      hide SampleIndices, Quarter, Half, Pushed;
      var a := Point(s.x + delta.x, s.y + delta.y);
      PushSamples(s, e, delta);
      QuarterWindows(w, a);
      ghost var q := (Quarter(w, 0), Quarter(w, 1), Quarter(w, 2), Quarter(w, 3));
      PushedBySplit(w, minHeight, cols);
      GenSamplingIndicesRec(minHeight, s, a);
      GenSamplingIndicesRec(minHeight, a, e);
      GenSamplingIndicesRec(minHeight, Point(s.x, a.y), Point(a.x, e.y));
      GenSamplingIndicesRec(minHeight, Point(a.x, s.y), Point(e.x, a.y));
      AppendFive(before, SampleIndices(w, cols), Pushed(q.0, minHeight, cols), Pushed(q.1, minHeight, cols),
                 Pushed(q.2, minHeight, cols), Pushed(q.3, minHeight, cols));
    }

    /** The four points of one window. */
    method PushSamples(s: Point, e: Point, delta: Point)
      requires Ordered(Window(s, e)) && delta == Point(Half(e.x - s.x), Half(e.y - s.y))
      modifies this
      ensures indices == old(indices) + SampleIndices(Window(s, e), cols)
    {
      hide Index, Half;
      var b := Point(s.x + delta.x, s.y + 3 * delta.y / 2);
      var c := Point(s.x + delta.x / 2, s.y + delta.y);
      var d := Point(s.x + delta.x, s.y + delta.y / 2);
      var f := Point(s.x + 3 * delta.x / 2, s.y + delta.y);
      assert Samples(Window(s, e)) == [b, c, d, f];
      hide Samples;
      indices := indices + [Index(b, cols)];
      indices := indices + [Index(c, cols)];
      indices := indices + [Index(d, cols)];
      indices := indices + [Index(f, cols)];
    }

    /**
     The image centre once, then the recursion over the whole image, then the sort. `quotient` is what dividing
     the rows by the factor gives in single precision.
     */
    method SetupSamplingIndices(downsamplingFactor: nat, quotient: real)
      requires downsamplingFactor >= 1 && rows >= downsamplingFactor
      requires SingleQuotient(rows, downsamplingFactor, quotient)
      modifies this
      ensures Sorted(indices)
      ensures multiset(indices)
           == multiset([Pixels(rows, cols) / 2] + Pushed(Image(rows, cols), rows / downsamplingFactor, cols))
    {
      indices := [];
      QuotientFloors(rows, downsamplingFactor, quotient);
      var minHeight := quotient.Floor;
      indices := indices + [Pixels(rows, cols) / 2];
      GenSamplingIndicesRec(minHeight, Point(0, 0), Point(cols, rows));
      indices := SortIndices(indices);
    }
  }

  // The division and the sort.

  const TWO_TO_THE_24 := 0x100_0000

  /**
   What IEEE 754 promises of a single-precision quotient of two exactly represented integers: it is within half
   a unit in the last place, and exact when there is nothing to round.
   */
  predicate SingleQuotient(n: nat, d: nat, q: real)
    requires d >= 1
  {
    && n < TWO_TO_THE_24
    && (n % d == 0 ==> q == (n / d) as real)
    && -(n as real) <= (q * d as real - n as real) * TWO_TO_THE_24 as real <= n as real
  }

  /** Truncating the rounded quotient gives the integer quotient. */
  lemma QuotientFloors(n: nat, d: nat, q: real)
    requires d >= 1 && SingleQuotient(n, d, q)
    ensures q.Floor == n / d
  {
    var k, r := n / d, n % d;
    if r > 0 {
      var error := q * d as real - n as real;
      SmallError(n, error);
      RemainderOf(n, d);
      Distribute(q, k as real, d as real);
      FractionBelowOne(q - k as real, d as real, r as real + error);
    }
  }

  lemma SmallError(n: nat, error: real)
    requires n < TWO_TO_THE_24 && -(n as real) <= error * TWO_TO_THE_24 as real <= n as real
    ensures -1.0 < error < 1.0
  {
  }

  lemma RemainderOf(n: nat, d: nat)
    requires d >= 1
    ensures n as real == (n / d) as real * d as real + (n % d) as real
    ensures (n % d) as real + 1.0 <= d as real
  {
    assert n == n / d * d + n % d;
    assert (n / d * d) as real == (n / d) as real * d as real;
  }

  lemma Distribute(a: real, b: real, c: real)
    ensures (a - b) * c == a * c - b * c
  {
  }

  lemma FractionBelowOne(x: real, d: real, product: real)
    requires d > 0.0 && product == x * d && 0.0 < product < d
    ensures 0.0 < x < 1.0
  {
    assert (1.0 - x) * d == d - product;
    PositiveFactor(1.0 - x, d);
    PositiveFactor(x, d);
  }

  lemma PositiveFactor(x: real, d: real)
    requires d > 0.0 && x * d > 0.0
    ensures x > 0.0
  {
  }

  predicate Sorted(s: seq<nat>) {
    forall i, j :: 0 <= i < j < |s| ==> s[i] <= s[j]
  }

  /** Any sort that keeps the elements; the library's is not part of this model. */
  method SortIndices(s: seq<nat>) returns (t: seq<nat>)
    ensures Sorted(t) && multiset(t) == multiset(s)
  {
    t := [];
    for i := 0 to |s|
      invariant Sorted(t) && multiset(t) == multiset(s[..i])
    {
      var k := |t|;
      while k > 0 && t[k - 1] > s[i]
        invariant 0 <= k <= |t|
        invariant forall j :: k <= j < |t| ==> t[j] > s[i]
      {
        k := k - 1;
      }
      InsertKeepsElements(t, k, s[i]);
      t := t[..k] + [s[i]] + t[k..];
      assert s[..i + 1] == s[..i] + [s[i]];
    }
    assert s[..|s|] == s;
  }

  lemma InsertKeepsElements(t: seq<nat>, k: nat, x: nat)
    requires k <= |t|
    ensures multiset(t[..k] + [x] + t[k..]) == multiset(t) + multiset{x}
  {
    assert t == t[..k] + t[k..];
  }

  // Termination.

  /** A call on `w` makes a call on `q`: it splits `w`, and `q` is one of the quarters. */
  ghost predicate Calls(w: Window, q: Window, minHeight: nat) {
    Ordered(w) && Height(w) > minHeight && exists k: nat :: k < 4 && q == Quarter(w, k)
  }

  /** Nested calls, the outermost first. */
  ghost predicate IsCallStack(stack: seq<Window>, minHeight: nat)
    decreases |stack|
  {
    |stack| <= 1 || (Calls(stack[0], stack[1], minHeight) && IsCallStack(stack[1..], minHeight))
  }

  ghost predicate DepthBounded(w: Window, minHeight: nat, bound: nat) {
    forall stack :: IsCallStack(stack, minHeight) && stack != [] && stack[0] == w ==> |stack| <= bound
  }

  lemma {:induction false} StackIsShallow(stack: seq<Window>, minHeight: nat)
    requires minHeight >= 1 && IsCallStack(stack, minHeight) && stack != [] && Ordered(stack[0])
    ensures |stack| <= Height(stack[0]) + 1
    decreases |stack|
  {
    if |stack| > 1 {
      assert Ordered(stack[1]) && Height(stack[1]) < Height(stack[0]);
      StackIsShallow(stack[1..], minHeight);
    }
  }

  lemma {:induction false} LowestQuarterStaysHigh(w: Window, depth: nat) returns (stack: seq<Window>)
    requires Ordered(w) && Height(w) >= 1
    ensures |stack| == depth + 1 && stack[0] == w && IsCallStack(stack, 0)
    decreases depth
  {
    if depth == 0 {
      stack := [w];
    } else {
      var q := Quarter(w, 1);
      assert Calls(w, q, 0) && Height(q) >= 1;
      var rest := LowestQuarterStaysHigh(q, depth - 1);
      stack := [w] + rest;
      assert stack[1..] == rest && stack[1] == q;
    }
  }

  /** The recursion ends exactly when the smallest window height is positive or there is no row to split. */
  lemma TerminatesIff(rows: nat, cols: nat, minHeight: nat)
    ensures (exists bound: nat :: DepthBounded(Image(rows, cols), minHeight, bound)) <==> minHeight >= 1 || rows == 0
  {
    var image := Image(rows, cols);
    if minHeight >= 1 {
      forall stack | IsCallStack(stack, minHeight) && stack != [] && stack[0] == image
        ensures |stack| <= rows + 1
      {
        StackIsShallow(stack, minHeight);
      }
      assert DepthBounded(image, minHeight, rows + 1);
    } else if rows == 0 {
      assert forall q :: !Calls(image, q, minHeight);
      assert DepthBounded(image, minHeight, 1);
    } else {
      forall bound: nat
        ensures !DepthBounded(image, minHeight, bound)
      {
        var stack := LowestQuarterStaysHigh(image, bound);
      }
    }
  }

  /** In the terms of the configuration: a factor larger than the number of rows never comes back. */
  lemma SetupTerminatesIff(rows: nat, cols: nat, downsamplingFactor: nat)
    requires downsamplingFactor >= 1
    ensures (exists bound: nat :: DepthBounded(Image(rows, cols), rows / downsamplingFactor, bound))
            <==> rows >= downsamplingFactor || rows == 0
  {
    TerminatesIff(rows, cols, rows / downsamplingFactor);
    RemainderOf(rows, downsamplingFactor);
    assert rows < downsamplingFactor ==> rows / downsamplingFactor == 0;
    assert rows >= downsamplingFactor ==> rows / downsamplingFactor >= 1;
  }

  /** With the default factor of 20 an image of 19 rows does not. */
  lemma EndlessExample(cols: nat, bound: nat)
    ensures !DepthBounded(Image(19, cols), 19 / 20, bound)
  {
    SetupTerminatesIff(19, cols, 20);
  }

  // Index safety.

  /** On the way down the right edge and the last row: a window three high, or two high and three wide. */
  predicate CornerOverrun(height: nat, width: nat, minHeight: nat)
    requires minHeight >= 1
    decreases height
  {
    height > minHeight
    && (height == 3 || (height == 2 && width == 3)
        || CornerOverrun(height - Half(height), width - Half(width), minHeight))
  }

  /** The part of it that depends on rows alone. */
  predicate RowOverrun(height: nat, minHeight: nat)
    requires minHeight >= 1
    decreases height
  {
    height > minHeight && (height == 3 || RowOverrun(height - Half(height), minHeight))
  }

  lemma {:induction false} RowOverrunIsOverrun(height: nat, width: nat, minHeight: nat)
    requires minHeight >= 1 && RowOverrun(height, minHeight)
    ensures CornerOverrun(height, width, minHeight)
    decreases height
  {
    if height != 3 {
      RowOverrunIsOverrun(height - Half(height), width - Half(width), minHeight);
    }
  }

  lemma IndexBelow(p: Point, rows: nat, cols: nat)
    requires p.x <= cols && p.y < rows && (p.y == rows - 1 ==> p.x < cols)
    requires cols >= 1
    ensures Index(p, cols) < Pixels(rows, cols)
  {
    var left := rows - 1 - p.y;
    assert Pixels(rows, cols) == (p.y + 1 + left) * cols == p.y * cols + cols + left * cols;
    assert left > 0 ==> left * cols >= cols;
  }

  predicate Inside(w: Window, rows: nat, cols: nat) {
    Ordered(w) && w.s.x < cols && w.e.x <= cols && w.e.y <= rows
  }

  /** The points of one window leave the image only at its last row, in one of the two shapes. */
  lemma SamplesBelow(w: Window, rows: nat, cols: nat)
    requires Inside(w, rows, cols) && Height(w) >= 2
    requires w.e.y == rows ==> Height(w) != 3
    requires w.e.y == rows && w.e.x == cols ==> !(Height(w) == 2 && Width(w) == 3)
    ensures AllBelow(SampleIndices(w, cols), Pixels(rows, cols))
  {
    hide Pixels, Index;
    SamplesSurroundCentre(w);
    var p := Samples(w);
    var dx, dy := Half(Width(w)), Half(Height(w));
    assert 3 * dy / 2 <= Height(w) && (Height(w) != 3 ==> 3 * dy / 2 < Height(w));
    assert w.s.x + 3 * dx / 2 <= cols && (Width(w) != 3 ==> w.s.x + 3 * dx / 2 < cols);
    IndexBelow(p[0], rows, cols);
    IndexBelow(p[1], rows, cols);
    IndexBelow(p[2], rows, cols);
    IndexBelow(p[3], rows, cols);
  }

  predicate AllBelow(indices: seq<nat>, bound: nat) {
    forall i :: i in indices ==> i < bound
  }

  lemma AllBelowFive(a: seq<nat>, b: seq<nat>, c: seq<nat>, d: seq<nat>, e: seq<nat>, bound: nat)
    ensures AllBelow(a + b + c + d + e, bound)
            <==> AllBelow(a, bound) && AllBelow(b, bound) && AllBelow(c, bound)
                 && AllBelow(d, bound) && AllBelow(e, bound)
  {
    assert forall i :: i in a + b + c + d + e <==> i in a || i in b || i in c || i in d || i in e;
  }

  lemma SameElementsBelow(a: seq<nat>, b: seq<nat>, bound: nat)
    requires multiset(a) == multiset(b)
    ensures AllBelow(a, bound) <==> AllBelow(b, bound)
  {
    assert forall i :: i in a <==> i in multiset(a);
    assert forall i :: i in b <==> i in multiset(b);
  }

  lemma QuartersInside(w: Window, rows: nat, cols: nat)
    requires Inside(w, rows, cols) && Height(w) >= 2
    ensures Inside(Quarter(w, 0), rows, cols) && Inside(Quarter(w, 1), rows, cols)
    ensures Inside(Quarter(w, 2), rows, cols) && Inside(Quarter(w, 3), rows, cols)
    ensures Quarter(w, 0).e.y < rows && Quarter(w, 3).e.y < rows
    ensures Quarter(w, 1).e == w.e && Quarter(w, 2).e.y == w.e.y && Quarter(w, 2).e.x < cols
    ensures Height(Quarter(w, 1)) == Height(Quarter(w, 2)) == Height(w) - Half(Height(w))
    ensures Width(Quarter(w, 1)) == Width(w) - Half(Width(w))
  {
  }

  lemma {:induction false} NoOverrunIsSafe(w: Window, minHeight: nat, rows: nat, cols: nat)
    requires Inside(w, rows, cols) && minHeight >= 1
    requires w.e.y == rows ==> !RowOverrun(Height(w), minHeight)
    requires w.e.y == rows && w.e.x == cols ==> !CornerOverrun(Height(w), Width(w), minHeight)
    ensures AllBelow(Pushed(w, minHeight, cols), Pixels(rows, cols))
    decreases Height(w)
  {
    hide Quarter, SampleIndices, Pixels, Half;
    if Height(w) > minHeight {
      SamplesBelow(w, rows, cols);
      QuartersInside(w, rows, cols);
      assert w.e.y == rows ==> !RowOverrun(Height(Quarter(w, 1)), minHeight);
      assert w.e.y == rows && w.e.x == cols ==> !CornerOverrun(Height(Quarter(w, 1)), Width(Quarter(w, 1)), minHeight);
      PushedBySplit(w, minHeight, cols);
      AllBelowFive(SampleIndices(w, cols),
                   Pushed(Quarter(w, 0), minHeight, cols), Pushed(Quarter(w, 1), minHeight, cols),
                   Pushed(Quarter(w, 2), minHeight, cols), Pushed(Quarter(w, 3), minHeight, cols), Pixels(rows, cols));
      hide RowOverrun, CornerOverrun, Pushed, AllBelow;
      NoOverrunIsSafe(Quarter(w, 0), minHeight, rows, cols);
      NoOverrunIsSafe(Quarter(w, 1), minHeight, rows, cols);
      NoOverrunIsSafe(Quarter(w, 2), minHeight, rows, cols);
      NoOverrunIsSafe(Quarter(w, 3), minHeight, rows, cols);
    }
  }

  lemma LastSampleOverruns(w: Window, rows: nat, cols: nat) returns (i: nat)
    requires Inside(w, rows, cols) && w.e == Point(cols, rows)
    requires Height(w) == 3 || (Height(w) == 2 && Width(w) == 3)
    ensures i in SampleIndices(w, cols) && i >= Pixels(rows, cols)
  {
    var k := if Height(w) == 3 then 0 else 3;
    var p := Samples(w)[k];
    assert Half(3) == 2 && Half(2) == 1;
    assert k == 0 ==> p.y == rows;
    assert k == 3 ==> p == Point(cols, rows - 1);
    i := Index(p, cols);
    assert SampleIndices(w, cols)[k] == i;
    assert k == 3 ==> i == (rows - 1) * cols + cols;
  }

  lemma {:induction false} OverrunIsUnsafe(w: Window, minHeight: nat, rows: nat, cols: nat) returns (i: nat)
    requires Inside(w, rows, cols) && minHeight >= 1 && w.e == Point(cols, rows)
    requires CornerOverrun(Height(w), Width(w), minHeight)
    ensures i in Pushed(w, minHeight, cols) && i >= Pixels(rows, cols)
    decreases Height(w)
  {
    hide SampleIndices, Pixels, Quarter, Half;
    QuartersInside(w, rows, cols);
    PushedBySplit(w, minHeight, cols);
    hide Pushed;
    if Height(w) == 3 || (Height(w) == 2 && Width(w) == 3) {
      i := LastSampleOverruns(w, rows, cols);
    } else {
      i := OverrunIsUnsafe(Quarter(w, 1), minHeight, rows, cols);
    }
  }

  lemma PixelsPositive(rows: nat, cols: nat)
    requires rows >= 1 && cols >= 1
    ensures Pixels(rows, cols) >= 1
  {
    assert Pixels(rows, cols) == (rows - 1) * cols + cols;
  }

  /** Every index, the centre included, is inside the image exactly when the corner windows avoid the two shapes. */
  lemma SafeIff(rows: nat, cols: nat, minHeight: nat)
    requires rows >= 1 && cols >= 1 && minHeight >= 1
    ensures AllBelow([Pixels(rows, cols) / 2] + Pushed(Image(rows, cols), minHeight, cols), Pixels(rows, cols))
            <==> !CornerOverrun(rows, cols, minHeight)
  {
    hide Pixels, Pushed, Half, RowOverrun, CornerOverrun;
    PixelsPositive(rows, cols);
    var image, n := Image(rows, cols), Pixels(rows, cols);
    if CornerOverrun(rows, cols, minHeight) {
      var i := OverrunIsUnsafe(image, minHeight, rows, cols);
      assert i in [n / 2] + Pushed(image, minHeight, cols);
    } else {
      if RowOverrun(rows, minHeight) {
        RowOverrunIsOverrun(rows, cols, minHeight);
      }
      NoOverrunIsSafe(image, minHeight, rows, cols);
    }
  }

  lemma {:induction false} TallWindowsNeverOverrun(height: nat, width: nat, minHeight: nat)
    requires minHeight >= 3
    ensures !CornerOverrun(height, width, minHeight)
    decreases height
  {
    if height > minHeight {
      TallWindowsNeverOverrun(height - Half(height), width - Half(width), minHeight);
    }
  }

  /** Three rows per smallest window are enough. */
  lemma ThreeRowsAreSafe(rows: nat, cols: nat, downsamplingFactor: nat)
    requires cols >= 1 && downsamplingFactor >= 1 && rows >= 3 * downsamplingFactor
    ensures AllBelow([Pixels(rows, cols) / 2] + Pushed(Image(rows, cols), rows / downsamplingFactor, cols),
                     Pixels(rows, cols))
  {
    assert rows / downsamplingFactor >= 3;
    TallWindowsNeverOverrun(rows, cols, rows / downsamplingFactor);
    SafeIff(rows, cols, rows / downsamplingFactor);
  }

  /** A small image with windows of one row: the row after the last would be read. */
  lemma OverrunExample()
    ensures CornerOverrun(3, 3, 1) && 11 in Pushed(Image(3, 3), 1, 3)
  {
    var w := Image(3, 3);
    assert Half(3) == 2;
    assert SampleIndices(w, 3)[0] == Index(Point(2, 3), 3) == 11;
    hide SampleIndices;
    assert Pushed(w, 1, 3)[0] == SampleIndices(w, 3)[0];
  }

  // The windows where the recursion stops.

  function Leaves(w: Window, minHeight: nat): seq<Window>
    requires Ordered(w) && minHeight >= 1
    decreases Height(w)
  {
    if Height(w) <= minHeight then [w]
    else
      Leaves(Quarter(w, 0), minHeight) + Leaves(Quarter(w, 1), minHeight)
      + Leaves(Quarter(w, 2), minHeight) + Leaves(Quarter(w, 3), minHeight)
  }

  predicate Contains(w: Window, p: Point) {
    w.s.x <= p.x < w.e.x && w.s.y <= p.y < w.e.y
  }

  function CountContaining(windows: seq<Window>, p: Point): nat {
    if windows == [] then 0 else (if Contains(windows[0], p) then 1 else 0) + CountContaining(windows[1..], p)
  }

  lemma {:induction false} CountAppend(a: seq<Window>, b: seq<Window>, p: Point)
    ensures CountContaining(a + b, p) == CountContaining(a, p) + CountContaining(b, p)
    decreases |a|
  {
    if a == [] {
      assert a + b == b;
    } else {
      assert (a + b)[1..] == a[1..] + b;
      CountAppend(a[1..], b, p);
    }
  }

  /** The leaves partition the window: every pixel of it is in exactly one of them, every other in none. */
  lemma {:induction false} LeavesPartition(w: Window, minHeight: nat, p: Point)
    requires Ordered(w) && minHeight >= 1
    ensures CountContaining(Leaves(w, minHeight), p) == if Contains(w, p) then 1 else 0
    ensures forall l :: l in Leaves(w, minHeight) ==> Ordered(l) && Height(l) <= minHeight
    decreases Height(w)
  {
    if Height(w) > minHeight {
      LeavesPartition(Quarter(w, 0), minHeight, p);
      LeavesPartition(Quarter(w, 1), minHeight, p);
      LeavesPartition(Quarter(w, 2), minHeight, p);
      LeavesPartition(Quarter(w, 3), minHeight, p);
      PixelInOneQuarter(w, p);
      var q0, q1 := Leaves(Quarter(w, 0), minHeight), Leaves(Quarter(w, 1), minHeight);
      var q2, q3 := Leaves(Quarter(w, 2), minHeight), Leaves(Quarter(w, 3), minHeight);
      assert Leaves(w, minHeight) == q0 + q1 + q2 + q3;
      hide Leaves, Quarter, Contains, CountContaining, Height;
      CountAppend(q0, q1, p);
      CountAppend(q0 + q1, q2, p);
      CountAppend(q0 + q1 + q2, q3, p);
    }
  }

  lemma PixelInOneQuarter(w: Window, p: Point)
    requires Ordered(w)
    ensures (if Contains(w, p) then 1 else 0)
            == (if Contains(Quarter(w, 0), p) then 1 else 0) + (if Contains(Quarter(w, 1), p) then 1 else 0)
               + (if Contains(Quarter(w, 2), p) then 1 else 0) + (if Contains(Quarter(w, 3), p) then 1 else 0)
  {
  }

  /** Four points per split window, and every split replaces one window by four. */
  lemma {:induction false} FourPointsPerSplit(w: Window, minHeight: nat, cols: nat)
    requires Ordered(w) && minHeight >= 1
    ensures 3 * |Pushed(w, minHeight, cols)| == 4 * (|Leaves(w, minHeight)| - 1)
    decreases Height(w)
  {
    if Height(w) > minHeight {
      FourPointsPerSplit(Quarter(w, 0), minHeight, cols);
      FourPointsPerSplit(Quarter(w, 1), minHeight, cols);
      FourPointsPerSplit(Quarter(w, 2), minHeight, cols);
      FourPointsPerSplit(Quarter(w, 3), minHeight, cols);
    }
  }
}
