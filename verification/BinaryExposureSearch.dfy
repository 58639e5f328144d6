/** The bisection of exposure times that the camera falls back to, over exact numbers. */
module BinaryExposureSearch {
  import opened Powers
  import opened Sequences
  import opened Wrappers

  datatype Bracket = Bracket(target: real, left: real, right: real, next: real, last: real, stalled: nat)

  /** One image: its brightness, and the exposure read back from the camera. */
  datatype Reading = Reading(brightness: real, exposure: real)

  function Begin(target: real, left: real, right: real, current: real): Bracket {
    Bracket(target, left, right, (left + right) / 2.0, current, 0)
  }

  function Narrow(b: Bracket, r: Reading): Bracket {
    var left := if r.brightness > b.target then b.left else r.exposure;
    var right := if r.brightness > b.target then r.exposure else b.right;
    var next := (left + right) / 2.0;
    if next == r.exposure then b.(left := left, right := right, next := next, stalled := b.stalled + 1)
    else b.(left := left, right := right, next := next, last := r.exposure)
  }

  predicate Accepts(b: Bracket) {
    b.stalled <= 2
  }

  function NarrowAll(b: Bracket, readings: seq<Reading>): Bracket {
    if readings == [] then b else Narrow(NarrowAll(b, readings[..|readings| - 1]), Last(readings))
  }

  function Width(b: Bracket): real {
    b.right - b.left
  }

  class ExposureSearch {
    const target: real
    var lastExposure: real
    var stalled: nat
    var left: real
    var right: real
    var newExposure: real
    var limitReached: bool

    ghost function State(): Bracket
      reads this
    {
      Bracket(target, left, right, newExposure, lastExposure, stalled)
    }

    constructor (target: real, left: real, right: real, current: real)
      ensures State() == Begin(target, left, right, current) && !limitReached
    {
      this.target, this.lastExposure, this.left, this.right := target, current, left, right;
      newExposure := (left + right) / 2.0;
      stalled, limitReached := 0, false;
    }

    method Update(brightness: real, exposure: real) returns (ok: bool)
      modifies this
      ensures State() == Narrow(old(State()), Reading(brightness, exposure))
      ensures ok <==> Accepts(State())
      ensures limitReached == old(limitReached)
    {
      if brightness > target {
        right := exposure;
      } else {
        left := exposure;
      }
      newExposure := (left + right) / 2.0;
      if newExposure == exposure {
        stalled := stalled + 1;
      } else {
        lastExposure := exposure;
      }
      return stalled <= 2;
    }
  }

  // The bracket around the target.

  /** The response of a scene: brightness as a function of exposure. */
  type Response = real -> real

  ghost predicate Monotone(f: Response) {
    forall x, y :: x <= y ==> f(x) <= f(y)
  }

  ghost predicate Brackets(b: Bracket, f: Response) {
    b.left <= b.right && f(b.left) <= b.target <= f(b.right)
  }

  /** Every reading follows the response and lies in the bracket of its time. */
  ghost predicate Tracks(b: Bracket, readings: seq<Reading>, f: Response) {
    readings == []
    || (var before := NarrowAll(b, readings[..|readings| - 1]);
        && Tracks(b, readings[..|readings| - 1], f)
        && Last(readings).brightness == f(Last(readings).exposure)
        && before.left <= Last(readings).exposure <= before.right)
  }

  /** The target stays bracketed, brackets are nested, and no exposure outside passes the target's brightness. */
  lemma {:induction false} BracketKept(b: Bracket, readings: seq<Reading>, f: Response)
    requires Monotone(f) && Brackets(b, f) && Tracks(b, readings, f)
    ensures var b' := NarrowAll(b, readings);
      && Brackets(b', f)
      && b'.target == b.target
      && b.left <= b'.left && b'.right <= b.right
      && (forall x :: x < b'.left ==> f(x) <= b.target)
      && (forall x :: x > b'.right ==> f(x) >= b.target)
  {
    if readings != [] {
      BracketKept(b, readings[..|readings| - 1], f);
    }
  }

  /** Every exposure read back is the one asked for. */
  ghost predicate Obeys(b: Bracket, readings: seq<Reading>) {
    readings == []
    || (&& Obeys(b, readings[..|readings| - 1])
        && Last(readings).exposure == NarrowAll(b, readings[..|readings| - 1]).next)
  }

  /** An obedient camera halves the bracket every time, whatever it sees. */
  lemma {:induction false} WidthHalves(b: Bracket, readings: seq<Reading>)
    requires b.next == (b.left + b.right) / 2.0 && Obeys(b, readings)
    ensures var b' := NarrowAll(b, readings);
      && b'.next == (b'.left + b'.right) / 2.0
      && Width(b') == Width(b) / Power2(|readings|)
  {
    if readings != [] {
      var before := readings[..|readings| - 1];
      WidthHalves(b, before);
      HalfOfQuotient(Width(b), Power2(|before|));
    }
  }

  lemma HalfOfQuotient(w: real, p: real)
    requires p != 0.0
    ensures w / p / 2.0 == w / (2.0 * p)
  {
    assert w / p / 2.0 * (2.0 * p) == w / p * p == w;
  }

  /** Halfway into the bracket is inside it, so an obedient camera also tracks. */
  lemma {:induction false} ObeyingTracks(b: Bracket, readings: seq<Reading>, f: Response)
    requires Monotone(f) && Brackets(b, f) && b.next == (b.left + b.right) / 2.0 && Obeys(b, readings)
    requires forall r :: r in readings ==> r.brightness == f(r.exposure)
    ensures Tracks(b, readings, f)
  {
    if readings != [] {
      var before := readings[..|readings| - 1];
      assert Last(readings) in readings && forall r :: r in before ==> r in readings;
      ObeyingTracks(b, before, f);
      BracketKept(b, before, f);
      WidthHalves(b, before);
    }
  }

  // When the search gives up.

  /** How many of the updates ended with an empty bracket. */
  function Collapses(b: Bracket, readings: seq<Reading>): nat {
    if readings == [] then 0
    else
      Collapses(b, readings[..|readings| - 1]) + (if Width(NarrowAll(b, readings)) == 0.0 then 1 else 0)
  }

  /** An update refuses exactly from the third collapse on: the count never goes back. */
  lemma {:induction false} RefusesIff(b: Bracket, readings: seq<Reading>)
    requires b.stalled == 0
    ensures NarrowAll(b, readings).stalled == Collapses(b, readings)
    ensures Accepts(NarrowAll(b, readings)) <==> Collapses(b, readings) < 3
  {
    if readings != [] {
      RefusesIff(b, readings[..|readings| - 1]);
    }
  }

  /** No update has refused yet. */
  ghost predicate StillAccepted(b: Bracket, readings: seq<Reading>) {
    forall k :: 0 <= k <= |readings| ==> Accepts(NarrowAll(b, readings[..k]))
  }

  /**
   A search that is given up at its first refusal is given up with an empty bracket, whatever was read:
   no assumption on the scene or on where the readings lie.
   */
  lemma RefusalMeansEmpty(b: Bracket, accepted: seq<Reading>, r: Reading)
    requires StillAccepted(b, accepted) && !Accepts(NarrowAll(b, accepted + [r]))
    ensures Width(NarrowAll(b, accepted + [r])) == 0.0
    ensures b.stalled == 0 ==> Collapses(b, accepted + [r]) == 3
  {
    assert accepted[..|accepted|] == accepted;
    assert (accepted + [r])[..|accepted|] == accepted;
    if b.stalled == 0 {
      RefusesIff(b, accepted);
      RefusesIff(b, accepted + [r]);
    }
  }

  /**
   Update by update, the exact condition for refusing a bracket that is not empty: the search had refused
   before, and the reading is not the limit that this update keeps.
   */
  lemma WideRefusalIff(b: Bracket, r: Reading)
    ensures !Accepts(Narrow(b, r)) && Width(Narrow(b, r)) != 0.0
            <==> !Accepts(b) && r.exposure != if r.brightness > b.target then b.left else b.right
  {
    assert Narrow(b, r).next == r.exposure <==> Width(Narrow(b, r)) == 0.0;
  }

  // The camera's use of the search.

  /** The two kinds of cameras, which scale brightness differently: GigE keeps 0 to 255, USB takes 0.0 to 1.0. */
  datatype Trait = GigE | Usb

  function Convert(t: Trait, brightness: int): (c: real)
    ensures (t.GigE? ==> c == brightness as real) && (t.Usb? ==> c * 255.0 == brightness as real)
  {
    if t.GigE? then brightness as real else brightness as real / 255.0
  }

  /** The limits of the camera's own auto function. */
  datatype Range = Range(min: real, max: real)

  /** The auto function cannot reach the target, so that the camera takes to its own search. */
  predicate OutOfReach(t: Trait, target: int, range: Range) {
    !(range.min <= Convert(t, target) <= range.max)
  }

  /** What the search itself asks of a target: it compares the unconverted value. */
  predicate Admitted(target: int, range: Range) {
    range.min < target as real <= range.max
  }

  /** Why a call ended as it did. */
  datatype Verdict =
    | AutoRunning | LeftToAuto | PreControlled
    | TargetOutOfRange | LimitReached | Refused | NotSet | Exposed

  /** What one cycle reads from the camera; `reached` is the exposure it could set, if it could set any. */
  datatype Cycle = Cycle(brightness: real, exposure: real, lowest: real, highest: real, reached: Option<real>,
                         minimum: real, maximum: real)

  /** Where a search begins: between the camera's current exposure and the limit on the converted target's side. */
  function BeginAt(t: Trait, target: int, range: Range, c: Cycle): Bracket {
    if Convert(t, target) < range.min then Begin(target as real, c.lowest, c.exposure, c.exposure)
    else Begin(target as real, c.exposure, c.highest, c.exposure)
  }

  /** Out of reach of the auto function, and still admitted to the search. */
  predicate Begins(t: Trait, target: int, range: Range) {
    OutOfReach(t, target, range) && Admitted(target, range)
  }

  /**
   Exactly when a search begins. With a GigE camera never: the same comparison sends a target to the search and
   turns it away there. With a USB camera only for targets below the range once they are converted.
   */
  lemma BeginsIff(t: Trait, target: int, range: Range)
    ensures t.GigE? ==> !Begins(t, target, range)
    ensures target >= 0 ==>
              (Begins(t, target, range) <==> t.Usb? && Admitted(target, range) && Convert(Usb, target) < range.min)
  {
  }

  class ExtendedBrightness {
    const t: Trait
    var running: bool
    var search: ExposureSearch?

    /** A search that has refused is never kept. */
    ghost predicate Usable()
      reads this, search
    {
      search != null ==> Accepts(search.State())
    }

    constructor (t: Trait)
      ensures this.t == t && search == null && !running && Usable()
    {
      this.t, running, search := t, false, null;
    }

    ghost function Current(target: int, range: Range, c: Cycle): Bracket
      reads this, search
    {
      if search == null then BeginAt(t, target, range, c) else search.State()
    }

    ghost predicate AtLimit()
      reads this, search
    {
      search != null && search.limitReached
    }

    method DisableAll()
      modifies this
      ensures search == null && !running
    {
      running, search := false, null;
    }

    /**
     One cycle of the search. A refusal deletes it, so no search is updated after it has refused, and every
     refusal that the camera ever sees is that of an empty bracket.
     */
    method SetExtendedBrightness(target: int, range: Range, c: Cycle) returns (verdict: Verdict)
      requires Usable()
      modifies this, search
      ensures Usable()
      ensures search == null || search == old(search) || fresh(search)
      ensures var after := Narrow(old(Current(target, range, c)), Reading(c.brightness, c.exposure));
        verdict == if !Admitted(target, range) then TargetOutOfRange
                   else if old(AtLimit()) then LimitReached
                   else if !Accepts(after) then Refused
                   else if c.reached.None? then NotSet
                   else Exposed
      ensures verdict.TargetOutOfRange? <==> target as real <= range.min || range.max < target as real
      ensures verdict.TargetOutOfRange? ==>
                && search == old(search) && running == old(running)
                && (search != null ==> search.State() == old(search.State()))
      ensures verdict.LimitReached? || verdict.Refused? ==> search == null && !running
      ensures var after := Narrow(old(Current(target, range, c)), Reading(c.brightness, c.exposure));
        && (verdict.Refused? ==> Width(after) == 0.0)
        && (verdict.NotSet? || verdict.Exposed? ==>
              && search != null && search.State() == after && running == old(running)
              && (search.limitReached <==> c.reached == Some(c.minimum) || c.reached == Some(c.maximum)))
    {
      if target as real <= range.min || target as real > range.max {
        return TargetOutOfRange;
      }
      if search == null {
        if Convert(t, target) < range.min {
          search := new ExposureSearch(target as real, c.lowest, c.exposure, c.exposure);
        } else {
          search := new ExposureSearch(target as real, c.exposure, c.highest, c.exposure);
        }
      }
      if search.limitReached {
        DisableAll();
        return LimitReached;
      }
      ghost var before := search.State();
      var accepted := search.Update(c.brightness, c.exposure);
      if !accepted {
        WideRefusalIff(before, Reading(c.brightness, c.exposure));
        DisableAll();
        return Refused;
      }
      if c.reached.None? {
        return NotSet;
      }
      if c.reached.value == c.minimum || c.reached.value == c.maximum {
        search.limitReached := true;
      }
      return Exposed;
    }

    /**
     The camera's `setBrightness`: targets within reach go to the auto function; the first call for any other
     steers the auto function to its nearer limit, and only later calls search.
     */
    method SetBrightness(targetBrightness: int, range: Range, autoRunning: bool, c: Cycle) returns (verdict: Verdict)
      requires Usable()
      modifies this, search
      ensures Usable()
      ensures search == null || search == old(search) || fresh(search)
      ensures var target := if targetBrightness < 255 then targetBrightness else 255;
        && (verdict.AutoRunning? <==> autoRunning)
        && (verdict.LeftToAuto? <==> !autoRunning && !OutOfReach(t, target, range))
        && (verdict.LeftToAuto? && t.GigE? ==> range.min <= target as real <= range.max)
        && (verdict.LeftToAuto? && t.Usb? ==> 255.0 * range.min <= target as real <= 255.0 * range.max)
        && (verdict.PreControlled? <==> !autoRunning && OutOfReach(t, target, range) && !old(running))
        && (OfSearch(verdict) ==> old(running) && (old(search) != null || Begins(t, target, range)))
        && (old(search) == null ==> (search != null <==> !autoRunning && old(running) && Begins(t, target, range)))
      ensures verdict.PreControlled? ==> running
      ensures verdict.AutoRunning? || verdict.LeftToAuto? || verdict.PreControlled? ==>
                search == old(search) && (search != null ==> search.State() == old(search.State()))
      ensures verdict.Refused? ==> search == null && !running
    {
      var target := if targetBrightness < 255 then targetBrightness else 255;
      if autoRunning {
        return AutoRunning;
      }
      var toSet := Convert(t, target);
      if range.min <= toSet && range.max >= toSet {
        return LeftToAuto;
      }
      if running {
        verdict := SetExtendedBrightness(target, range, c);
      } else {
        running := true;
        return PreControlled;
      }
    }
  }

  /** A call of `setBrightness`, and whether the node had given up the search before it. */
  datatype Call = Call(target: int, range: Range, autoRunning: bool, cycle: Cycle, disabled: bool)

  predicate CallBegins(t: Trait, q: Call) {
    Begins(t, if q.target < 255 then q.target else 255, q.range)
  }

  predicate OfSearch(v: Verdict) {
    v.LimitReached? || v.Refused? || v.NotSet? || v.Exposed?
  }

  /**
   Any number of calls on a new camera: unless one of them begins a search, no call ever searches. With a GigE
   camera none does, nor with any camera whose range lies within 0.0 to 1.0, below 1.0, and no target is negative.
   */
  method Serve(t: Trait, calls: seq<Call>) returns (verdicts: seq<Verdict>)
    ensures |verdicts| == |calls|
    ensures (forall q :: q in calls ==> !CallBegins(t, q)) ==> forall v :: v in verdicts ==> !OfSearch(v)
    ensures t.GigE? ==> forall v :: v in verdicts ==> !OfSearch(v)
    ensures (forall q :: q in calls ==> q.target >= 0 && 0.0 <= q.range.min && q.range.max < 1.0)
            ==> forall v :: v in verdicts ==> !OfSearch(v)
  {
    var camera := new ExtendedBrightness(t);
    verdicts := [];
    for i := 0 to |calls|
      invariant |verdicts| == i && fresh(camera) && camera.t == t && camera.Usable()
      invariant camera.search == null || fresh(camera.search)
      invariant (forall q :: q in calls ==> !CallBegins(t, q)) ==>
                  camera.search == null && forall v :: v in verdicts ==> !OfSearch(v)
    {
      if calls[i].disabled {
        camera.DisableAll();
      }
      assert calls[i] in calls;
      var verdict := camera.SetBrightness(calls[i].target, calls[i].range, calls[i].autoRunning, calls[i].cycle);
      verdicts := verdicts + [verdict];
    }
    forall q | q in calls && (t.GigE? || (q.target >= 0 && 0.0 <= q.range.min && q.range.max < 1.0))
      ensures !CallBegins(t, q)
    {
      BeginsIff(t, if q.target < 255 then q.target else 255, q.range);
    }
  }

  /** What it takes: a USB camera whose range reaches 1.0, and the darkest target but black. */
  lemma SearchCanBegin()
    ensures Begins(Usb, 1, Range(0.2, 1.0))
  {
    assert 1 as real / 255.0 < 0.2;
  }

  /**
   The search begins between the lowest exposure and the current one, and the first update is fed with that same
   exposure: it leaves the bracket as it was exactly when the image is brighter than the target, and empties it
   otherwise.
   */
  lemma FirstUpdateIff(t: Trait, target: nat, range: Range, c: Cycle)
    requires Begins(t, target, range) && c.exposure != c.lowest
    ensures var b := BeginAt(t, target, range, c);
      var b' := Narrow(b, Reading(c.brightness, c.exposure));
      && b == Begin(target as real, c.lowest, c.exposure, c.exposure)
      && (b' == b <==> c.brightness > target as real)
      && (b' != b ==> Width(b') == 0.0 && b'.stalled == 1)
  {
    BeginsIff(t, target, range);
    var b := BeginAt(t, target, range, c);
    assert b.next != b.left && b.next != b.right;
  }

  lemma {:induction false} NarrowAllFrom(b: Bracket, first: Reading, rest: seq<Reading>)
    ensures NarrowAll(b, [first] + rest) == NarrowAll(Narrow(b, first), rest)
    decreases |rest|
  {
    var all := [first] + rest;
    if rest == [] {
      assert all == [first] && all[..0] == [];
    } else {
      assert all[..|all| - 1] == [first] + rest[..|rest| - 1];
      NarrowAllFrom(b, first, rest[..|rest| - 1]);
    }
  }

  /**
   The camera's whole search in a scene with a monotone response: begun with an image brighter than the target and
   obeyed from then on, it keeps the target bracketed and has halved its width k times after k + 1 updates.
   */
  lemma SearchConverges(t: Trait, target: nat, range: Range, c: Cycle, rest: seq<Reading>, f: Response)
    requires Begins(t, target, range) && Monotone(f) && c.lowest < c.exposure && f(c.lowest) <= target as real
    requires c.brightness == f(c.exposure) > target as real
    requires Obeys(Narrow(BeginAt(t, target, range, c), Reading(c.brightness, c.exposure)), rest)
    requires forall r :: r in rest ==> r.brightness == f(r.exposure)
    ensures var b' := NarrowAll(BeginAt(t, target, range, c), [Reading(c.brightness, c.exposure)] + rest);
      && Brackets(b', f)
      && c.lowest <= b'.left && b'.right <= c.exposure
      && Width(b') == (c.exposure - c.lowest) / Power2(|rest|)
  {
    hide BeginAt, Begins, Narrow, NarrowAll, Monotone, Obeys, Power2;
    FirstUpdateIff(t, target, range, c);
    var b, b' := BeginAt(t, target, range, c), NarrowAll(BeginAt(t, target, range, c), rest);
    assert Brackets(b, f) && Width(b) == c.exposure - c.lowest;
    NarrowAllFrom(b, Reading(c.brightness, c.exposure), rest);
    ObeyedSearch(b, rest, f);
    assert NarrowAll(b, [Reading(c.brightness, c.exposure)] + rest) == b';
  }

  lemma ObeyedSearch(b: Bracket, rest: seq<Reading>, f: Response)
    requires Monotone(f) && Brackets(b, f) && b.next == (b.left + b.right) / 2.0 && Obeys(b, rest)
    requires forall r :: r in rest ==> r.brightness == f(r.exposure)
    ensures var b' := NarrowAll(b, rest);
      && Brackets(b', f)
      && b.left <= b'.left && b'.right <= b.right
      && Width(b') == Width(b) / Power2(|rest|)
  {
    ObeyingTracks(b, rest, f);
    BracketKept(b, rest, f);
    WidthHalves(b, rest);
    hide Monotone, Tracks, Obeys, NarrowAll;
  }

  /**
   Begun with an image that is dark enough already, an obeyed search never moves again: it asks for the current
   exposure, whatever it sees, and gives up at its third update.
   */
  lemma {:induction false} DarkStartGivesUp(t: Trait, target: nat, range: Range, c: Cycle, rest: seq<Reading>)
    requires Begins(t, target, range) && c.exposure != c.lowest && c.brightness <= target as real
    requires Obeys(Narrow(BeginAt(t, target, range, c), Reading(c.brightness, c.exposure)), rest)
    ensures var b' := NarrowAll(BeginAt(t, target, range, c), [Reading(c.brightness, c.exposure)] + rest);
      && b'.left == b'.right == b'.next == c.exposure
      && b'.stalled == |rest| + 1
      && (Accepts(b') <==> |rest| < 2)
    decreases |rest|
  {
    var b, first := BeginAt(t, target, range, c), Reading(c.brightness, c.exposure);
    FirstUpdateIff(t, target, range, c);
    NarrowAllFrom(b, first, rest);
    if rest != [] {
      var before := rest[..|rest| - 1];
      DarkStartGivesUp(t, target, range, c, before);
      NarrowAllFrom(b, first, before);
    }
  }
}
