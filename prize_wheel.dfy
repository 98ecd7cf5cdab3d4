/**
 * The prize wheel: the circle is cut into one equal segment per restaurant;
 * a spin picks a restaurant index at random, turns the wheel five full turns
 * plus the amount that brings the middle of that segment to the top, and a
 * timer later reveals the restaurant picked.
 *
 * Angles are exact reals (`360 / N` and half of it); the random number is a
 * parameter in `[0, 1)`, as `Math.random` returns.
 */
module PrizeWheel {
  import opened Wrappers

  /** The segment colours, reused in turn. */
  const Colors: seq<string> := [
    "#FF6B6B", "#4ECDC4", "#45B7D1", "#96CEB4", "#FECA57",
    "#FF9FF3", "#54A0FF", "#5F27CD", "#00D2D3", "#FF9F43"
  ]

  /** Full turns added to every spin. */
  const Spins := 5

  // ---------------------------------------------------------------------------
  // Spin geometry
  // ---------------------------------------------------------------------------

  /** The angle each of `n` segments spans. */
  function SegmentAngle(n: nat): (seg: real)
    requires n > 0
    ensures seg > 0.0 && seg * n as real == 360.0
  {
    360.0 / n as real
  }

  /** `Math.floor(random * n)`: the index of the restaurant chosen. */
  function RandomIndex(random: real, n: nat): (i: nat)
    requires 0.0 <= random < 1.0 && n > 0
    ensures i < n
    ensures i as real <= random * n as real < i as real + 1.0
  {
    var x := random * n as real;
    FractionScaled(random, n as real);
    FloorInRange(x, n);
    x.Floor
  }

  lemma {:induction false} FloorInRange(x: real, n: nat)
    requires 0.0 <= x < n as real
    ensures 0 <= x.Floor < n
  {
  }

  /**
   * Every index is drawn by exactly the random numbers of one interval of
   * length `1/n`: index `i` comes out when `i/n <= random < (i+1)/n`.
   */
  lemma {:induction false} RandomIndexInterval(random: real, n: nat, i: nat)
    requires 0.0 <= random < 1.0 && n > 0
    ensures RandomIndex(random, n) == i <==> i as real / n as real <= random < (i + 1) as real / n as real
  {
    var x := random * n as real;
    DivideBounds(i as real, random, n as real);
    DivideBounds((i + 1) as real, random, n as real);
    var j := RandomIndex(random, n);
    if i as real <= x < (i + 1) as real {
      IntervalUnique(j, i, 1.0, x);
    }
  }

  /** Dividing by a positive `m` on one side is multiplying by it on the other. */
  lemma {:induction false} DivideBounds(a: real, b: real, m: real)
    requires m > 0.0
    ensures a / m <= b <==> a <= b * m
    ensures b < a / m <==> b * m < a
  {
    var q := a / m;
    assert q * m == a;
    if q <= b {
      ScaleMonotone(q, b, m);
    } else {
      ScaleStrict(b, q, m);
    }
  }

  /** The middle of segment `i`: the angle the spin brings to the top. */
  function TargetAngle(i: nat, n: nat): (a: real)
    requires i < n
    ensures i as real * SegmentAngle(n) < a < (i + 1) as real * SegmentAngle(n)
    ensures 0.0 < a < 360.0
  {
    var seg := SegmentAngle(n);
    assert (i + 1) as real * seg <= n as real * seg;
    i as real * seg + seg / 2.0
  }

  /** The cumulative rotation after a spin that chose index `i`. */
  function NextRotation(rotation: real, i: nat, n: nat): (r: real)
    requires i < n
    ensures rotation + 1800.0 < r < rotation + 2160.0
  {
    rotation + 360.0 * Spins as real + (360.0 - TargetAngle(i, n))
  }

  // ---------------------------------------------------------------------------
  // Where the pointer points
  // ---------------------------------------------------------------------------

  /** `x` reduced to a full turn: the angle in `[0, 360)` that differs from `x` by whole turns. */
  function Norm360(x: real): (a: real)
    ensures 0.0 <= a < 360.0
  {
    x - 360.0 * (x / 360.0).Floor as real
  }

  lemma {:induction false} Norm360Turns(a: real, k: int)
    requires 0.0 <= a < 360.0
    ensures Norm360(a + 360.0 * k as real) == a
  {
    var x := a + 360.0 * k as real;
    assert x / 360.0 == a / 360.0 + k as real;
    assert (x / 360.0).Floor == k;
  }

  /**
   * The wheel angle under the pointer, which sits at angle 0 at the top, once
   * the wheel has turned clockwise by `rotation` degrees.
   */
  function PointerAngle(rotation: real): (a: real)
    ensures 0.0 <= a < 360.0
  {
    Norm360(-rotation)
  }

  /** The segment of `n` that holds the wheel angle `a`. */
  function SegmentAt(a: real, n: nat): (i: nat)
    requires 0.0 <= a < 360.0 && n > 0
    ensures i < n
    ensures i as real * SegmentAngle(n) <= a < (i + 1) as real * SegmentAngle(n)
  {
    var seg := SegmentAngle(n);
    var q := a / seg;
    assert q * seg == a;
    var i := q.Floor;
    assert i as real <= q < i as real + 1.0;
    ScaleMonotone(i as real, q, seg);
    ScaleStrict(q, i as real + 1.0, seg);
    ScaleCancel(q, n as real, seg);
    i
  }

  /** The segment angle `a` falls in is the only one whose span holds it. */
  lemma {:induction false} SegmentAtUnique(a: real, n: nat, j: nat)
    requires 0.0 <= a < 360.0 && n > 0
    requires j as real * SegmentAngle(n) <= a < (j + 1) as real * SegmentAngle(n)
    ensures SegmentAt(a, n) == j
  {
    IntervalUnique(SegmentAt(a, n), j, SegmentAngle(n), a);
  }

  /** Two of the intervals `[k * seg, (k+1) * seg)` that share a point are the same one. */
  lemma {:induction false} IntervalUnique(i: nat, j: nat, seg: real, a: real)
    requires seg > 0.0
    requires i as real * seg <= a < (i + 1) as real * seg
    requires j as real * seg <= a < (j + 1) as real * seg
    ensures i == j
  {
    if i < j {
      ScaleMonotone((i + 1) as real, j as real, seg);
    } else if j < i {
      ScaleMonotone((j + 1) as real, i as real, seg);
    }
  }

  lemma {:induction false} Distribute(i: nat, seg: real)
    ensures (i + 1) as real * seg - i as real * seg == seg
  {
  }

  lemma {:induction false} ScaleMonotone(x: real, y: real, seg: real)
    requires x <= y && seg > 0.0
    ensures x * seg <= y * seg
  {
  }

  lemma {:induction false} ScaleCancel(x: real, y: real, seg: real)
    requires x * seg < y * seg && seg > 0.0
    ensures x < y
  {
    if x >= y {
      ScaleMonotone(y, x, seg);
    }
  }

  /** A fraction in `[0, 1)` of a positive `m` lies in `[0, m)`. */
  lemma {:induction false} FractionScaled(r: real, m: real)
    requires 0.0 <= r < 1.0 && m > 0.0
    ensures 0.0 <= r * m < m
  {
  }

  lemma {:induction false} ScaleStrict(x: real, y: real, seg: real)
    requires x < y && seg > 0.0
    ensures x * seg < y * seg
  {
  }

  /**
   * When the wheel stands at a whole number of turns, the spin ends with the
   * middle of the chosen segment under the pointer.
   */
  lemma {:induction false} SpinAligned(k: int, i: nat, n: nat)
    requires i < n
    ensures PointerAngle(NextRotation(360.0 * k as real, i, n)) == TargetAngle(i, n)
    ensures SegmentAt(TargetAngle(i, n), n) == i
  {
    var target := TargetAngle(i, n);
    assert -NextRotation(360.0 * k as real, i, n) == target + 360.0 * (-(k + 6)) as real;
    Norm360Turns(target, -(k + 6));
    SegmentAtUnique(target, n, i);
  }

  /**
   * Otherwise the rotation is not reset between spins and the pointer can
   * end away from the chosen segment: with three restaurants and index 0
   * drawn three times from a wheel at rest, the first spin ends in the middle
   * of segment 0, the second on the border between segments 0 and 1, and the
   * third in the middle of segment 1, while restaurant 0 is revealed each time.
   */
  lemma {:induction false} RepeatedSpinsDrift()
    ensures PointerAngle(NextRotation(0.0, 0, 3)) == TargetAngle(0, 3)
    ensures SegmentAt(PointerAngle(NextRotation(0.0, 0, 3)), 3) == 0
    ensures PointerAngle(NextRotation(NextRotation(0.0, 0, 3), 0, 3)) == SegmentAngle(3)
    ensures PointerAngle(NextRotation(NextRotation(NextRotation(0.0, 0, 3), 0, 3), 0, 3)) == TargetAngle(1, 3)
    ensures SegmentAt(PointerAngle(NextRotation(NextRotation(NextRotation(0.0, 0, 3), 0, 3), 0, 3)), 3) == 1
  {
    assert SegmentAngle(3) == 120.0;
    assert TargetAngle(0, 3) == 60.0 && TargetAngle(1, 3) == 180.0;
    assert NextRotation(0.0, 0, 3) == 2100.0;
    assert NextRotation(2100.0, 0, 3) == 4200.0;
    assert NextRotation(4200.0, 0, 3) == 6300.0;
    Norm360Turns(60.0, -6);
    assert -2100.0 == 60.0 + 360.0 * (-6) as real;
    Norm360Turns(120.0, -12);
    assert -4200.0 == 120.0 + 360.0 * (-12) as real;
    Norm360Turns(180.0, -18);
    assert -6300.0 == 180.0 + 360.0 * (-18) as real;
    SegmentAtUnique(60.0, 3, 0);
    SegmentAtUnique(180.0, 3, 1);
  }

  // ---------------------------------------------------------------------------
  // Segments
  // ---------------------------------------------------------------------------

  /** What `renderWheelSegments` draws for one restaurant. */
  datatype Segment<T> = Segment(restaurant: T, startAngle: real, endAngle: real, color: string, zIndex: int)

  /**
   * `renderWheelSegments`: nothing for an empty list, else one segment per
   * restaurant. The field-by-field ensures are the layout facts the segment
   * lemmas below build on; what the layout means (the segments tile the
   * circle, contiguous and of equal width, each angle in exactly one) is
   * stated by `SegmentsSpanCircle`, `SegmentsContiguous`,
   * `SegmentsEqualWidth` and `SegmentsPartition`.
   */
  function RenderWheelSegments<T>(restaurants: seq<T>): (r: Option<seq<Segment<T>>>)
    ensures r.None? <==> restaurants == []
    ensures r.Some? ==> |r.value| == |restaurants|
    ensures r.Some? ==> forall i :: 0 <= i < |restaurants| ==>
      r.value[i].restaurant == restaurants[i] &&
      r.value[i].startAngle == i as real * SegmentAngle(|restaurants|) &&
      r.value[i].endAngle == (i + 1) as real * SegmentAngle(|restaurants|) &&
      r.value[i].color == Colors[i % |Colors|] &&
      r.value[i].zIndex == |restaurants| - i
  {
    if restaurants == [] then None
    else
      Some(seq(|restaurants|, i requires 0 <= i < |restaurants| =>
        Segment(restaurants[i], i as real * SegmentAngle(|restaurants|), (i + 1) as real * SegmentAngle(|restaurants|),
          Colors[i % |Colors|], |restaurants| - i)))
  }

  /** Segment `i` of `n` spans `[i * 360/n, (i+1) * 360/n)`. */
  ghost predicate WellSpaced<T>(segs: seq<Segment<T>>) {
    forall i :: 0 <= i < |segs| ==>
      segs[i].startAngle == i as real * SegmentAngle(|segs|) &&
      segs[i].endAngle == (i + 1) as real * SegmentAngle(|segs|)
  }

  /** The segments `renderWheelSegments` draws are laid out as `WellSpaced` says. */
  lemma {:induction false} RenderedWellSpaced<T>(restaurants: seq<T>)
    requires restaurants != []
    ensures RenderWheelSegments(restaurants).Some? && WellSpaced(RenderWheelSegments(restaurants).value)
  {
  }

  /** The segments cover the circle from 0 to 360. */
  lemma {:induction false} SegmentsSpanCircle<T>(segs: seq<Segment<T>>)
    requires WellSpaced(segs) && segs != []
    ensures segs[0].startAngle == 0.0 && segs[|segs| - 1].endAngle == 360.0
  {
    SpanEnds(|segs|, segs[0].startAngle, segs[|segs| - 1].endAngle);
  }

  lemma {:induction false} SpanEnds(n: nat, first: real, last: real)
    requires n > 0
    requires first == 0 as real * SegmentAngle(n) && last == (n - 1 + 1) as real * SegmentAngle(n)
    ensures first == 0.0 && last == 360.0
  {
  }

  /** Each segment ends where the next one starts. */
  lemma {:induction false} SegmentsContiguous<T>(segs: seq<Segment<T>>)
    requires WellSpaced(segs)
    ensures forall i :: 0 <= i < |segs| - 1 ==> segs[i].endAngle == segs[i + 1].startAngle
  {
  }

  /** All segments are equally wide: `360 / N`. */
  lemma {:induction false} SegmentsEqualWidth<T>(segs: seq<Segment<T>>)
    requires WellSpaced(segs)
    ensures forall i :: 0 <= i < |segs| ==> segs[i].endAngle - segs[i].startAngle == SegmentAngle(|segs|)
  {
    forall i | 0 <= i < |segs| ensures segs[i].endAngle - segs[i].startAngle == SegmentAngle(|segs|) {
      Distribute(i, SegmentAngle(|segs|));
    }
  }

  /** Every angle of the circle lies in exactly one segment, the one `SegmentAt` names. */
  lemma {:induction false} SegmentsPartition<T>(segs: seq<Segment<T>>, a: real)
    requires segs != [] && 0.0 <= a < 360.0
    requires WellSpaced(segs)
    ensures segs[SegmentAt(a, |segs|)].startAngle <= a < segs[SegmentAt(a, |segs|)].endAngle
    ensures forall j :: 0 <= j < |segs| && segs[j].startAngle <= a < segs[j].endAngle ==> j == SegmentAt(a, |segs|)
  {
    var i := SegmentAt(a, |segs|);
    SegmentBounds(segs, i);
    forall j | 0 <= j < |segs| && segs[j].startAngle <= a < segs[j].endAngle
      ensures j == i
    {
      SegmentBounds(segs, j);
      SegmentAtUnique(a, |segs|, j);
    }
  }

  lemma {:induction false} SegmentBounds<T>(segs: seq<Segment<T>>, i: nat)
    requires WellSpaced(segs) && i < |segs|
    ensures segs[i].startAngle == i as real * SegmentAngle(|segs|)
    ensures segs[i].endAngle == (i + 1) as real * SegmentAngle(|segs|)
  {
  }

  // ---------------------------------------------------------------------------
  // The spin / reveal state machine
  // ---------------------------------------------------------------------------

  /**
   * The wheel's state. `pending` is the restaurant the scheduled reveal will
   * show: `restaurants[randomIndex]`, fixed when the spin starts. The ghost
   * counters record the spins accepted and the reveals run.
   */
  class Wheel<T> {
    var isSpinning: bool
    var selected: Option<T>
    var rotation: real
    var pending: Option<T>
    ghost var spinsStarted: nat
    ghost var revealsRun: nat

    /**
     * A reveal is scheduled exactly while the wheel spins, nothing is shown
     * while it spins, and every accepted spin has had, or will have, exactly
     * one reveal.
     */
    ghost predicate Valid()
      reads this
    {
      (isSpinning <==> pending.Some?) &&
      (isSpinning ==> selected.None?) &&
      spinsStarted == revealsRun + (if isSpinning then 1 else 0)
    }

    constructor()
      ensures Valid()
      ensures !isSpinning && selected == None && rotation == 0.0 && pending == None
      ensures spinsStarted == 0 && revealsRun == 0
    {
      isSpinning := false;
      selected := None;
      rotation := 0.0;
      pending := None;
      spinsStarted := 0;
      revealsRun := 0;
    }

    /**
     * `handleSpin`: ignored while spinning or with no restaurants; otherwise
     * starts spinning, clears the selection, turns the wheel and schedules
     * the reveal of the restaurant at the drawn index.
     */
    method Spin(restaurants: seq<T>, random: real)
      requires Valid() && 0.0 <= random < 1.0
      modifies this
      ensures Valid()
      ensures old(isSpinning) || restaurants == [] ==>
        isSpinning == old(isSpinning) && selected == old(selected) && rotation == old(rotation) &&
        pending == old(pending) && spinsStarted == old(spinsStarted) && revealsRun == old(revealsRun)
      ensures !old(isSpinning) && restaurants != [] ==>
        var i := RandomIndex(random, |restaurants|);
        isSpinning && selected == None &&
        rotation == NextRotation(old(rotation), i, |restaurants|) && rotation > old(rotation) &&
        pending == Some(restaurants[i]) && pending.value in restaurants &&
        spinsStarted == old(spinsStarted) + 1 && revealsRun == old(revealsRun)
    {
      if isSpinning || |restaurants| == 0 {
        return;
      }
      isSpinning := true;
      selected := None;
      var n := |restaurants|;
      var randomIndex := RandomIndex(random, n);
      var segmentAngle := SegmentAngle(n);
      var targetAngle := randomIndex as real * segmentAngle + segmentAngle / 2.0;
      var finalRotation := rotation + 360.0 * Spins as real + (360.0 - targetAngle);
      rotation := finalRotation;
      pending := Some(restaurants[randomIndex]);
      spinsStarted := spinsStarted + 1;
    }

    /** The timer callback: stops spinning and shows the restaurant drawn. */
    method Reveal()
      requires Valid() && isSpinning
      modifies this
      ensures Valid()
      ensures !isSpinning && selected == old(pending) && selected.Some? && pending == None
      ensures rotation == old(rotation) && spinsStarted == old(spinsStarted) && revealsRun == old(revealsRun) + 1
    {
      isSpinning := false;
      selected := pending;
      pending := None;
      revealsRun := revealsRun + 1;
    }
  }

  /**
   * A spin followed by its reveal shows the restaurant at the drawn index
   * of the list the spin was given.
   */
  method SpinThenReveal<T>(w: Wheel<T>, restaurants: seq<T>, random: real)
    requires w.Valid() && !w.isSpinning && restaurants != [] && 0.0 <= random < 1.0
    modifies w
    ensures w.Valid() && !w.isSpinning
    ensures w.selected == Some(restaurants[RandomIndex(random, |restaurants|)])
    ensures w.spinsStarted == w.revealsRun
  {
    w.Spin(restaurants, random);
    w.Reveal();
  }
}
