// The grid infill of src/utils/infill/grid.ts: a family of parallel cutting
// planes at a fixed pitch over the layer's bounding box, the contour edges
// each plane cuts, sorted along the plane, and paired even-odd into infill
// segments. three.js's Plane.intersectLine is foreign: it is the parameter
// `cut`, which yields the point where the plane meets the edge, if any.

module GridInfill {
  import opened Wrappers
  import opened Three

  type Segment = (Vector3, Vector3)

  /** The pitch between neighbouring planes. */
  const DistanceBetween: real := 5.0

  /** The fixed far point the intersections are ordered by distance from. */
  const Far: Vector3 := Vector3(-1000.0, 0.0, 1000.0)

  /** A copy of `plane` with its constant moved by `delta`. */
  function Shift(plane: Plane, delta: real): (r: Plane)
    ensures r.normal == plane.normal
    ensures forall p: Vector3 :: DistanceToPoint(r, p) == DistanceToPoint(plane, p) + delta
  {
    Plane(plane.normal, plane.constant + delta)
  }

  /** How many i = 0, 1, ... have e - 5i >= 0 before the first one that does not. */
  function StepCount(e: real): (n: nat)
  {
    if e < 0.0 then 0 else (e / DistanceBetween).Floor + 1
  }

  /** The test value of step i: e moved down by i pitches. */
  function Step(e: real, i: nat): real
  {
    e - DistanceBetween * i as real
  }

  /** StepCount is where the scan stops: every earlier step passes the test, step n is the first to fail. */
  lemma StepCountStops(e: real)
    ensures forall i: nat :: i < StepCount(e) ==> Step(e, i) >= 0.0
    ensures Step(e, StepCount(e)) < 0.0
  {
    if e >= 0.0 {
      var q := e / DistanceBetween;
      assert q.Floor as real <= q < q.Floor as real + 1.0;
      assert e == DistanceBetween * q;
    }
  }

  /** The planes first, first - 5, first - 10, ... of the first loop, which reach bounds.max. */
  function PlanesDown(first: Plane, boundsMax: Vector3, start: nat): (r: seq<Plane>)
  {
    var n := StepCount(DistanceToPoint(first, boundsMax));
    seq(if n < start then 0 else n - start, k => Shift(first, -DistanceBetween * (start + k) as real))
  }

  /** The planes first, first + 5, first + 10, ... of the second loop, which reach bounds.min. */
  function PlanesUp(first: Plane, boundsMin: Vector3, start: nat): (r: seq<Plane>)
  {
    var n := StepCount(-DistanceToPoint(first, boundsMin));
    seq(if n < start then 0 else n - start, k => Shift(first, DistanceBetween * (start + k) as real))
  }

  /**
   * The first loop of gridPass, counting from `start`: keep pushing
   * first - 5i while bounds.max is on or above it.
   */
  method ScanDown(first: Plane, boundsMax: Vector3, start: nat) returns (planes: seq<Plane>)
    ensures planes == PlanesDown(first, boundsMax, start)
    ensures forall k :: 0 <= k < |planes| ==> DistanceToPoint(planes[k], boundsMax) >= 0.0
  {
    ghost var e := DistanceToPoint(first, boundsMax);
    StepCountStops(e);
    planes := [];
    var i := start;
    while true
      invariant i >= start && (i - start == |planes|)
      invariant forall k :: 0 <= k < |planes| ==> planes[k] == Shift(first, -DistanceBetween * (start + k) as real)
      invariant forall k :: 0 <= k < |planes| ==> DistanceToPoint(planes[k], boundsMax) >= 0.0
      invariant start < StepCount(e) ==> i <= StepCount(e)
      invariant start >= StepCount(e) ==> i == start
      decreases e.Floor - DistanceBetween.Floor * i + 5
    {
      var plane := Shift(first, -DistanceBetween * i as real);
      if DistanceToPoint(plane, boundsMax) >= 0.0 {
        i := i + 1;
        planes := planes + [plane];
        continue;
      }
      break;
    }
  }

  /**
   * The second loop of gridPass, counting from `start`: keep pushing
   * first + 5i while bounds.min is on or below it.
   */
  method ScanUp(first: Plane, boundsMin: Vector3, start: nat) returns (planes: seq<Plane>)
    ensures planes == PlanesUp(first, boundsMin, start)
    ensures forall k :: 0 <= k < |planes| ==> DistanceToPoint(planes[k], boundsMin) <= 0.0
  {
    ghost var e := -DistanceToPoint(first, boundsMin);
    StepCountStops(e);
    planes := [];
    var i := start;
    while true
      invariant i >= start && (i - start == |planes|)
      invariant forall k :: 0 <= k < |planes| ==> planes[k] == Shift(first, DistanceBetween * (start + k) as real)
      invariant forall k :: 0 <= k < |planes| ==> DistanceToPoint(planes[k], boundsMin) <= 0.0
      invariant start < StepCount(e) ==> i <= StepCount(e)
      invariant start >= StepCount(e) ==> i == start
      decreases e.Floor - DistanceBetween.Floor * i + 5
    {
      var plane := Shift(first, DistanceBetween * i as real);
      if DistanceToPoint(plane, boundsMin) <= 0.0 {
        i := i + 1;
        planes := planes + [plane];
        continue;
      }
      break;
    }
  }

  /** The planes of gridPass as written: the first plane, then both loops from i = 0. */
  method GridPlanesAsWritten(first: Plane, bounds: Box3) returns (planes: seq<Plane>)
    ensures planes == [first] + PlanesDown(first, bounds.max, 0) + PlanesUp(first, bounds.min, 0)
  {
    planes := [first];
    var below := ScanDown(first, bounds.max, 0);
    planes := planes + below;
    var above := ScanUp(first, bounds.min, 0);
    planes := planes + above;
  }

  /**
   * When the box straddles the first plane, both loops push it again at
   * i = 0, so it is cut (and its infill drawn) three times.
   */
  lemma AsWrittenRepeatsFirstPlane(first: Plane, bounds: Box3)
    requires DistanceToPoint(first, bounds.max) >= 0.0 && DistanceToPoint(first, bounds.min) <= 0.0
    ensures var planes := [first] + PlanesDown(first, bounds.max, 0) + PlanesUp(first, bounds.min, 0);
      |planes| >= 3 && planes[1] == first && planes[1 + |PlanesDown(first, bounds.max, 0)|] == first
  {
    assert Shift(first, -DistanceBetween * 0 as real) == first;
    assert Shift(first, DistanceBetween * 0 as real) == first;
  }

  function CorrectedPlanes(first: Plane, bounds: Box3): seq<Plane>
  {
    [first] + PlanesDown(first, bounds.max, 1) + PlanesUp(first, bounds.min, 1)
  }

  /** The planes with the evidently intended loops, which start at i = 1: each plane once. */
  method GridPlanes(first: Plane, bounds: Box3) returns (planes: seq<Plane>)
    ensures planes == CorrectedPlanes(first, bounds)
  {
    planes := [first];
    var below := ScanDown(first, bounds.max, 1);
    planes := planes + below;
    var above := ScanUp(first, bounds.min, 1);
    planes := planes + above;
  }

  /** The offset of plane k of GridPlanes from the first plane. */
  function PlaneOffset(nDown: nat, k: nat): real
  {
    if k == 0 then 0.0
    else if k <= nDown then -DistanceBetween * k as real
    else DistanceBetween * (k - nDown) as real
  }

  /** The corrected planes are the first plane shifted by 0, -5, -10, ..., then +5, +10, ...: no two alike. */
  lemma GridPlanesDistinct(first: Plane, bounds: Box3)
    ensures var planes := CorrectedPlanes(first, bounds);
      var nDown := |PlanesDown(first, bounds.max, 1)|;
      (forall k :: 0 <= k < |planes| ==> planes[k] == Shift(first, PlaneOffset(nDown, k))) &&
      (forall j, k :: 0 <= j < k < |planes| ==> planes[j] != planes[k])
  {
    var down := PlanesDown(first, bounds.max, 1);
    var up := PlanesUp(first, bounds.min, 1);
    var planes := [first] + down + up;
    var nDown := |down|;
    forall k | 0 <= k < |planes|
      ensures planes[k] == Shift(first, PlaneOffset(nDown, k))
    {
      if k == 0 {
      } else if k <= nDown {
        assert planes[k] == down[k - 1];
      } else {
        assert planes[k] == up[k - 1 - nDown];
      }
    }
    forall j, k | 0 <= j < k < |planes|
      ensures planes[j] != planes[k]
    {
      assert planes[j].constant == first.constant + PlaneOffset(nDown, j);
      assert planes[k].constant == first.constant + PlaneOffset(nDown, k);
    }
  }

  // ----- intersections of one plane with the contours -----

  /** The hits of edges 0 .. k-1 of a closed contour; edge i joins point i to point (i + 1) mod length. */
  function EdgeHits(contour: seq<Vector3>, plane: Plane, cut: (Plane, Vector3, Vector3) -> Option<Vector3>,
                    k: nat): (r: seq<Vector3>)
    requires k <= |contour|
    ensures |r| <= k
  {
    if k == 0 then []
    else
      var i := k - 1;
      var prev := EdgeHits(contour, plane, cut, i);
      match cut(plane, contour[i], contour[(i + 1) % |contour|])
      case Some(p) => prev + [p]
      case None => prev
  }

  /** The closing edge, from the last point back to the first, is cut too. */
  lemma ClosingEdgeCut(contour: seq<Vector3>, plane: Plane, cut: (Plane, Vector3, Vector3) -> Option<Vector3>)
    requires |contour| > 0
    requires cut(plane, contour[|contour| - 1], contour[0]).Some?
    ensures var hits := EdgeHits(contour, plane, cut, |contour|);
      |hits| > 0 && hits[|hits| - 1] == cut(plane, contour[|contour| - 1], contour[0]).value
  {
    assert (|contour| - 1 + 1) % |contour| == 0;
  }

  /** The for-loop over one contour's edges. */
  method ContourHits(contour: seq<Vector3>, plane: Plane, cut: (Plane, Vector3, Vector3) -> Option<Vector3>)
    returns (intersections: seq<Vector3>)
    ensures intersections == EdgeHits(contour, plane, cut, |contour|)
  {
    intersections := [];
    for i := 0 to |contour|
      invariant intersections == EdgeHits(contour, plane, cut, i)
    {
      var p1 := contour[i];
      var p2 := contour[(i + 1) % |contour|];
      var intersection := cut(plane, p1, p2);
      if intersection.Some? {
        intersections := intersections + [intersection.value];
      }
    }
  }

  /** map over the contours, filter out the hit-less ones, flatten: the hits of the first n contours. */
  function PlaneHits(contours: seq<seq<Vector3>>, plane: Plane, cut: (Plane, Vector3, Vector3) -> Option<Vector3>,
                     n: nat): (r: seq<Vector3>)
    requires n <= |contours|
  {
    if n == 0 then []
    else
      var hits := EdgeHits(contours[n - 1], plane, cut, |contours[n - 1]|);
      PlaneHits(contours, plane, cut, n - 1) + (if |hits| > 0 then hits else [])
  }

  method CollectHits(contours: seq<seq<Vector3>>, plane: Plane, cut: (Plane, Vector3, Vector3) -> Option<Vector3>)
    returns (all: seq<Vector3>)
    ensures all == PlaneHits(contours, plane, cut, |contours|)
  {
    all := [];
    for c := 0 to |contours|
      invariant all == PlaneHits(contours, plane, cut, c)
    {
      var hits := ContourHits(contours[c], plane, cut);
      if |hits| > 0 {
        all := all + hits;
      }
    }
  }

  // ----- ordering along the plane -----

  /** The sort key: squared distance to the far point, which orders exactly as distanceTo does. */
  function Key(p: Vector3): real
  {
    DistanceSq(p, Far)
  }

  predicate SortedBy(s: seq<Vector3>, key: Vector3 -> real)
  {
    forall i, j :: 0 <= i < j < |s| ==> key(s[i]) <= key(s[j])
  }

  /** Inserts x after every element whose key is not larger (so equal keys keep their order). */
  function Insert(x: Vector3, s: seq<Vector3>, key: Vector3 -> real): (r: seq<Vector3>)
    requires SortedBy(s, key)
    ensures multiset(r) == multiset(s) + multiset{x}
    ensures SortedBy(r, key)
  {
    if |s| == 0 then [x]
    else if key(x) < key(s[0]) then
      SortedCons(x, s, key);
      [x] + s
    else
      var rest := Insert(x, s[1..], key);
      assert s == [s[0]] + s[1..];
      forall y | y in rest
        ensures key(s[0]) <= key(y)
      {
        assert y in multiset(rest);
        assert y == x || y in s[1..];
      }
      SortedCons(s[0], rest, key);
      [s[0]] + rest
  }

  lemma SortedCons(h: Vector3, rest: seq<Vector3>, key: Vector3 -> real)
    requires SortedBy(rest, key)
    requires forall y :: y in rest ==> key(h) <= key(y)
    ensures SortedBy([h] + rest, key)
  {
    var r := [h] + rest;
    forall i, j | 0 <= i < j < |r|
      ensures key(r[i]) <= key(r[j])
    {
      if i == 0 {
        assert r[j] in rest;
      } else {
        assert r[i] == rest[i - 1] && r[j] == rest[j - 1];
      }
    }
  }

  /** Insertion sort by key, a stable sort. */
  function SortBy(s: seq<Vector3>, key: Vector3 -> real): (r: seq<Vector3>)
    ensures multiset(r) == multiset(s)
    ensures SortedBy(r, key)
  {
    if |s| == 0 then []
    else
      assert s == s[..|s| - 1] + [s[|s| - 1]];
      Insert(s[|s| - 1], SortBy(s[..|s| - 1], key), key)
  }

  /** The sort of the intersections by distance to the far point. */
  function SortByFar(s: seq<Vector3>): (r: seq<Vector3>)
    ensures multiset(r) == multiset(s)
    ensures forall i, j :: 0 <= i < j < |r| ==> Key(r[i]) <= Key(r[j])
  {
    SortBy(s, Key)
  }

  // ----- even-odd pairing -----

  /** (s[0], s[1]), (s[2], s[3]), ...; a trailing odd point is dropped. */
  function Pairs(s: seq<Vector3>): (r: seq<Segment>)
    ensures |r| == |s| / 2
    ensures forall k :: 0 <= k < |r| ==> r[k] == (s[2 * k], s[2 * k + 1])
  {
    if |s| < 2 then [] else [(s[0], s[1])] + Pairs(s[2..])
  }

  /** On sorted points every infill segment runs away from the far point, and the segments follow each other. */
  lemma PairsOrdered(s: seq<Vector3>)
    requires forall i, j :: 0 <= i < j < |s| ==> Key(s[i]) <= Key(s[j])
    ensures forall k :: 0 <= k < |Pairs(s)| ==> Key(Pairs(s)[k].0) <= Key(Pairs(s)[k].1)
    ensures forall k :: 0 <= k < |Pairs(s)| - 1 ==> Key(Pairs(s)[k].1) <= Key(Pairs(s)[k + 1].0)
  {
    var r := Pairs(s);
    forall k | 0 <= k < |r|
      ensures Key(r[k].0) <= Key(r[k].1)
    {
      assert r[k] == (s[2 * k], s[2 * k + 1]);
    }
    forall k | 0 <= k < |r| - 1
      ensures Key(r[k].1) <= Key(r[k + 1].0)
    {
      assert r[k].1 == s[2 * k + 1] && r[k + 1].0 == s[2 * k + 2];
    }
  }

  function Min(a: int, b: int): int
  {
    if a < b then a else b
  }

  /** The pairing loop: appends the pairs of `sorted` to `lines`. */
  method PairUp(sorted: seq<Vector3>, lines: seq<Segment>) returns (out: seq<Segment>)
    ensures out == lines + Pairs(sorted)
  {
    out := lines;
    var i := 0;
    while i < |sorted|
      invariant i % 2 == 0 && i <= |sorted| + 1
      invariant |out| == |lines| + Min(i, |sorted|) / 2
      invariant out[..|lines|] == lines
      invariant forall k :: 0 <= k < Min(i, |sorted|) / 2 ==> out[|lines| + k] == (sorted[2 * k], sorted[2 * k + 1])
    {
      if i + 1 >= |sorted| {
        i := i + 2;
        continue;
      }
      out := out + [(sorted[i], sorted[i + 1])];
      i := i + 2;
    }
    assert |out| == |lines + Pairs(sorted)|;
  }

  // ----- gridPass and gridInfill -----

  /** The infill segments the planes contribute, plane after plane. */
  function PassLines(planes: seq<Plane>, contours: seq<seq<Vector3>>,
                     cut: (Plane, Vector3, Vector3) -> Option<Vector3>): seq<Segment>
  {
    if |planes| == 0 then []
    else
      var last := planes[|planes| - 1];
      PassLines(planes[..|planes| - 1], contours, cut) + Pairs(SortByFar(PlaneHits(contours, last, cut, |contours|)))
  }

  predicate Joins(line: Segment, hits: seq<Vector3>)
  {
    line.0 in hits && line.1 in hits
  }

  lemma PassLinesSnoc(planes: seq<Plane>, contours: seq<seq<Vector3>>,
                      cut: (Plane, Vector3, Vector3) -> Option<Vector3>, j: nat)
    requires j < |planes|
    ensures PassLines(planes[..j + 1], contours, cut)
         == PassLines(planes[..j], contours, cut) + Pairs(SortByFar(PlaneHits(contours, planes[j], cut, |contours|)))
  {
    assert planes[..j + 1][..j] == planes[..j];
  }

  /** Every infill segment joins two intersections of one plane with the contours. */
  lemma {:induction false} PassLinesFromHits(planes: seq<Plane>, contours: seq<seq<Vector3>>,
                                             cut: (Plane, Vector3, Vector3) -> Option<Vector3>, k: nat)
    requires k < |PassLines(planes, contours, cut)|
    ensures exists p :: p in planes && Joins(PassLines(planes, contours, cut)[k], PlaneHits(contours, p, cut, |contours|))
  {
    var init := planes[..|planes| - 1];
    var last := planes[|planes| - 1];
    var prev := PassLines(init, contours, cut);
    if k < |prev| {
      PassLinesFromHits(init, contours, cut, k);
      var p :| p in init && Joins(prev[k], PlaneHits(contours, p, cut, |contours|));
      assert PassLines(planes, contours, cut)[k] == prev[k];
      assert p in planes;
    } else {
      var hits := PlaneHits(contours, last, cut, |contours|);
      var sorted := SortByFar(hits);
      var j := k - |prev|;
      assert PassLines(planes, contours, cut)[k] == Pairs(sorted)[j] == (sorted[2 * j], sorted[2 * j + 1]);
      assert sorted[2 * j] in multiset(sorted) && sorted[2 * j + 1] in multiset(sorted);
      assert last in planes;
      assert Joins(PassLines(planes, contours, cut)[k], hits);
    }
  }

  /** The forEach callback of gridPass for one plane. */
  method PassPlane(contours: seq<seq<Vector3>>, plane: Plane, cut: (Plane, Vector3, Vector3) -> Option<Vector3>,
                   lines: seq<Segment>) returns (out: seq<Segment>)
    ensures out == lines + Pairs(SortByFar(PlaneHits(contours, plane, cut, |contours|)))
  {
    var intersections := CollectHits(contours, plane, cut);
    var sorted := SortByFar(intersections);
    out := PairUp(sorted, lines);
  }

  /** gridPass: the planes through the origin with normal lineDirection, every plane's pairs appended to `lines`. */
  method GridPass(lineDirection: Vector3, contours: seq<seq<Vector3>>, bounds: Box3,
                  cut: (Plane, Vector3, Vector3) -> Option<Vector3>, lines: seq<Segment>)
    returns (out: seq<Segment>)
    ensures out == lines + PassLines(CorrectedPlanes(FirstPlane(lineDirection), bounds), contours, cut)
  {
    var firstPlane := FirstPlane(lineDirection);
    var planes := GridPlanes(firstPlane, bounds);
    out := PassAll(planes, contours, cut, lines);
  }

  lemma LinesAssoc(a: seq<Segment>, b: seq<Segment>, c: seq<Segment>)
    ensures (a + b) + c == a + (b + c)
  {
  }

  /** planes.forEach: each plane's pairs appended in plane order. */
  method PassAll(planes: seq<Plane>, contours: seq<seq<Vector3>>,
                 cut: (Plane, Vector3, Vector3) -> Option<Vector3>, lines: seq<Segment>)
    returns (out: seq<Segment>)
    ensures out == lines + PassLines(planes, contours, cut)
  {
    out := lines;
    for j := 0 to |planes|
      invariant out == lines + PassLines(planes[..j], contours, cut)
    {
      PassLinesSnoc(planes, contours, cut, j);
      ghost var before := out;
      out := PassPlane(contours, planes[j], cut, out);
      LinesAssoc(lines, PassLines(planes[..j], contours, cut), out[|before|..]);
    }
    assert planes[..|planes|] == planes;
  }

  /** setFromNormalAndCoplanarPoint(normal, origin): the plane through the origin. */
  function FirstPlane(normal: Vector3): (p: Plane)
    ensures DistanceToPoint(p, Vector3(0.0, 0.0, 0.0)) == 0.0
  {
    Plane(normal, 0.0)
  }

  /**
   * gridInfill: one pass along (1, 0, 1) normalised, whose components are
   * 1/sqrt(2), given as `invSqrt2`. The density is accepted and unused.
   */
  method GridInfillLines(contours: seq<seq<Vector3>>, density: real, bounds: Box3,
                         cut: (Plane, Vector3, Vector3) -> Option<Vector3>, invSqrt2: real)
    returns (lines: seq<Segment>)
    requires invSqrt2 > 0.0 && 2.0 * invSqrt2 * invSqrt2 == 1.0
    ensures var first := FirstPlane(Vector3(invSqrt2, 0.0, invSqrt2));
      lines == PassLines(CorrectedPlanes(first, bounds), contours, cut)
  {
    lines := [];
    lines := GridPass(Vector3(invSqrt2, 0.0, invSqrt2), contours, bounds, cut, lines);
  }
}
