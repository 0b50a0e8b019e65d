// The axis-aligned boxes of src/lib/slicer/BoundingBox.ts.
//
// A box has a `defined` flag and two corner objects. Where the corners come
// from matters in the source: the (min, max) constructor keeps the caller's
// point objects, which carry scale/translate methods, while the point-list
// constructor and a merge into an undefined box store plain `{...p}` copies,
// which do not. scale, translate and offset dispatch on that, so the model
// records it in `Corners.instances`.

module BoundingBoxes {
  import opened Wrappers
  import opened Points

  /** The corner pair of a box; `Unset` before any constructor or merge stored one. */
  datatype Corners<P> = Unset | Set(min: P, max: P, instances: bool)

  /** The state of a planar box (BoundingBoxBase<Point>, BoundingBox, BoundingBoxf). */
  datatype Box2 = Box2(defined: bool, corners: Corners<Coords>)

  /** The state of a spatial box (BoundingBox3Base, BoundingBoxf3). */
  datatype Box3 = Box3(defined: bool, corners: Corners<Pointf3>)

  function Min(a: real, b: real): (r: real)
    ensures r <= a && r <= b && (r == a || r == b)
  {
    if a <= b then a else b
  }

  function Max(a: real, b: real): (r: real)
    ensures r >= a && r >= b && (r == a || r == b)
  {
    if a >= b then a else b
  }

  // ---------------------------------------------------------------- extents

  function X(p: Coords): real { p.x }
  function Y(p: Coords): real { p.y }
  function X3(p: Pointf3): real { p.x }
  function Y3(p: Pointf3): real { p.y }
  function Z3(p: Pointf3): real { p.z }

  /** The smallest coordinate f(p) over a non-empty list of points. */
  function Lo<P>(points: seq<P>, f: P -> real): (r: real)
    requires |points| > 0
    ensures forall i :: 0 <= i < |points| ==> r <= f(points[i])
    ensures exists i :: 0 <= i < |points| && r == f(points[i])
  {
    if |points| == 1 then f(points[0])
    else
      var rest := Lo(points[..|points| - 1], f);
      assert forall i :: 0 <= i < |points| - 1 ==> points[..|points| - 1][i] == points[i];
      Min(f(points[|points| - 1]), rest)
  }

  /** The largest coordinate f(p) over a non-empty list of points. */
  function Hi<P>(points: seq<P>, f: P -> real): (r: real)
    requires |points| > 0
    ensures forall i :: 0 <= i < |points| ==> f(points[i]) <= r
    ensures exists i :: 0 <= i < |points| && r == f(points[i])
  {
    if |points| == 1 then f(points[0])
    else
      var rest := Hi(points[..|points| - 1], f);
      assert forall i :: 0 <= i < |points| - 1 ==> points[..|points| - 1][i] == points[i];
      Max(f(points[|points| - 1]), rest)
  }

  /**
   * The constructor's update loop for one coordinate: start from the first
   * point and fold Math.min / Math.max over the rest.
   */
  method Extent<P>(points: seq<P>, f: P -> real) returns (lo: real, hi: real)
    requires |points| > 0
    ensures lo == Lo(points, f) && hi == Hi(points, f)
  {
    lo, hi := f(points[0]), f(points[0]);
    assert points[..1] == [points[0]];
    for i := 1 to |points|
      invariant lo == Lo(points[..i], f) && hi == Hi(points[..i], f)
    {
      var point := points[i];
      assert points[..i + 1][..i] == points[..i];
      lo := Min(f(point), lo);
      hi := Max(f(point), hi);
    }
    assert points[..|points|] == points;
  }

  // --------------------------------------------------------------- planar

  function MinCoords(p: Coords, q: Coords): Coords
  {
    Coords(Min(p.x, q.x), Min(p.y, q.y))
  }

  function MaxCoords(p: Coords, q: Coords): Coords
  {
    Coords(Max(p.x, q.x), Max(p.y, q.y))
  }

  /** p lies in the closed rectangle [min, max]. */
  predicate Inside2(min: Coords, max: Coords, p: Coords)
  {
    min.x <= p.x <= max.x && min.y <= p.y <= max.y
  }

  /** The (min, max) constructor: the box is defined only when min < max on both axes. */
  function FromMinMax2(min: Coords, max: Coords): (b: Box2)
    ensures b.defined <==> min.x < max.x && min.y < max.y
    ensures b.corners == Set(min, max, true)
  {
    Box2(min.x < max.x && min.y < max.y, Set(min, max, true))
  }

  /** The point-list constructor: it throws on an empty list, otherwise it spans exactly the points. */
  function FromPoints2(points: seq<Coords>): (r: Result<Box2>)
    ensures r.Ok? <==> |points| > 0
    ensures r.Ok? ==> r.value.defined && r.value.corners.Set? && !r.value.corners.instances
    ensures r.Ok? ==> forall i :: 0 <= i < |points| ==> Inside2(r.value.corners.min, r.value.corners.max, points[i])
  {
    if |points| == 0 then Err("Empty point set supplied to BoundingBoxBase constructor")
    else Ok(Box2(true, Set(Coords(Lo(points, X), Lo(points, Y)), Coords(Hi(points, X), Hi(points, Y)), false)))
  }

  /** Each bound of a point-list box is attained by one of the points. */
  lemma FromPoints2Tight(points: seq<Coords>)
    requires |points| > 0
    ensures var c := FromPoints2(points).value.corners;
            (exists i :: 0 <= i < |points| && points[i].x == c.min.x)
            && (exists i :: 0 <= i < |points| && points[i].y == c.min.y)
            && (exists i :: 0 <= i < |points| && points[i].x == c.max.x)
            && (exists i :: 0 <= i < |points| && points[i].y == c.max.y)
  {
    var lx, ly, hx, hy := Lo(points, X), Lo(points, Y), Hi(points, X), Hi(points, Y);
    var i0 :| 0 <= i0 < |points| && lx == X(points[i0]);
    var i1 :| 0 <= i1 < |points| && ly == Y(points[i1]);
    var i2 :| 0 <= i2 < |points| && hx == X(points[i2]);
    var i3 :| 0 <= i3 < |points| && hy == Y(points[i3]);
  }

  /**
   * merge(point): a defined box grows to cover the point; an undefined one
   * becomes the degenerate box at the point, with copied corners.
   */
  function MergePoint2(b: Box2, p: Coords): (r: Box2)
    requires b.defined ==> b.corners.Set?
    ensures r.defined && r.corners.Set?
    ensures Inside2(r.corners.min, r.corners.max, p)
    ensures !b.defined ==> r.corners == Set(p, p, false)
    ensures b.defined ==> r.corners == Set(MinCoords(p, b.corners.min), MaxCoords(p, b.corners.max), b.corners.instances)
  {
    if b.defined then
      Box2(true, Set(MinCoords(p, b.corners.min), MaxCoords(p, b.corners.max), b.corners.instances))
    else
      Box2(true, Set(p, p, false))
  }

  /**
   * merge(box): a defined box takes the componentwise min of mins and max
   * of maxes (whether or not the other box is defined); an undefined box
   * copies the other's corners and becomes defined.
   */
  function MergeBox2(b: Box2, other: Box2): (r: Box2)
    requires b.defined ==> b.corners.Set?
    requires other.corners.Set?
    ensures r.defined && r.corners.Set?
    ensures !b.defined ==> r.corners == Set(other.corners.min, other.corners.max, false)
    ensures b.defined ==> r.corners.min == MinCoords(other.corners.min, b.corners.min)
    ensures b.defined ==> r.corners.max == MaxCoords(other.corners.max, b.corners.max)
  {
    if b.defined then
      var c := b.corners;
      Box2(true, Set(MinCoords(other.corners.min, c.min), MaxCoords(other.corners.max, c.max), c.instances))
    else
      Box2(true, Set(other.corners.min, other.corners.max, false))
  }

  /** Merging two defined boxes spans the same rectangle in either order. */
  lemma MergeBox2Commutes(a: Box2, b: Box2)
    requires a.defined && a.corners.Set? && b.defined && b.corners.Set?
    ensures MergeBox2(a, b).corners.min == MergeBox2(b, a).corners.min
    ensures MergeBox2(a, b).corners.max == MergeBox2(b, a).corners.max
  {
  }

  /** Merging never shrinks a defined box: what it contained, and all of the other box, stay inside. */
  lemma MergeBox2Grows(a: Box2, b: Box2, p: Coords)
    requires a.defined && a.corners.Set? && b.corners.Set?
    ensures var r := MergeBox2(a, b).corners;
            (Inside2(a.corners.min, a.corners.max, p) ==> Inside2(r.min, r.max, p))
            && (Inside2(b.corners.min, b.corners.max, p) ==> Inside2(r.min, r.max, p))
  {
  }

  /** merge(points): the points' own box is built first, so an empty list throws and nothing changes. */
  function MergePoints2(b: Box2, points: seq<Coords>): (r: Result<Box2>)
    requires b.defined ==> b.corners.Set?
    ensures r.Ok? <==> |points| > 0
    ensures r.Ok? ==> r.value.defined
    ensures r.Ok? ==> r.value.corners.Set?
    ensures r.Ok? ==> forall i :: 0 <= i < |points| ==> Inside2(r.value.corners.min, r.value.corners.max, points[i])
  {
    var own := FromPoints2(points);
    if own.Err? then Err(own.error)
    else
      var r := MergeBox2(b, own.value);
      assert forall i :: 0 <= i < |points| ==> Inside2(r.corners.min, r.corners.max, points[i]) by {
        MergePointsCover(b, own.value, points);
      }
      Ok(r)
  }

  lemma MergePointsCover(b: Box2, own: Box2, points: seq<Coords>)
    requires b.defined ==> b.corners.Set?
    requires own.corners.Set?
    requires forall i :: 0 <= i < |points| ==> Inside2(own.corners.min, own.corners.max, points[i])
    ensures var r := MergeBox2(b, own).corners;
            forall i :: 0 <= i < |points| ==> Inside2(r.min, r.max, points[i])
  {
    if b.defined {
      forall i | 0 <= i < |points|
        ensures Inside2(MergeBox2(b, own).corners.min, MergeBox2(b, own).corners.max, points[i])
      {
        MergeBox2Grows(b, own, points[i]);
      }
    }
  }

  /** scale: both corners are scaled on x and y, whichever branch runs. */
  function Scale2(b: Box2, factor: real): (r: Box2)
    requires b.corners.Set?
    ensures r.defined == b.defined && r.corners.Set? && r.corners.instances == b.corners.instances
    ensures r.corners.min == Coords(b.corners.min.x * factor, b.corners.min.y * factor)
    ensures r.corners.max == Coords(b.corners.max.x * factor, b.corners.max.y * factor)
  {
    var c := b.corners;
    Box2(b.defined, Set(Coords(c.min.x * factor, c.min.y * factor), Coords(c.max.x * factor, c.max.y * factor), c.instances))
  }

  /** translate(x, y): both corners move by (dx, dy), whichever branch runs. */
  function Translate2(b: Box2, dx: real, dy: real): (r: Box2)
    requires b.corners.Set?
    ensures r.defined == b.defined && r.corners.Set? && r.corners.instances == b.corners.instances
    ensures r.corners.min == Translated(b.corners.min, dx, dy)
    ensures r.corners.max == Translated(b.corners.max, dx, dy)
  {
    var c := b.corners;
    Box2(b.defined, Set(Translated(c.min, dx, dy), Translated(c.max, dx, dy), c.instances))
  }

  /**
   * offset(d): calls translate on the corner objects, which copied corners
   * do not have (a TypeError before anything changes); point corners move
   * outwards by d on x and y.
   */
  function Offset2(b: Box2, delta: real): (r: Result<Box2>)
    ensures r.Ok? <==> b.corners.Set? && b.corners.instances
    ensures r.Ok? ==> r.value.defined == b.defined
    ensures r.Ok? ==> r.value.corners == Set(Translated(b.corners.min, -delta, -delta), Translated(b.corners.max, delta, delta), true)
  {
    if b.corners.Set? && b.corners.instances then
      Ok(Box2(b.defined, Set(Translated(b.corners.min, -delta, -delta), Translated(b.corners.max, delta, delta), true)))
    else Err("this.min.translate is not a function")
  }

  /** size(): max - min. */
  function Size2(b: Box2): (r: Coords)
    requires b.corners.Set?
    ensures Translated(b.corners.min, r.x, r.y) == b.corners.max
  {
    Coords(b.corners.max.x - b.corners.min.x, b.corners.max.y - b.corners.min.y)
  }

  /** center(): the midpoint of the corners. */
  function Center2(b: Box2): (r: Coords)
    requires b.corners.Set?
    ensures r.x - b.corners.min.x == b.corners.max.x - r.x
    ensures r.y - b.corners.min.y == b.corners.max.y - r.y
  {
    Coords((b.corners.max.x + b.corners.min.x) / 2.0, (b.corners.max.y + b.corners.min.y) / 2.0)
  }

  /** contains(p): inclusive on both axes. */
  predicate Contains2(b: Box2, p: Coords)
    requires b.corners.Set?
    ensures Contains2(b, p) ==> b.corners.min.x <= b.corners.max.x && b.corners.min.y <= b.corners.max.y
  {
    b.corners.min.x <= p.x && p.x <= b.corners.max.x && b.corners.min.y <= p.y && p.y <= b.corners.max.y
  }

  /** A box contains its own corners exactly when they are ordered on x and y. */
  lemma ContainsCorners2(b: Box2)
    requires b.corners.Set?
    ensures var ordered := b.corners.min.x <= b.corners.max.x && b.corners.min.y <= b.corners.max.y;
            (Contains2(b, b.corners.min) <==> ordered) && (Contains2(b, b.corners.max) <==> ordered)
  {
  }

  /** Translation keeps the size. */
  lemma Translate2KeepsSize(b: Box2, dx: real, dy: real)
    requires b.corners.Set?
    ensures Size2(Translate2(b, dx, dy)) == Size2(b)
  {
  }

  /** The centre of a box with ordered corners lies in it. */
  lemma Center2Inside(b: Box2)
    requires b.corners.Set? && b.corners.min.x <= b.corners.max.x && b.corners.min.y <= b.corners.max.y
    ensures Contains2(b, Center2(b))
  {
  }

  /** The four outline points of polygonToRef: (min,min), (max,min), (max,max), (min,max). */
  function Outline(b: Box2): (r: seq<Coords>)
    requires b.corners.Set?
    ensures |r| == 4
    ensures r[0] == b.corners.min && r[2] == b.corners.max
    ensures r[1] == Coords(r[2].x, r[0].y) && r[3] == Coords(r[0].x, r[2].y)
  {
    var c := b.corners;
    [Coords(c.min.x, c.min.y), Coords(c.max.x, c.min.y), Coords(c.max.x, c.max.y), Coords(c.min.x, c.max.y)]
  }

  /** Every outline corner of a box with ordered corners lies on the box. */
  lemma OutlineInside(b: Box2)
    requires b.corners.Set? && b.corners.min.x <= b.corners.max.x && b.corners.min.y <= b.corners.max.y
    ensures forall i :: 0 <= i < 4 ==> Contains2(b, Outline(b)[i])
  {
  }

  /** The end points of a list of lines, a then b, line after line. */
  function LinePoints(lines: seq<(Coords, Coords)>): (r: seq<Coords>)
    ensures |r| == 2 * |lines|
    ensures forall i :: 0 <= i < |lines| ==> r[2 * i] == lines[i].0 && r[2 * i + 1] == lines[i].1
  {
    if |lines| == 0 then []
    else LinePoints(lines[..|lines| - 1]) + [lines[|lines| - 1].0, lines[|lines| - 1].1]
  }

  /** A polygon given by its points (the Polygon interface of BoundingBox.ts). */
  class Polygon {
    var points: seq<Coords>

    constructor()
      ensures points == []
    {
      points := [];
    }
  }

  /** BoundingBoxBase<Point>, BoundingBox and BoundingBoxf. */
  class BoundingBox {
    var defined: bool
    var corners: Corners<Coords>

    function Value(): Box2
      reads this
    {
      Box2(defined, corners)
    }

    /** The default constructor: undefined, no corners. */
    constructor()
      ensures Value() == Box2(false, Unset)
    {
      defined := false;
      corners := Unset;
    }

    /** The (min, max) constructor. */
    constructor FromMinMax(min: Coords, max: Coords)
      ensures Value() == FromMinMax2(min, max)
    {
      corners := Set(min, max, true);
      defined := min.x < max.x && min.y < max.y;
    }

    /** The point-list constructor, which throws on an empty list. */
    static method FromPoints(points: seq<Coords>) returns (r: Result<BoundingBox>)
      ensures r.Ok? <==> |points| > 0
      ensures r.Ok? ==> fresh(r.value) && FromPoints2(points) == Ok(r.value.Value())
    {
      if |points| == 0 {
        return Err("Empty point set supplied to BoundingBoxBase constructor");
      }
      var minX, maxX := Extent(points, X);
      var minY, maxY := Extent(points, Y);
      var bb := new BoundingBox();
      bb.corners := Set(Coords(minX, minY), Coords(maxX, maxY), false);
      bb.defined := true;
      return Ok(bb);
    }

    /** BoundingBox's line-list constructor: the box of all the lines' end points. */
    static method FromLines(lines: seq<(Coords, Coords)>) returns (r: Result<BoundingBox>)
      ensures r.Ok? <==> |lines| > 0
      ensures r.Ok? ==> fresh(r.value) && FromPoints2(LinePoints(lines)) == Ok(r.value.Value())
    {
      var points: seq<Coords> := [];
      for i := 0 to |lines|
        invariant points == LinePoints(lines[..i])
      {
        assert lines[..i + 1][..i] == lines[..i];
        points := points + [lines[i].0, lines[i].1];
      }
      assert lines[..|lines|] == lines;
      r := FromPoints(points);
    }

    /** merge(point). */
    method MergePoint(p: Coords)
      requires defined ==> corners.Set?
      modifies this
      ensures Value() == MergePoint2(old(Value()), p)
    {
      if defined {
        var c := corners;
        corners := Set(Coords(Min(p.x, c.min.x), Min(p.y, c.min.y)), Coords(Max(p.x, c.max.x), Max(p.y, c.max.y)), c.instances);
      } else {
        corners := Set(p, p, false);
        defined := true;
      }
    }

    /** merge(box). The other box must hold corners (reading an unset corner is a TypeError or yields empty copies). */
    method MergeBox(other: BoundingBox)
      requires defined ==> corners.Set?
      requires other.corners.Set?
      modifies this
      ensures Value() == MergeBox2(old(Value()), old(other.Value()))
    {
      var oc := other.corners;
      if defined {
        var c := corners;
        corners := Set(Coords(Min(oc.min.x, c.min.x), Min(oc.min.y, c.min.y)), Coords(Max(oc.max.x, c.max.x), Max(oc.max.y, c.max.y)), c.instances);
      } else {
        corners := Set(oc.min, oc.max, false);
        defined := true;
      }
    }

    /** merge(points): throws, leaving the box alone, on an empty list. */
    method MergePoints(points: seq<Coords>) returns (r: Result<()>)
      requires defined ==> corners.Set?
      modifies this
      ensures r.Ok? <==> |points| > 0
      ensures r.Ok? ==> Ok(Value()) == MergePoints2(old(Value()), points)
      ensures r.Err? ==> Value() == old(Value())
    {
      var own := FromPoints(points);
      if own.Err? {
        return Err(own.error);
      }
      MergeBox(own.value);
      return Ok(());
    }

    method Scale(factor: real)
      requires corners.Set?
      modifies this
      ensures Value() == Scale2(old(Value()), factor)
    {
      var c := corners;
      corners := Set(Coords(c.min.x * factor, c.min.y * factor), Coords(c.max.x * factor, c.max.y * factor), c.instances);
      ghost var r := Scale2(old(Value()), factor);
      assert r.corners.min.x == c.min.x * factor && r.corners.min.y == c.min.y * factor;
      assert r.corners.max.x == c.max.x * factor && r.corners.max.y == c.max.y * factor;
    }

    method Translate(dx: real, dy: real)
      requires corners.Set?
      modifies this
      ensures Value() == Translate2(old(Value()), dx, dy)
    {
      var c := corners;
      corners := Set(Coords(c.min.x + dx, c.min.y + dy), Coords(c.max.x + dx, c.max.y + dy), c.instances);
    }

    method Offset(delta: real) returns (r: Result<()>)
      modifies this
      ensures var o := Offset2(old(Value()), delta);
              (r.Ok? <==> o.Ok?) && (o.Ok? ==> Value() == o.value) && (o.Err? ==> Value() == old(Value()))
    {
      if !(corners.Set? && corners.instances) {
        return Err("this.min.translate is not a function");
      }
      var c := corners;
      corners := Set(Translated(c.min, -delta, -delta), Translated(c.max, delta, delta), true);
      return Ok(());
    }

    /** polygonToRef: the polygon's points are replaced by the box outline. */
    method PolygonToRef(polygon: Polygon)
      requires corners.Set?
      modifies polygon
      ensures polygon.points == Outline(Value())
    {
      polygon.points := [];
      polygon.points := polygon.points + [Coords(corners.min.x, corners.min.y)];
      polygon.points := polygon.points + [Coords(corners.max.x, corners.min.y)];
      polygon.points := polygon.points + [Coords(corners.max.x, corners.max.y)];
      polygon.points := polygon.points + [Coords(corners.min.x, corners.max.y)];
    }
  }

  // ---------------------------------------------------------------- spatial

  function MinPoint3(p: Pointf3, q: Pointf3): Pointf3
  {
    Pointf3(Min(p.x, q.x), Min(p.y, q.y), Min(p.z, q.z))
  }

  function MaxPoint3(p: Pointf3, q: Pointf3): Pointf3
  {
    Pointf3(Max(p.x, q.x), Max(p.y, q.y), Max(p.z, q.z))
  }

  /** p lies in the closed box [min, max] on all three axes. */
  predicate Inside3(min: Pointf3, max: Pointf3, p: Pointf3)
  {
    min.x <= p.x <= max.x && min.y <= p.y <= max.y && min.z <= p.z <= max.z
  }

  /** The (min, max) constructor: defined only when min < max on all three axes. */
  function FromMinMax3(min: Pointf3, max: Pointf3): (b: Box3)
    ensures b.defined <==> min.x < max.x && min.y < max.y && min.z < max.z
    ensures b.corners == Set(min, max, true)
  {
    Box3(min.x < max.x && min.y < max.y && min.z < max.z, Set(min, max, true))
  }

  /** The point-list constructor. */
  function FromPoints3(points: seq<Pointf3>): (r: Result<Box3>)
    ensures r.Ok? <==> |points| > 0
    ensures r.Ok? ==> r.value.defined && r.value.corners.Set? && !r.value.corners.instances
    ensures r.Ok? ==> forall i :: 0 <= i < |points| ==> Inside3(r.value.corners.min, r.value.corners.max, points[i])
  {
    if |points| == 0 then Err("Empty point set supplied to BoundingBoxBase constructor")
    else
      Ok(Box3(true, Set(Pointf3(Lo(points, X3), Lo(points, Y3), Lo(points, Z3)),
                        Pointf3(Hi(points, X3), Hi(points, Y3), Hi(points, Z3)), false)))
  }

  /** The lower z bound of a point-list box is attained (the others as in the planar case). */
  lemma FromPoints3Tight(points: seq<Pointf3>)
    requires |points| > 0
    ensures var c := FromPoints3(points).value.corners;
            (exists i :: 0 <= i < |points| && points[i].z == c.min.z)
            && (exists i :: 0 <= i < |points| && points[i].z == c.max.z)
  {
    var lz, hz := Lo(points, Z3), Hi(points, Z3);
    var i0 :| 0 <= i0 < |points| && lz == Z3(points[i0]);
    var i1 :| 0 <= i1 < |points| && hz == Z3(points[i1]);
  }

  /** merge(point), z first when defined, then the planar merge; an undefined box copies the point. */
  function MergePoint3(b: Box3, p: Pointf3): (r: Box3)
    requires b.defined ==> b.corners.Set?
    ensures r.defined && r.corners.Set?
    ensures Inside3(r.corners.min, r.corners.max, p)
    ensures !b.defined ==> r.corners == Set(p, p, false)
    ensures b.defined ==> r.corners == Set(MinPoint3(p, b.corners.min), MaxPoint3(p, b.corners.max), b.corners.instances)
  {
    if b.defined then
      Box3(true, Set(MinPoint3(p, b.corners.min), MaxPoint3(p, b.corners.max), b.corners.instances))
    else
      Box3(true, Set(p, p, false))
  }

  /** merge(box). */
  function MergeBox3(b: Box3, other: Box3): (r: Box3)
    requires b.defined ==> b.corners.Set?
    requires other.corners.Set?
    ensures r.defined && r.corners.Set?
    ensures !b.defined ==> r.corners == Set(other.corners.min, other.corners.max, false)
    ensures b.defined ==> r.corners.min == MinPoint3(other.corners.min, b.corners.min)
    ensures b.defined ==> r.corners.max == MaxPoint3(other.corners.max, b.corners.max)
  {
    if b.defined then
      var c := b.corners;
      Box3(true, Set(MinPoint3(other.corners.min, c.min), MaxPoint3(other.corners.max, c.max), c.instances))
    else
      Box3(true, Set(other.corners.min, other.corners.max, false))
  }

  lemma MergeBox3Commutes(a: Box3, b: Box3)
    requires a.defined && a.corners.Set? && b.defined && b.corners.Set?
    ensures MergeBox3(a, b).corners.min == MergeBox3(b, a).corners.min
    ensures MergeBox3(a, b).corners.max == MergeBox3(b, a).corners.max
  {
  }

  lemma MergeBox3Grows(a: Box3, b: Box3, p: Pointf3)
    requires a.defined && a.corners.Set? && b.corners.Set?
    ensures var r := MergeBox3(a, b).corners;
            (Inside3(a.corners.min, a.corners.max, p) ==> Inside3(r.min, r.max, p))
            && (Inside3(b.corners.min, b.corners.max, p) ==> Inside3(r.min, r.max, p))
  {
  }

  /**
   * scale as written: Pointf3 corners scale all three axes, but the
   * fallback for copied corners scales only x and y.
   */
  function Scale3AsWritten(b: Box3, factor: real): (r: Box3)
    requires b.corners.Set?
    ensures r.defined == b.defined && r.corners.Set?
    ensures !b.corners.instances ==> r.corners.min.z == b.corners.min.z && r.corners.max.z == b.corners.max.z
  {
    var c := b.corners;
    if c.instances then Box3(b.defined, Set(c.min.Scale(factor), c.max.Scale(factor), true))
    else
      Box3(b.defined, Set(Pointf3(c.min.x * factor, c.min.y * factor, c.min.z),
                          Pointf3(c.max.x * factor, c.max.y * factor, c.max.z), false))
  }

  /** A point-list box scaled by 2 keeps its z range [1, 2]. */
  lemma Scale3AsWrittenKeepsZ()
    ensures var b := FromPoints3([Pointf3(1.0, 1.0, 1.0), Pointf3(2.0, 2.0, 2.0)]).value;
            Scale3AsWritten(b, 2.0).corners.min.z == 1.0 && Scale3AsWritten(b, 2.0).corners.max.z == 2.0
  {
    var b := FromPoints3([Pointf3(1.0, 1.0, 1.0), Pointf3(2.0, 2.0, 2.0)]).value;
    assert b.corners.min.z == 1.0 && b.corners.max.z == 2.0;
  }

  /** scale, corrected: every corner coordinate is multiplied, whatever the corners are. */
  function Scale3(b: Box3, factor: real): (r: Box3)
    requires b.corners.Set?
    ensures r.defined == b.defined && r.corners.Set? && r.corners.instances == b.corners.instances
    ensures r.corners.min == b.corners.min.Scale(factor) && r.corners.max == b.corners.max.Scale(factor)
  {
    var c := b.corners;
    Box3(b.defined, Set(c.min.Scale(factor), c.max.Scale(factor), c.instances))
  }

  /**
   * translate as written: Pointf3 corners move on all axes; the fallback
   * for copied corners adds y to min.y twice and never to max.y.
   */
  function Translate3AsWritten(b: Box3, dx: real, dy: real, dz: real): (r: Box3)
    requires b.corners.Set?
    ensures r.defined == b.defined && r.corners.Set?
    ensures !b.corners.instances ==> r.corners.min.y == b.corners.min.y + 2.0 * dy && r.corners.max.y == b.corners.max.y
  {
    var c := b.corners;
    if c.instances then Box3(b.defined, Set(c.min.Translate(dx, dy, dz), c.max.Translate(dx, dy, dz), true))
    else
      var min1 := Pointf3(c.min.x + dx, c.min.y + dy, c.min.z + dz);
      var max1 := Pointf3(c.max.x + dx, c.max.y, c.max.z + dz);
      Box3(b.defined, Set(Pointf3(min1.x, min1.y + dy, min1.z), max1, false))
  }

  /** The unit point-list box translated by (0, 1, 0) ends up with min.y = 2 above max.y = 1. */
  lemma Translate3AsWrittenInverts()
    ensures var b := FromPoints3([Pointf3(0.0, 0.0, 0.0), Pointf3(1.0, 1.0, 1.0)]).value;
            var r := Translate3AsWritten(b, 0.0, 1.0, 0.0);
            r.corners.min.y == 2.0 && r.corners.max.y == 1.0
  {
    var b := FromPoints3([Pointf3(0.0, 0.0, 0.0), Pointf3(1.0, 1.0, 1.0)]).value;
    assert b.corners.min.y == 0.0 && b.corners.max.y == 1.0;
  }

  /** translate, corrected: both corners move by (dx, dy, dz). */
  function Translate3(b: Box3, dx: real, dy: real, dz: real): (r: Box3)
    requires b.corners.Set?
    ensures r.defined == b.defined && r.corners.Set? && r.corners.instances == b.corners.instances
    ensures r.corners.min == b.corners.min.Translate(dx, dy, dz) && r.corners.max == b.corners.max.Translate(dx, dy, dz)
  {
    var c := b.corners;
    Box3(b.defined, Set(c.min.Translate(dx, dy, dz), c.max.Translate(dx, dy, dz), c.instances))
  }

  /** offset(d): Pointf3 corners move outwards by d on every axis; copied corners throw. */
  function Offset3(b: Box3, delta: real): (r: Result<Box3>)
    ensures r.Ok? <==> b.corners.Set? && b.corners.instances
    ensures r.Ok? ==> r.value.defined == b.defined
    ensures r.Ok? ==> (r.value.corners ==
              Set(b.corners.min.Translate(-delta, -delta, -delta), b.corners.max.Translate(delta, delta, delta), true))
  {
    if b.corners.Set? && b.corners.instances then
      Ok(Box3(b.defined, Set(b.corners.min.Translate(-delta, -delta, -delta), b.corners.max.Translate(delta, delta, delta), true)))
    else Err("this.min.translate is not a function")
  }

  function Size3(b: Box3): (r: Pointf3)
    requires b.corners.Set?
    ensures b.corners.min.Translate(r.x, r.y, r.z) == b.corners.max
  {
    Pointf3(b.corners.max.x - b.corners.min.x, b.corners.max.y - b.corners.min.y, b.corners.max.z - b.corners.min.z)
  }

  function Center3(b: Box3): (r: Pointf3)
    requires b.corners.Set?
    ensures r.x - b.corners.min.x == b.corners.max.x - r.x
    ensures r.y - b.corners.min.y == b.corners.max.y - r.y
    ensures r.z - b.corners.min.z == b.corners.max.z - r.z
  {
    Pointf3((b.corners.max.x + b.corners.min.x) / 2.0, (b.corners.max.y + b.corners.min.y) / 2.0,
            (b.corners.max.z + b.corners.min.z) / 2.0)
  }

  /** contains(p) is inherited from the planar box: z is not compared. */
  predicate Contains3(b: Box3, p: Pointf3)
    requires b.corners.Set?
    ensures Contains3(b, p) ==> b.corners.min.x <= b.corners.max.x && b.corners.min.y <= b.corners.max.y
  {
    b.corners.min.x <= p.x && p.x <= b.corners.max.x && b.corners.min.y <= p.y && p.y <= b.corners.max.y
  }

  /** A box contains its own corners exactly when they are ordered on x and y (z is not compared). */
  lemma ContainsCorners3(b: Box3)
    requires b.corners.Set?
    ensures var ordered := b.corners.min.x <= b.corners.max.x && b.corners.min.y <= b.corners.max.y;
            (Contains3(b, b.corners.min) <==> ordered) && (Contains3(b, b.corners.max) <==> ordered)
  {
  }

  /** A point far outside the z range is still "contained". */
  lemma Contains3IgnoresZ(b: Box3, p: Pointf3, z: real)
    requires b.corners.Set?
    ensures Contains3(b, p) <==> Contains3(b, Pointf3(p.x, p.y, z))
  {
  }

  lemma Translate3KeepsSize(b: Box3, dx: real, dy: real, dz: real)
    requires b.corners.Set?
    ensures Size3(Translate3(b, dx, dy, dz)) == Size3(b)
  {
  }

  /** Offsetting widens the box by 2d on every axis. */
  lemma Offset3Widens(b: Box3, delta: real)
    requires b.corners.Set? && b.corners.instances
    ensures var s, t := Size3(b), Size3(Offset3(b, delta).value);
            t == Pointf3(s.x + 2.0 * delta, s.y + 2.0 * delta, s.z + 2.0 * delta)
  {
  }

  /** BoundingBox3Base / BoundingBoxf3. */
  class BoundingBox3 {
    var defined: bool
    var corners: Corners<Pointf3>

    function Value(): Box3
      reads this
    {
      Box3(defined, corners)
    }

    constructor()
      ensures Value() == Box3(false, Unset)
    {
      defined := false;
      corners := Unset;
    }

    /** The (min, max) constructor: the planar test, then undefined when min.z >= max.z. */
    constructor FromMinMax(min: Pointf3, max: Pointf3)
      ensures Value() == FromMinMax3(min, max)
    {
      corners := Set(min, max, true);
      defined := min.x < max.x && min.y < max.y;
      if min.z >= max.z {
        defined := false;
      }
    }

    static method FromPoints(points: seq<Pointf3>) returns (r: Result<BoundingBox3>)
      ensures r.Ok? <==> |points| > 0
      ensures r.Ok? ==> fresh(r.value) && FromPoints3(points) == Ok(r.value.Value())
    {
      if |points| == 0 {
        return Err("Empty point set supplied to BoundingBoxBase constructor");
      }
      var minX, maxX := Extent(points, X3);
      var minY, maxY := Extent(points, Y3);
      var minZ, maxZ := Extent(points, Z3);
      var bb := new BoundingBox3();
      bb.corners := Set(Pointf3(minX, minY, minZ), Pointf3(maxX, maxY, maxZ), false);
      bb.defined := true;
      return Ok(bb);
    }

    method MergePoint(p: Pointf3)
      requires defined ==> corners.Set?
      modifies this
      ensures Value() == MergePoint3(old(Value()), p)
    {
      if defined {
        var c := corners;
        var min1 := Pointf3(c.min.x, c.min.y, Min(p.z, c.min.z));
        var max1 := Pointf3(c.max.x, c.max.y, Max(p.z, c.max.z));
        corners := Set(Pointf3(Min(p.x, min1.x), Min(p.y, min1.y), min1.z), Pointf3(Max(p.x, max1.x), Max(p.y, max1.y), max1.z), c.instances);
      } else {
        corners := Set(p, p, false);
        defined := true;
      }
    }

    method MergeBox(other: BoundingBox3)
      requires defined ==> corners.Set?
      requires other.corners.Set?
      modifies this
      ensures Value() == MergeBox3(old(Value()), old(other.Value()))
    {
      var oc := other.corners;
      if defined {
        var c := corners;
        var min1 := Pointf3(c.min.x, c.min.y, Min(oc.min.z, c.min.z));
        var max1 := Pointf3(c.max.x, c.max.y, Max(oc.max.z, c.max.z));
        corners := Set(Pointf3(Min(oc.min.x, min1.x), Min(oc.min.y, min1.y), min1.z), Pointf3(Max(oc.max.x, max1.x), Max(oc.max.y, max1.y), max1.z), c.instances);
      } else {
        corners := Set(oc.min, oc.max, false);
        defined := true;
      }
    }

    method MergePoints(points: seq<Pointf3>) returns (r: Result<()>)
      requires defined ==> corners.Set?
      modifies this
      ensures r.Ok? <==> |points| > 0
      ensures r.Ok? ==> Value() == MergeBox3(old(Value()), FromPoints3(points).value)
      ensures r.Err? ==> Value() == old(Value())
    {
      var own := FromPoints(points);
      if own.Err? {
        return Err(own.error);
      }
      MergeBox(own.value);
      return Ok(());
    }

    /** scale (corrected, see Scale3AsWritten). */
    method Scale(factor: real)
      requires corners.Set?
      modifies this
      ensures Value() == Scale3(old(Value()), factor)
    {
      var c := corners;
      corners := Set(c.min.Scale(factor), c.max.Scale(factor), c.instances);
    }

    /** translate (corrected, see Translate3AsWritten). */
    method Translate(dx: real, dy: real, dz: real)
      requires corners.Set?
      modifies this
      ensures Value() == Translate3(old(Value()), dx, dy, dz)
    {
      var c := corners;
      corners := Set(c.min.Translate(dx, dy, dz), c.max.Translate(dx, dy, dz), c.instances);
    }

    method Offset(delta: real) returns (r: Result<()>)
      modifies this
      ensures var o := Offset3(old(Value()), delta);
              (r.Ok? <==> o.Ok?) && (o.Ok? ==> Value() == o.value) && (o.Err? ==> Value() == old(Value()))
    {
      if !(corners.Set? && corners.instances) {
        return Err("this.min.translate is not a function");
      }
      var c := corners;
      corners := Set(c.min.Translate(-delta, -delta, -delta), c.max.Translate(delta, delta, delta), true);
      return Ok(());
    }
  }
}
