// The segments of src/lib/slicer/Line.ts: `Line`, whose two endpoints are
// `Point` objects it shares (scale/translate move them in place, reverse
// swaps the references), and the floating `Linef3`.

module Lines {
  import opened Wrappers
  import opened Points
  import DirectionsParallel

  /** The EPSILON Line.ts imports without it being defined; the same positive constant as the angle test. */
  const INTERSECTION_EPSILON: real := DirectionsParallel.EPSILON

  /** The cross-product threshold of intersection_infinite. */
  const CROSS_EPSILON: real := 0.000000000001

  function Abs(x: real): real
  {
    if x < 0.0 then -x else x
  }

  function Cross(u: Coords, v: Coords): real
  {
    u.x * v.y - u.y * v.x
  }

  function Minus(u: Coords, v: Coords): Coords
  {
    Coords(u.x - v.x, u.y - v.y)
  }

  /** The point p + t·d. */
  function Along(p: Coords, t: real, d: Coords): Coords
  {
    Coords(p.x + t * d.x, p.y + t * d.y)
  }

  /** The denominator of intersection: (d - c) x (b - a) with the operands in the source's order. */
  function Denom(a: Coords, b: Coords, c: Coords, d: Coords): real
  {
    (d.y - c.y) * (b.x - a.x) - (d.x - c.x) * (b.y - a.y)
  }

  function NumeA(a: Coords, b: Coords, c: Coords, d: Coords): real
  {
    (d.x - c.x) * (a.y - c.y) - (d.y - c.y) * (a.x - c.x)
  }

  function NumeB(a: Coords, b: Coords, c: Coords, d: Coords): real
  {
    (b.x - a.x) * (a.y - c.y) - (b.y - a.y) * (a.x - c.x)
  }

  /**
   * The crossing the segment test reports is on both carrier lines: the
   * point a + ua·(b - a) of the first line is the point c + ub·(d - c) of
   * the second.
   */
  lemma CrossingOnBoth(a: Coords, b: Coords, c: Coords, d: Coords)
    requires Denom(a, b, c, d) != 0.0
    ensures var den := Denom(a, b, c, d);
            Along(a, NumeA(a, b, c, d) / den, Minus(b, a)) == Along(c, NumeB(a, b, c, d) / den, Minus(d, c))
  {
    var den := Denom(a, b, c, d);
    var r, s, w := Minus(b, a), Minus(d, c), Minus(a, c);
    var ua, ub := NumeA(a, b, c, d) / den, NumeB(a, b, c, d) / den;
    assert ua * den == s.x * w.y - s.y * w.x;
    assert ub * den == r.x * w.y - r.y * w.x;
    assert den == s.y * r.x - s.x * r.y;
    var ex, ey := w.x + ua * r.x - ub * s.x, w.y + ua * r.y - ub * s.y;
    assert ex * den == 0.0 by {
      calc {
        ex * den;
        w.x * den + (ua * den) * r.x - (ub * den) * s.x;
        w.x * (s.y * r.x - s.x * r.y) + (s.x * w.y - s.y * w.x) * r.x - (r.x * w.y - r.y * w.x) * s.x;
        0.0;
      }
    }
    assert ey * den == 0.0 by {
      calc {
        ey * den;
        w.y * den + (ua * den) * r.y - (ub * den) * s.y;
        w.y * (s.y * r.x - s.x * r.y) + (s.x * w.y - s.y * w.x) * r.y - (r.x * w.y - r.y * w.x) * s.y;
        0.0;
      }
    }
  }

  /**
   * The point intersection_infinite computes, p + t1·d1 with
   * t1 = (q - p) x d2 / (d1 x d2), lies on the line through q along d2.
   */
  lemma InfiniteCrossingOnOther(p: Coords, d1: Coords, q: Coords, d2: Coords)
    requires Cross(d1, d2) != 0.0
    ensures Cross(Minus(Along(p, Cross(Minus(q, p), d2) / Cross(d1, d2), d1), q), d2) == 0.0
  {
    var cr := Cross(d1, d2);
    var t := Cross(Minus(q, p), d2) / cr;
    assert t * cr == Cross(Minus(q, p), d2);
    calc {
      Cross(Minus(Along(p, t, d1), q), d2);
      (p.x + t * d1.x - q.x) * d2.y - (p.y + t * d1.y - q.y) * d2.x;
      t * (d1.x * d2.y - d1.y * d2.x) - ((q.x - p.x) * d2.y - (q.y - p.y) * d2.x);
      t * cr - Cross(Minus(q, p), d2);
      0.0;
    }
  }

  class Line {
    var a: Point
    var b: Point

    constructor(a0: Point, b0: Point)
      ensures a == a0 && b == b0
    {
      a := a0;
      b := b0;
    }

    /**
     * scale: both endpoint objects are scaled in place; when both ends are
     * the same object, that object is scaled twice.
     */
    method Scale(factor: real)
      modifies a, b
      ensures a != b ==> a.Value() == Coords(old(a.x) * factor, old(a.y) * factor)
      ensures a != b ==> b.Value() == Coords(old(b.x) * factor, old(b.y) * factor)
      ensures a == b ==> a.Value() == Coords(old(a.x) * factor * factor, old(a.y) * factor * factor)
    {
      a.Scale(factor);
      b.Scale(factor);
    }

    /** translate: both endpoint objects are moved in place (a shared end moves twice). */
    method Translate(dx: real, dy: real)
      modifies a, b
      ensures a != b ==> a.Value() == Translated(old(a.Value()), dx, dy)
      ensures a != b ==> b.Value() == Translated(old(b.Value()), dx, dy)
      ensures a == b ==> a.Value() == Translated(old(a.Value()), 2.0 * dx, 2.0 * dy)
    {
      a.Translate(dx, dy);
      b.Translate(dx, dy);
    }

    /** reverse: the two endpoint references are swapped; no point moves. */
    method Reverse()
      modifies this
      ensures a == old(b) && b == old(a)
    {
      a, b := b, a;
    }

    /** vector(): a new Vector b - a, rounded by the Point constructor. */
    function Vector(): (r: Coords)
      reads this, a, b
      ensures a.Value().Integral() && b.Value().Integral() ==> r == Minus(b.Value(), a.Value())
    {
      if a.Value().Integral() && b.Value().Integral() then
        SumIntegral(b.x, a.x);
        SumIntegral(b.y, a.y);
        Rounded(b.x - a.x, b.y - a.y)
      else
        Rounded(b.x - a.x, b.y - a.y)
    }

    /** normal(): a new Vector (b.y - a.y, -(b.x - a.x)), rounded by the Point constructor. */
    function Normal(): (r: Coords)
      reads this, a, b
      ensures r.Integral()
      ensures a.Value().Integral() && b.Value().Integral() ==> r.x == Vector().y && r.y == -Vector().x
    {
      if a.Value().Integral() && b.Value().Integral() then
        SumIntegral(b.x, a.x);
        SumIntegral(b.y, a.y);
        NegIntegral(b.x - a.x);
        Rounded(b.y - a.y, -(b.x - a.x))
      else
        Rounded(b.y - a.y, -(b.x - a.x))
    }

    /**
     * vector() as written: the Vector that Line.ts imports from Point.ts is
     * a type alias, which has no value to construct, so the call throws.
     */
    function VectorAsWritten(): (r: Result<Coords>)
      reads this, a, b
      ensures r.Err?
    {
      NewAlias("Vector", Rounded(b.x - a.x, b.y - a.y))
    }

    /** normal() as written: `new Vector` throws, as in VectorAsWritten. */
    function NormalAsWritten(): (r: Result<Coords>)
      reads this, a, b
      ensures r.Err?
    {
      NewAlias("Vector", Rounded(b.y - a.y, -(b.x - a.x)))
    }

    /** coincides_with: the two lines have coinciding endpoints, in order. */
    predicate CoincidesWith(line: Line)
      reads this, a, b, line, line.a, line.b
      ensures CoincidesWith(line) <==> a.Value() == line.a.Value() && b.Value() == line.b.Value()
    {
      a.CoincidesWith(line.a) && b.CoincidesWith(line.b)
    }

    /**
     * intersection(line, out): the segment-segment test. It fails when the
     * denominator is below EPSILON in magnitude (parallel or coincident
     * lines) or when either parameter falls outside [0, 1]; on success it
     * writes a + ua·(b - a) into `out`, which it otherwise leaves alone.
     */
    method Intersection(line: Line, out: Point) returns (r: bool)
      modifies out
      ensures var den := Denom(old(a.Value()), old(b.Value()), old(line.a.Value()), old(line.b.Value()));
              Abs(den) < INTERSECTION_EPSILON ==> !r
      ensures var p, q, s, t := old(a.Value()), old(b.Value()), old(line.a.Value()), old(line.b.Value());
              var den := Denom(p, q, s, t);
              r <==> Abs(den) >= INTERSECTION_EPSILON
                     && 0.0 <= NumeA(p, q, s, t) / den <= 1.0
                     && 0.0 <= NumeB(p, q, s, t) / den <= 1.0
      ensures var p, q, s, t := old(a.Value()), old(b.Value()), old(line.a.Value()), old(line.b.Value());
              r ==> out.Value() == Along(p, NumeA(p, q, s, t) / Denom(p, q, s, t), Minus(q, p))
      ensures !r ==> out.Value() == old(out.Value())
    {
      var p, q, s, t := a.Value(), b.Value(), line.a.Value(), line.b.Value();
      var denom := Denom(p, q, s, t);
      var numeA := NumeA(p, q, s, t);
      var numeB := NumeB(p, q, s, t);
      if Abs(denom) < INTERSECTION_EPSILON {
        return false;
      }
      var ua := numeA / denom;
      var ub := numeB / denom;
      if ua >= 0.0 && ua <= 1.0 && ub >= 0.0 && ub <= 1.0 {
        var crossing := Along(p, ua, Minus(q, p));
        out.x := crossing.x;
        out.y := crossing.y;
        return true;
      }
      return false;
    }

    /**
     * intersection_infinite(other, out): the crossing of the two carrier
     * lines, from the rounded vectors a -> other.a, b - a and other.b - other.a.
     * It fails exactly when their cross product is below 1e-12 in magnitude.
     */
    method IntersectionInfinite(other: Line, out: Point) returns (r: bool)
      modifies out
      ensures var d1, d2 := old(Vector()), old(other.Vector());
              r <==> Abs(Cross(d1, d2)) >= CROSS_EPSILON
      ensures var p, d1, d2 := old(a.Value()), old(Vector()), old(other.Vector());
              var xv := old(a.VectorTo(other.a));
              r ==> out.Value() == Along(p, Cross(xv, d2) / Cross(d1, d2), d1)
      ensures !r ==> out.Value() == old(out.Value())
    {
      var xv := a.VectorTo(other.a);
      var d1 := Vector();
      var d2 := other.Vector();
      var cross := Cross(d1, d2);
      if Abs(cross) < CROSS_EPSILON {
        return false;
      }
      var t1 := Cross(xv, d2) / cross;
      var p := a.Value();
      var crossing := Along(p, t1, d1);
      out.x := crossing.x;
      out.y := crossing.y;
      return true;
    }

    /**
     * intersection_infinite as written: its first statement calls vector_to,
     * which throws, so the call fails before it reaches the cross product and
     * `out` is never written.
     */
    function IntersectionInfiniteAsWritten(other: Line): (r: Result<bool>)
      reads this, a, b, other, other.a
      ensures r.Err?
    {
      var xv := a.VectorToAsWritten(other.a);
      Err(xv.error)
    }
  }

  /**
   * vector(), normal() and intersection_infinite as written throw on every
   * line, while the intended vector and normal are integral and perpendicular.
   */
  lemma LineVectorsThrow(l: Line, other: Line)
    ensures l.VectorAsWritten().Err? && l.NormalAsWritten().Err?
    ensures l.IntersectionInfiniteAsWritten(other).Err?
    ensures l.Vector().Integral() && l.Normal().Integral()
  {
  }

  /** For integral endpoints the normal is perpendicular to the vector. */
  lemma NormalPerpendicular(l: Line)
    requires l.a.Value().Integral() && l.b.Value().Integral()
    ensures var v, n := l.Vector(), l.Normal(); v.x * n.x + v.y * n.y == 0.0
  {
    var dx, dy := l.b.x - l.a.x, l.b.y - l.a.y;
    SumIntegral(l.b.x, l.a.x);
    SumIntegral(l.b.y, l.a.y);
    NegIntegral(dx);
    assert l.Normal() == Coords(dy, -dx);
    assert l.Vector() == Coords(dx, dy);
  }

  /**
   * On integral lines intersection_infinite's crossing lies on the other
   * line as well: the point minus other.a is parallel to other's vector.
   */
  lemma InfiniteCrossingIntegral(l: Line, other: Line)
    requires l.a.Value().Integral() && l.b.Value().Integral()
    requires other.a.Value().Integral() && other.b.Value().Integral()
    requires Cross(l.Vector(), other.Vector()) != 0.0
    ensures var p, d1, d2 := l.a.Value(), l.Vector(), other.Vector();
            var xv := l.a.VectorTo(other.a);
            Cross(Minus(Along(p, Cross(xv, d2) / Cross(d1, d2), d1), other.a.Value()), d2) == 0.0
  {
    InfiniteCrossingOnOther(l.a.Value(), l.Vector(), other.a.Value(), other.Vector());
  }

  /** A 3D segment between two floating points (Linef3). */
  datatype Linef3 = Linef3(a: Pointf3, b: Pointf3)
  {
    /**
     * intersect_plane(z): the point of the segment's carrier line at height
     * z. The source divides by b.z - a.z unchecked; a horizontal segment
     * gives no real result.
     */
    function IntersectPlane(z: real): (r: Pointf3)
      requires a.z != b.z
      ensures r.z == z
      ensures var t := (z - a.z) / (b.z - a.z);
              r.x == a.x + t * (b.x - a.x) && r.y == a.y + t * (b.y - a.y)
    {
      var t := (z - a.z) / (b.z - a.z);
      assert (b.x - a.x) * (z - a.z) / (b.z - a.z) == t * (b.x - a.x);
      assert (b.y - a.y) * (z - a.z) / (b.z - a.z) == t * (b.y - a.y);
      Pointf3(a.x + (b.x - a.x) * (z - a.z) / (b.z - a.z), a.y + (b.y - a.y) * (z - a.z) / (b.z - a.z), z)
    }
  }

  lemma DivSelf(x: real)
    requires x != 0.0
    ensures x / x == 1.0
  {
  }

  /** Cutting at either endpoint's height returns that endpoint. */
  lemma IntersectPlaneAtEnds(l: Linef3)
    requires l.a.z != l.b.z
    ensures l.IntersectPlane(l.a.z) == l.a
    ensures l.IntersectPlane(l.b.z) == l.b
  {
    DivSelf(l.b.z - l.a.z);
  }

  /** Equally spaced heights give equally spaced points along the segment. */
  lemma IntersectPlaneAffine(l: Linef3, z1: real, z2: real)
    requires l.a.z != l.b.z
    ensures var p, q, m := l.IntersectPlane(z1), l.IntersectPlane(z2), l.IntersectPlane((z1 + z2) / 2.0);
            m == Pointf3((p.x + q.x) / 2.0, (p.y + q.y) / 2.0, (z1 + z2) / 2.0)
  {
    var den := l.b.z - l.a.z;
    var t1, t2, tm := (z1 - l.a.z) / den, (z2 - l.a.z) / den, ((z1 + z2) / 2.0 - l.a.z) / den;
    assert tm == (t1 + t2) / 2.0;
  }
}
