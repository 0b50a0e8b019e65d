// The point types of src/lib/slicer/Point.ts: the integer-rounding `Point`
// (a class whose scale/translate/align_to_grid update it in place), `Point3`,
// and the floating `Pointf` / `Pointf3`, which the model keeps as values.

module Points {
  import opened Wrappers

  /** EPSILON of Point.ts: the early-exit bound of the nearest-point scans. */
  const EPSILON: real := 0.0001

  /** Math.round: the nearest integer, halves rounded up. */
  function Round(v: real): (r: int)
    ensures v - 0.5 < r as real <= v + 0.5
  {
    (v + 0.5).Floor
  }

  predicate IsIntegral(v: real)
  {
    v == v.Floor as real
  }

  /** Rounding leaves an integral value alone. */
  lemma RoundIntegral(v: real)
    requires IsIntegral(v)
    ensures Round(v) as real == v
  {
    FloorUnique(v + 0.5, v.Floor);
  }

  lemma FloorUnique(r: real, n: int)
    requires n as real <= r < n as real + 1.0
    ensures r.Floor == n
  {
  }

  lemma SumIntegral(a: real, b: real)
    requires IsIntegral(a) && IsIntegral(b)
    ensures IsIntegral(a + b) && IsIntegral(a - b)
  {
    FloorUnique(a + b, a.Floor + b.Floor);
    FloorUnique(a - b, a.Floor - b.Floor);
  }

  lemma NegIntegral(v: real)
    requires IsIntegral(v)
    ensures IsIntegral(-v)
  {
    FloorUnique(-v, -(v.Floor));
  }

  /** The coordinates held by a Point (or by a Vector, its alias). */
  datatype Coords = Coords(x: real, y: real)
  {
    predicate Integral()
    {
      IsIntegral(x) && IsIntegral(y)
    }
  }

  /** The state of a freshly constructed Point: both coordinates rounded. */
  function Rounded(x: real, y: real): (r: Coords)
    ensures r.Integral()
    ensures x - 0.5 < r.x <= x + 0.5 && y - 0.5 < r.y <= y + 0.5
    ensures IsIntegral(x) && IsIntegral(y) ==> r == Coords(x, y)
  {
    if IsIntegral(x) && IsIntegral(y) then
      RoundIntegral(x);
      RoundIntegral(y);
      Coords(Round(x) as real, Round(y) as real)
    else
      Coords(Round(x) as real, Round(y) as real)
  }

  /** The effect of translating a point by (dx, dy). */
  function Translated(p: Coords, dx: real, dy: real): (r: Coords)
    ensures r.x - p.x == dx && r.y - p.y == dy
  {
    Coords(p.x + dx, p.y + dy)
  }

  function SqDist(ax: real, ay: real, bx: real, bY: real): (r: real)
    ensures r >= 0.0
  {
    (ax - bx) * (ax - bx) + (ay - bY) * (ay - bY)
  }

  /** The cross product (p2 - p1) x (p - p1): positive when p lies to the left of p1 -> p2. */
  function CcwOf(p: Coords, p1: Coords, p2: Coords): real
  {
    (p2.x - p1.x) * (p.y - p1.y) - (p2.y - p1.y) * (p.x - p1.x)
  }

  /** Swapping the two reference points negates the orientation. */
  lemma CcwAntisymmetric(p: Coords, p1: Coords, p2: Coords)
    ensures CcwOf(p, p1, p2) == -CcwOf(p, p2, p1)
  {
    var ax, ay := p1.x - p.x, p1.y - p.y;
    var bx, bY := p2.x - p.x, p2.y - p.y;
    calc {
      CcwOf(p, p1, p2);
      (bx - ax) * (-ay) - (bY - ay) * (-ax);
      ax * bY - ay * bx;
    }
    calc {
      CcwOf(p, p2, p1);
      (ax - bx) * (-bY) - (ay - bY) * (-bx);
      ay * bx - ax * bY;
    }
  }

  /** A point on either reference point has orientation 0. */
  lemma CcwDegenerate(p: Coords, q: Coords)
    ensures CcwOf(p, p, q) == 0.0 && CcwOf(p, q, p) == 0.0
  {
  }

  /**
   * align_to_grid_coord as written: for a negative coordinate it uses
   * floor((coord - spacing + 1) / spacing), the C++ idiom for a floor
   * division over truncating integer division, but with Math.floor.
   */
  function AlignToGridCoordAsWritten(coord: real, spacing: real): (r: Result<real>)
    ensures r.Ok? <==> spacing > 0.0
  {
    if !(spacing > 0.0) then Err("Assertion failed")
    else if coord < 0.0 then Ok(((coord - spacing + 1.0) / spacing).Floor as real * spacing)
    else Ok((coord / spacing).Floor as real * spacing)
  }

  /** The as-written rule drops -5 on a grid of 5 to -10 instead of keeping -5. */
  lemma AlignAsWrittenSkipsCell()
    ensures AlignToGridCoordAsWritten(-5.0, 5.0) == Ok(-10.0)
  {
    assert (-9.0 / 5.0).Floor == -2;
  }

  /** The multiple of spacing below coord by the floor of their quotient lies within one spacing. */
  lemma FloorCell(coord: real, spacing: real)
    requires spacing > 0.0
    ensures var f := (coord / spacing).Floor as real; f * spacing <= coord < f * spacing + spacing
  {
    var q := coord / spacing;
    var f := q.Floor as real;
    assert q * spacing == coord;
    var g := f + 1.0 - q;
    var a := g * spacing;
    var b := f * spacing;
    var c := q * spacing;
    assert (q - f) * spacing >= 0.0;
    assert a > 0.0;
    assert a == b + spacing - c;
  }

  /** align_to_grid_coord as intended: the largest multiple of spacing not above coord. */
  function AlignToGridCoord(coord: real, spacing: real): (r: Result<real>)
    ensures r.Ok? <==> spacing > 0.0
    ensures r.Ok? ==> r.value <= coord < r.value + spacing
  {
    if !(spacing > 0.0) then Err("Assertion failed")
    else
      FloorCell(coord, spacing);
      var f := (coord / spacing).Floor as real;
      Ok(f * spacing)
  }

  /** For a positive integer spacing the aligned coordinate is an integer multiple of it. */
  lemma AlignedIsMultiple(coord: real, spacing: int)
    requires spacing >= 1
    ensures AlignToGridCoord(coord, spacing as real).Ok?
    ensures exists k: int {:trigger k * spacing} :: AlignToGridCoord(coord, spacing as real).value == (k * spacing) as real
  {
    var k := (coord / spacing as real).Floor;
    assert AlignToGridCoord(coord, spacing as real).value == (k * spacing) as real;
  }

  /** The two rules agree on non-negative coordinates. */
  lemma AlignAgreesOnNonNegative(coord: real, spacing: real)
    requires coord >= 0.0
    ensures AlignToGridCoordAsWritten(coord, spacing) == AlignToGridCoord(coord, spacing)
  {
  }

  /**
   * `new A(...)` where A is declared only by `export type A = ...`: no value
   * named A exists once types are erased, so the call throws a ReferenceError
   * whatever the arguments; `intended` is what the constructor was meant to build.
   */
  function NewAlias<T>(alias: string, intended: T): (r: Result<T>)
    ensures r.Err? && |r.error| > 0
  {
    Err("ReferenceError: " + alias + " is not defined")
  }

  class Point {
    var x: real
    var y: real

    /** new Point(x, y): both coordinates are rounded to integers. */
    constructor(x0: real, y0: real)
      ensures Value() == Rounded(x0, y0)
    {
      x := Round(x0) as real;
      y := Round(y0) as real;
    }

    function Value(): Coords
      reads this
    {
      Coords(x, y)
    }

    /** scale multiplies both coordinates; the result is not rounded. */
    method Scale(factor: real)
      modifies this
      ensures x == old(x) * factor && y == old(y) * factor
    {
      x := x * factor;
      y := y * factor;
    }

    /** translate(x, y). */
    method Translate(dx: real, dy: real)
      modifies this
      ensures Value() == Translated(old(Value()), dx, dy)
    {
      x := x + dx;
      y := y + dy;
    }

    /** translate(vector): the vector's coordinates are read before this point moves. */
    method TranslateBy(v: Point)
      modifies this
      ensures Value() == Translated(old(Value()), old(v.x), old(v.y))
    {
      Translate(v.x, v.y);
    }

    /** coincides_with: exact equality of both coordinates. */
    predicate CoincidesWith(p: Point)
      reads this, p
      ensures CoincidesWith(p) <==> Value() == p.Value()
    {
      x == p.x && y == p.y
    }

    function Dist(p: Point): real
      reads this, p
    {
      SqDist(x, y, p.x, p.y)
    }

    function WaypointDist(p: Point, dest: Point): real
      reads this, p, dest
    {
      SqDist(x, y, p.x, p.y) + SqDist(p.x, p.y, dest.x, dest.y)
    }

    /**
     * nearest_point_index: a linear scan for the smallest squared distance,
     * which skips candidates whose x part alone is already too far and stops
     * at the first candidate closer than EPSILON.
     */
    method NearestPointIndex(points: seq<Point>) returns (idx: int)
      ensures idx == -1 <==> |points| == 0
      ensures -1 <= idx < |points|
      ensures idx >= 0 ==> forall k :: 0 <= k < idx ==> Dist(points[idx]) <= Dist(points[k]) && Dist(points[k]) >= EPSILON
      ensures idx >= 0 && Dist(points[idx]) >= EPSILON ==>
                forall k :: idx < k < |points| ==> Dist(points[idx]) < Dist(points[k])
    {
      idx := -1;
      var distance := -1.0;
      for i := 0 to |points|
        invariant idx == -1 <==> i == 0
        invariant -1 <= idx < i
        invariant idx == -1 ==> distance == -1.0
        invariant idx >= 0 ==> distance == Dist(points[idx]) && distance >= EPSILON
        invariant idx >= 0 ==> forall k :: 0 <= k < idx ==> distance <= Dist(points[k]) && Dist(points[k]) >= EPSILON
        invariant idx >= 0 ==> forall k :: idx < k < i ==> distance < Dist(points[k])
      {
        var point := points[i];
        var d := (x - point.x) * (x - point.x);
        assert Dist(point) >= d by {
          assert (y - point.y) * (y - point.y) >= 0.0;
        }
        if distance != -1.0 && d > distance {
          continue;
        }
        d := d + (y - point.y) * (y - point.y);
        assert d == Dist(point);
        if distance != -1.0 && d > distance {
          continue;
        }
        idx := i;
        distance := d;
        if distance < EPSILON {
          break;
        }
      }
    }

    /**
     * nearest_waypoint_index: the same scan for the candidate minimising the
     * squared distance from this point plus the squared distance to `dest`.
     */
    method NearestWaypointIndex(points: seq<Point>, dest: Point) returns (idx: int)
      ensures idx == -1 <==> |points| == 0
      ensures -1 <= idx < |points|
      ensures idx >= 0 ==> forall k :: 0 <= k < idx ==>
                WaypointDist(points[idx], dest) <= WaypointDist(points[k], dest) && WaypointDist(points[k], dest) >= EPSILON
      ensures idx >= 0 && WaypointDist(points[idx], dest) >= EPSILON ==>
                forall k :: idx < k < |points| ==> WaypointDist(points[idx], dest) < WaypointDist(points[k], dest)
    {
      idx := -1;
      var distance := -1.0;
      for i := 0 to |points|
        invariant idx == -1 <==> i == 0
        invariant -1 <= idx < i
        invariant idx == -1 ==> distance == -1.0
        invariant idx >= 0 ==> distance == WaypointDist(points[idx], dest) && distance >= EPSILON
        invariant idx >= 0 ==> forall k :: 0 <= k < idx ==>
                    distance <= WaypointDist(points[k], dest) && WaypointDist(points[k], dest) >= EPSILON
        invariant idx >= 0 ==> forall k :: idx < k < i ==> distance < WaypointDist(points[k], dest)
      {
        var point := points[i];
        var d := SqDist(x, y, point.x, point.y);
        d := d + SqDist(point.x, point.y, dest.x, dest.y);
        if distance != -1.0 && d > distance {
          continue;
        }
        idx := i;
        distance := d;
        if distance < EPSILON {
          break;
        }
      }
    }

    /** ccw(p1, p2). */
    function Ccw(p1: Point, p2: Point): (r: real)
      reads this, p1, p2
      ensures r == -CcwOf(Value(), p2.Value(), p1.Value())
    {
      CcwAntisymmetric(Value(), p1.Value(), p2.Value());
      CcwOf(Value(), p1.Value(), p2.Value())
    }

    /** negative(): a new point at (-x, -y), rounded by the constructor. */
    function Negative(): (r: Coords)
      reads this
      ensures Value().Integral() ==> r == Coords(-x, -y)
    {
      if Value().Integral() then
        NegIntegral(x);
        NegIntegral(y);
        Rounded(-x, -y)
      else
        Rounded(-x, -y)
    }

    /** vector_to(p): a new vector p - this, rounded by the constructor. */
    function VectorTo(p: Point): (r: Coords)
      reads this, p
      ensures Value().Integral() && p.Value().Integral() ==> r == Coords(p.x - x, p.y - y)
    {
      if Value().Integral() && p.Value().Integral() then
        SumIntegral(p.x, x);
        SumIntegral(p.y, y);
        Rounded(p.x - x, p.y - y)
      else
        Rounded(p.x - x, p.y - y)
    }

    /** vector_to as written: Vector is a type alias only, so `new Vector` throws. */
    function VectorToAsWritten(p: Point): (r: Result<Coords>)
      reads this, p
      ensures r.Err?
    {
      NewAlias("Vector", Rounded(p.x - x, p.y - y))
    }

    /**
     * align_to_grid(spacing, base) (base defaults to the origin in the source):
     * x is aligned and stored before y is aligned, so a bad y spacing throws
     * after x has already moved.
     */
    method AlignToGrid(spacing: Point, base: Point) returns (r: Result<()>)
      modifies this
      ensures r.Ok? <==> old(spacing.x) > 0.0 && old(spacing.y) > 0.0
      ensures old(spacing.x) > 0.0 ==>
                x == old(base.x) + AlignToGridCoord(old(x) - old(base.x), old(spacing.x)).value
      ensures !(old(spacing.x) > 0.0) ==> x == old(x)
      ensures old(spacing.x) > 0.0 && old(spacing.y) > 0.0 ==>
                y == old(base.y) + AlignToGridCoord(old(y) - old(base.y), old(spacing.y)).value
      ensures !(old(spacing.x) > 0.0 && old(spacing.y) > 0.0) ==> y == old(y)
    {
      var ax := AlignToGridCoord(x - base.x, spacing.x);
      if ax.Err? {
        return Err(ax.error);
      }
      x := base.x + ax.value;
      var ay := AlignToGridCoord(y - base.y, spacing.y);
      if ay.Err? {
        return Err(ay.error);
      }
      y := base.y + ay.value;
      return Ok(());
    }
  }

  /** Translating by an integral vector and then by its negative restores the point. */
  lemma TranslateNegativeRestores(p: Coords, v: Coords)
    requires v.Integral()
    ensures var n := Rounded(-v.x, -v.y); Translated(Translated(p, v.x, v.y), n.x, n.y) == p
  {
    NegIntegral(v.x);
    NegIntegral(v.y);
  }

  /** p.translate(p.vector_to(q)) moves an integral p onto an integral q. */
  lemma TranslateByVectorTo(p: Point, q: Point)
    requires p.Value().Integral() && q.Value().Integral()
    ensures var v := p.VectorTo(q); Translated(p.Value(), v.x, v.y) == q.Value()
  {
  }

  /** add(p1, p2): a new point at the sum, which is exact for integral points. */
  function Add(p1: Point, p2: Point): (r: Coords)
    reads p1, p2
    ensures r.Integral()
    ensures p1.Value().Integral() && p2.Value().Integral() ==> r == Coords(p1.x + p2.x, p1.y + p2.y)
  {
    if p1.Value().Integral() && p2.Value().Integral() then
      SumIntegral(p1.x, p2.x);
      SumIntegral(p1.y, p2.y);
      Rounded(p1.x + p2.x, p1.y + p2.y)
    else
      Rounded(p1.x + p2.x, p1.y + p2.y)
  }

  /** subtract(p1, p2): a new point at the difference, which is exact for integral points. */
  function Subtract(p1: Point, p2: Point): (r: Coords)
    reads p1, p2
    ensures r.Integral()
    ensures p1.Value().Integral() && p2.Value().Integral() ==> r == Coords(p1.x - p2.x, p1.y - p2.y)
  {
    if p1.Value().Integral() && p2.Value().Integral() then
      SumIntegral(p1.x, p2.x);
      SumIntegral(p1.y, p2.y);
      Rounded(p1.x - p2.x, p1.y - p2.y)
    else
      Rounded(p1.x - p2.x, p1.y - p2.y)
  }

  /** multiply(scalar, p): a new point at the scaled coordinates, rounded to within half a unit. */
  function Multiply(scalar: real, p: Point): (r: Coords)
    reads p
    ensures r.Integral()
    ensures scalar * p.x - 0.5 < r.x <= scalar * p.x + 0.5
    ensures scalar * p.y - 0.5 < r.y <= scalar * p.y + 0.5
  {
    Rounded(scalar * p.x, scalar * p.y)
  }

  /** Point3: x and y are rounded as in Point, z is stored as given. */
  class Point3 {
    var x: real
    var y: real
    var z: real

    constructor(x0: real, y0: real, z0: real)
      ensures Coords(x, y) == Rounded(x0, y0) && z == z0
    {
      x := Round(x0) as real;
      y := Round(y0) as real;
      z := z0;
    }

    /** coincides_with: exact equality of all three coordinates. */
    predicate CoincidesWith(p: Point3)
      reads this, p
      ensures CoincidesWith(p) <==> (x, y, z) == (p.x, p.y, p.z)
    {
      x == p.x && y == p.y && z == p.z
    }
  }

  /** Exact coordinate equality is an equivalence on point states. */
  lemma CoincidesWithEquivalence(p: Point, q: Point, s: Point)
    ensures p.CoincidesWith(p)
    ensures p.CoincidesWith(q) <==> q.CoincidesWith(p)
    ensures p.CoincidesWith(q) && q.CoincidesWith(s) ==> p.CoincidesWith(s)
  {
  }

  /** A floating 2D point (Pointf, and its alias Vectorf). */
  datatype Pointf = Pointf(x: real, y: real)
  {
    function Scale(factor: real): (r: Pointf)
      ensures r.x == x * factor && r.y == y * factor
    {
      Pointf(x * factor, y * factor)
    }

    function Translate(dx: real, dy: real): (r: Pointf)
      ensures r.x - x == dx && r.y - y == dy
    {
      Pointf(x + dx, y + dy)
    }

    function Negative(): (r: Pointf)
      ensures r.x + x == 0.0 && r.y + y == 0.0
    {
      Pointf(-x, -y)
    }

    function VectorTo(p: Pointf): (r: Pointf)
      ensures Translate(r.x, r.y) == p
    {
      Pointf(p.x - x, p.y - y)
    }

    /** vector_to as written: Vectorf is a type alias only, so `new Vectorf` throws. */
    function VectorToAsWritten(p: Pointf): (r: Result<Pointf>)
      ensures r.Err?
    {
      NewAlias("Vectorf", Pointf(p.x - x, p.y - y))
    }

    /** divideEquals, as a value. */
    function Divide(scalar: real): (r: Pointf)
      requires scalar != 0.0
      ensures r.Scale(scalar) == this
    {
      Pointf(x / scalar, y / scalar)
    }
  }

  /** pointfAdd. */
  function PointfAdd(p1: Pointf, p2: Pointf): (r: Pointf)
    ensures r == p1.Translate(p2.x, p2.y)
  {
    Pointf(p1.x + p2.x, p1.y + p2.y)
  }

  /** pointfDivide: JavaScript division by a zero scalar yields infinities, which reals cannot hold. */
  function PointfDivide(p: Pointf, scalar: real): (r: Pointf)
    requires scalar != 0.0
    ensures r.Scale(scalar) == p
  {
    p.Divide(scalar)
  }

  /** A floating 3D point (Pointf3, and its alias Vectorf3). */
  datatype Pointf3 = Pointf3(x: real, y: real, z: real)
  {
    function Scale(factor: real): (r: Pointf3)
      ensures r.x == x * factor && r.y == y * factor && r.z == z * factor
    {
      Pointf3(x * factor, y * factor, z * factor)
    }

    function Translate(dx: real, dy: real, dz: real): (r: Pointf3)
      ensures r.x - x == dx && r.y - y == dy && r.z - z == dz
    {
      Pointf3(x + dx, y + dy, z + dz)
    }

    function Negative(): (r: Pointf3)
      ensures r.x + x == 0.0 && r.y + y == 0.0 && r.z + z == 0.0
    {
      Pointf3(-x, -y, -z)
    }

    function VectorTo(p: Pointf3): (r: Pointf3)
      ensures Translate(r.x, r.y, r.z) == p
    {
      Pointf3(p.x - x, p.y - y, p.z - z)
    }

    /** vector_to as written: Vectorf3 is a type alias only, so `new Vectorf3` throws. */
    function VectorToAsWritten(p: Pointf3): (r: Result<Pointf3>)
      ensures r.Err?
    {
      NewAlias("Vectorf3", Pointf3(p.x - x, p.y - y, p.z - z))
    }
  }

  /**
   * The three vector_to methods as written throw on every input, while the
   * intended ones return the vector that translates the receiver onto the argument.
   */
  lemma VectorAliasesThrow(p: Point, q: Point, f: Pointf, g: Pointf, f3: Pointf3, g3: Pointf3)
    ensures p.VectorToAsWritten(q).Err? && f.VectorToAsWritten(g).Err? && f3.VectorToAsWritten(g3).Err?
    ensures f.Translate(f.VectorTo(g).x, f.VectorTo(g).y) == g
    ensures f3.Translate(f3.VectorTo(g3).x, f3.VectorTo(g3).y, f3.VectorTo(g3).z) == g3
  {
  }

  /** negative is an involution. */
  lemma NegativeInvolution(p: Pointf3)
    ensures p.Negative().Negative() == p
  {
  }

  /** Translating by a vector and then by its negative restores a Pointf3. */
  lemma Pointf3TranslateBack(p: Pointf3, v: Pointf3)
    ensures var n := v.Negative(); p.Translate(v.x, v.y, v.z).Translate(n.x, n.y, n.z) == p
  {
  }

  /** The points of all items, item after item. */
  function Concat(items: seq<seq<Point>>): (r: seq<Point>)
  {
    if |items| == 0 then [] else Concat(items[..|items| - 1]) + items[|items| - 1]
  }

  /** Every item's points sit, in order, at its offset in the concatenation. */
  lemma {:induction false} ConcatPrefix(items: seq<seq<Point>>, i: nat)
    requires i < |items|
    ensures |Concat(items[..i])| + |items[i]| <= |Concat(items)|
    ensures Concat(items)[|Concat(items[..i])|..|Concat(items[..i])| + |items[i]|] == items[i]
  {
    var n := |items| - 1;
    assert items[..n + 1] == items;
    if i == n {
      assert items[..|items|][..|items| - 1] == items[..n];
    } else {
      assert items[..n][..i] == items[..i];
      assert items[..n][i] == items[i];
      ConcatPrefix(items[..n], i);
      assert Concat(items) == Concat(items[..n]) + items[n];
    }
  }

  /** to_points: concatenates the items' point lists in order. */
  method ToPoints(items: seq<seq<Point>>) returns (points: seq<Point>)
    ensures points == Concat(items)
  {
    points := [];
    for i := 0 to |items|
      invariant points == Concat(items[..i])
    {
      assert items[..i + 1][..i] == items[..i];
      points := points + items[i];
    }
    assert items[..|items|] == items;
  }
}
