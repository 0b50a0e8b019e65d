// The triangle meshes of src/lib/slicer/TriangleMesh.ts: a list of vertices
// (three coordinates each), a list of faces (three vertex indices each) and
// the `repaired` flag that every geometric change clears.

module Meshes {
  import opened Points
  import BoundingBoxes
  import Matrices

  /** A face: three indices into the vertex list, in winding order. */
  datatype Face = Face(v0: int, v1: int, v2: int)

  /** The { min, max } pair boundingBox() returns. */
  datatype MeshBox = MeshBox(min: Pointf3, max: Pointf3)

  const Origin: Pointf3 := Pointf3(0.0, 0.0, 0.0)

  // ------------------------------------------------------------ extents

  /** One step of boundingBox's loop: min and max take the Math.min / Math.max with the vertex. */
  function Grow(b: MeshBox, v: Pointf3): MeshBox
  {
    MeshBox(BoundingBoxes.MinPoint3(b.min, v), BoundingBoxes.MaxPoint3(b.max, v))
  }

  /** The box of a non-empty vertex list: start from the first vertex and grow by the others in order. */
  function Fold(vs: seq<Pointf3>): MeshBox
    requires |vs| > 0
    decreases |vs|
  {
    if |vs| == 1 then MeshBox(vs[0], vs[0]) else Grow(Fold(vs[..|vs| - 1]), vs[|vs| - 1])
  }

  /** The folded box holds every vertex, and each of its six bounds is some vertex's coordinate. */
  lemma {:induction false} FoldBounds(vs: seq<Pointf3>)
    requires |vs| > 0
    ensures var r := Fold(vs);
            forall i :: 0 <= i < |vs| ==> BoundingBoxes.Inside3(r.min, r.max, vs[i])
    ensures var r := Fold(vs);
            (exists i :: 0 <= i < |vs| && vs[i].x == r.min.x) && (exists i :: 0 <= i < |vs| && vs[i].x == r.max.x)
            && (exists i :: 0 <= i < |vs| && vs[i].y == r.min.y) && (exists i :: 0 <= i < |vs| && vs[i].y == r.max.y)
            && (exists i :: 0 <= i < |vs| && vs[i].z == r.min.z) && (exists i :: 0 <= i < |vs| && vs[i].z == r.max.z)
    decreases |vs|
  {
    var n := |vs|;
    if n == 1 {
      assert vs[0].x == Fold(vs).min.x;
    } else {
      var prefix := vs[..n - 1];
      FoldBounds(prefix);
      var b := Fold(prefix);
      assert forall i :: 0 <= i < n - 1 ==> prefix[i] == vs[i];
      var v := vs[n - 1];
      var i0 :| 0 <= i0 < n - 1 && prefix[i0].x == b.min.x;
      var i1 :| 0 <= i1 < n - 1 && prefix[i1].x == b.max.x;
      var i2 :| 0 <= i2 < n - 1 && prefix[i2].y == b.min.y;
      var i3 :| 0 <= i3 < n - 1 && prefix[i3].y == b.max.y;
      var i4 :| 0 <= i4 < n - 1 && prefix[i4].z == b.min.z;
      var i5 :| 0 <= i5 < n - 1 && prefix[i5].z == b.max.z;
      assert v == vs[n - 1];
    }
  }

  /** boundingBox(): the zero box for an empty mesh, the folded box otherwise. */
  function Bounds(vs: seq<Pointf3>): MeshBox
  {
    if |vs| == 0 then MeshBox(Origin, Origin) else Fold(vs)
  }

  /** The box of a non-empty mesh holds every vertex, and some vertex attains each of its six bounds. */
  lemma BoundsSpec(vs: seq<Pointf3>)
    ensures var r := Bounds(vs);
            forall i :: 0 <= i < |vs| ==> BoundingBoxes.Inside3(r.min, r.max, vs[i])
    ensures var r := Bounds(vs);
            |vs| > 0 ==>
              (exists i :: 0 <= i < |vs| && vs[i].x == r.min.x) && (exists i :: 0 <= i < |vs| && vs[i].x == r.max.x)
              && (exists i :: 0 <= i < |vs| && vs[i].y == r.min.y) && (exists i :: 0 <= i < |vs| && vs[i].y == r.max.y)
              && (exists i :: 0 <= i < |vs| && vs[i].z == r.min.z) && (exists i :: 0 <= i < |vs| && vs[i].z == r.max.z)
  {
    if |vs| > 0 {
      FoldBounds(vs);
    }
  }

  /** Those two properties determine the box: any box that holds every vertex and whose bounds are attained is it. */
  lemma BoundsUnique(vs: seq<Pointf3>, b: MeshBox)
    requires |vs| > 0
    requires forall i :: 0 <= i < |vs| ==> BoundingBoxes.Inside3(b.min, b.max, vs[i])
    requires (exists i :: 0 <= i < |vs| && vs[i].x == b.min.x) && (exists i :: 0 <= i < |vs| && vs[i].x == b.max.x)
    requires (exists i :: 0 <= i < |vs| && vs[i].y == b.min.y) && (exists i :: 0 <= i < |vs| && vs[i].y == b.max.y)
    requires (exists i :: 0 <= i < |vs| && vs[i].z == b.min.z) && (exists i :: 0 <= i < |vs| && vs[i].z == b.max.z)
    ensures b == Bounds(vs)
  {
    BoundsSpec(vs);
    var r := Bounds(vs);
    var i0 :| 0 <= i0 < |vs| && vs[i0].x == r.min.x;
    var i1 :| 0 <= i1 < |vs| && vs[i1].x == r.max.x;
    var i2 :| 0 <= i2 < |vs| && vs[i2].y == r.min.y;
    var i3 :| 0 <= i3 < |vs| && vs[i3].y == r.max.y;
    var i4 :| 0 <= i4 < |vs| && vs[i4].z == r.min.z;
    var i5 :| 0 <= i5 < |vs| && vs[i5].z == r.max.z;
    assert BoundingBoxes.Inside3(b.min, b.max, vs[i0]) && BoundingBoxes.Inside3(b.min, b.max, vs[i1]);
    assert BoundingBoxes.Inside3(b.min, b.max, vs[i2]) && BoundingBoxes.Inside3(b.min, b.max, vs[i3]);
    assert BoundingBoxes.Inside3(b.min, b.max, vs[i4]) && BoundingBoxes.Inside3(b.min, b.max, vs[i5]);
  }

  /** center(): the midpoint of the box. */
  function CenterOf(b: MeshBox): (r: Pointf3)
    ensures r.x - b.min.x == b.max.x - r.x && r.y - b.min.y == b.max.y - r.y && r.z - b.min.z == b.max.z - r.z
  {
    Pointf3((b.min.x + b.max.x) / 2.0, (b.min.y + b.max.y) / 2.0, (b.min.z + b.max.z) / 2.0)
  }

  /** size(): the vector from the lower corner to the upper one. */
  function SizeOf(b: MeshBox): (r: Pointf3)
  {
    Pointf3(b.max.x - b.min.x, b.max.y - b.min.y, b.max.z - b.min.z)
  }

  /** The shift centerAroundOrigin applies to an aligned mesh: minus half its size. */
  function HalfBack(size: Pointf3): (r: Pointf3)
    ensures r.Scale(-2.0) == size
  {
    Pointf3(-size.x / 2.0, -size.y / 2.0, -size.z / 2.0)
  }

  /** A mesh's box is ordered, so its size is non-negative and its center inside it. */
  lemma BoundsOrdered(vs: seq<Pointf3>)
    ensures var b := Bounds(vs);
            b.min.x <= b.max.x && b.min.y <= b.max.y && b.min.z <= b.max.z
    ensures var s := SizeOf(Bounds(vs)); s.x >= 0.0 && s.y >= 0.0 && s.z >= 0.0
    ensures var b := Bounds(vs); BoundingBoxes.Inside3(b.min, b.max, CenterOf(b))
  {
    BoundsSpec(vs);
    if |vs| > 0 {
      assert BoundingBoxes.Inside3(Bounds(vs).min, Bounds(vs).max, vs[0]);
    }
  }

  // ------------------------------------------------------- vertex maps

  function TranslateAll(vs: seq<Pointf3>, dx: real, dy: real, dz: real): seq<Pointf3>
  {
    seq(|vs|, i requires 0 <= i < |vs| => vs[i].Translate(dx, dy, dz))
  }

  function ScaleAll(vs: seq<Pointf3>, factor: real): seq<Pointf3>
  {
    seq(|vs|, i requires 0 <= i < |vs| => vs[i].Scale(factor))
  }

  function ScaleVectorAll(vs: seq<Pointf3>, factors: Pointf3): seq<Pointf3>
  {
    seq(|vs|, i requires 0 <= i < |vs| => Pointf3(vs[i].x * factors.x, vs[i].y * factors.y, vs[i].z * factors.z))
  }

  /** The smaller end of [lo, hi] scaled by c. */
  function ScaledLo(lo: real, hi: real, c: real): real
  {
    if c >= 0.0 then lo * c else hi * c
  }

  /** The larger end of [lo, hi] scaled by c. */
  function ScaledHi(lo: real, hi: real, c: real): real
  {
    if c >= 0.0 then hi * c else lo * c
  }

  /** A box scaled componentwise; on an axis with a negative factor the two bounds change places. */
  function ScaledBox(b: MeshBox, f: Pointf3): MeshBox
  {
    MeshBox(Pointf3(ScaledLo(b.min.x, b.max.x, f.x), ScaledLo(b.min.y, b.max.y, f.y), ScaledLo(b.min.z, b.max.z, f.z)),
            Pointf3(ScaledHi(b.min.x, b.max.x, f.x), ScaledHi(b.min.y, b.max.y, f.y), ScaledHi(b.min.z, b.max.z, f.z)))
  }

  lemma MulMono(a: real, b: real, c: real)
    requires a <= b
    ensures c >= 0.0 ==> a * c <= b * c
    ensures c < 0.0 ==> b * c <= a * c
  {
    assert b * c - a * c == (b - a) * c;
  }

  /** A value between lo and hi stays between the scaled ends. */
  lemma ScaledBetween(lo: real, v: real, hi: real, c: real)
    requires lo <= v <= hi
    ensures ScaledLo(lo, hi, c) <= v * c <= ScaledHi(lo, hi, c)
  {
    MulMono(lo, v, c);
    MulMono(v, hi, c);
  }

  /** The scaled ends are the scaled values at the ends. */
  lemma ScaledAttained(lo: real, hi: real, c: real, wlo: real, whi: real)
    requires wlo == lo * c && whi == hi * c
    ensures ScaledLo(lo, hi, c) == (if c >= 0.0 then wlo else whi)
    ensures ScaledHi(lo, hi, c) == (if c >= 0.0 then whi else wlo)
  {
  }

  lemma {:induction false} FoldTranslate(vs: seq<Pointf3>, dx: real, dy: real, dz: real)
    requires |vs| > 0
    ensures var b := Fold(vs);
            Fold(TranslateAll(vs, dx, dy, dz)) == MeshBox(b.min.Translate(dx, dy, dz), b.max.Translate(dx, dy, dz))
    decreases |vs|
  {
    if |vs| > 1 {
      var n := |vs|;
      FoldTranslate(vs[..n - 1], dx, dy, dz);
      assert TranslateAll(vs, dx, dy, dz)[..n - 1] == TranslateAll(vs[..n - 1], dx, dy, dz);
    }
  }

  /** translate(x, y, z) shifts the box by (x, y, z); the empty mesh keeps the zero box. */
  lemma BoundsTranslate(vs: seq<Pointf3>, dx: real, dy: real, dz: real)
    ensures var b := Bounds(vs);
            Bounds(TranslateAll(vs, dx, dy, dz))
            == if |vs| == 0 then b else MeshBox(b.min.Translate(dx, dy, dz), b.max.Translate(dx, dy, dz))
  {
    if |vs| > 0 {
      FoldTranslate(vs, dx, dy, dz);
    }
  }

  lemma ScaledInside(vs: seq<Pointf3>, f: Pointf3, b: MeshBox)
    requires forall i :: 0 <= i < |vs| ==> BoundingBoxes.Inside3(b.min, b.max, vs[i])
    ensures var s, ws := ScaledBox(b, f), ScaleVectorAll(vs, f);
            forall i :: 0 <= i < |ws| ==> BoundingBoxes.Inside3(s.min, s.max, ws[i])
  {
    var s, ws := ScaledBox(b, f), ScaleVectorAll(vs, f);
    forall i | 0 <= i < |ws|
      ensures BoundingBoxes.Inside3(s.min, s.max, ws[i])
    {
      assert BoundingBoxes.Inside3(b.min, b.max, vs[i]);
      ScaledBetween(b.min.x, vs[i].x, b.max.x, f.x);
      ScaledBetween(b.min.y, vs[i].y, b.max.y, f.y);
      ScaledBetween(b.min.z, vs[i].z, b.max.z, f.z);
    }
  }

  /** With the extremes of vs at the given indices, the scaled extremes are attained by the scaled vertices. */
  lemma ScaledExtremes(vs: seq<Pointf3>, f: Pointf3, i0: int, i1: int, i2: int, i3: int, i4: int, i5: int)
    requires 0 <= i0 < |vs| && 0 <= i1 < |vs| && 0 <= i2 < |vs| && 0 <= i3 < |vs| && 0 <= i4 < |vs| && 0 <= i5 < |vs|
    ensures var ws := ScaleVectorAll(vs, f);
            (exists j :: 0 <= j < |ws| && ws[j].x == ScaledLo(vs[i0].x, vs[i1].x, f.x))
            && (exists j :: 0 <= j < |ws| && ws[j].x == ScaledHi(vs[i0].x, vs[i1].x, f.x))
            && (exists j :: 0 <= j < |ws| && ws[j].y == ScaledLo(vs[i2].y, vs[i3].y, f.y))
            && (exists j :: 0 <= j < |ws| && ws[j].y == ScaledHi(vs[i2].y, vs[i3].y, f.y))
            && (exists j :: 0 <= j < |ws| && ws[j].z == ScaledLo(vs[i4].z, vs[i5].z, f.z))
            && (exists j :: 0 <= j < |ws| && ws[j].z == ScaledHi(vs[i4].z, vs[i5].z, f.z))
  {
    var ws := ScaleVectorAll(vs, f);
    ScaledAttained(vs[i0].x, vs[i1].x, f.x, ws[i0].x, ws[i1].x);
    ScaledAttained(vs[i2].y, vs[i3].y, f.y, ws[i2].y, ws[i3].y);
    ScaledAttained(vs[i4].z, vs[i5].z, f.z, ws[i4].z, ws[i5].z);
  }

  /**
   * scaleVector(factors) scales the box componentwise; on an axis with a
   * negative factor the two bounds change places.
   */
  lemma BoundsScaleVector(vs: seq<Pointf3>, f: Pointf3)
    ensures Bounds(ScaleVectorAll(vs, f)) == if |vs| == 0 then Bounds(vs) else ScaledBox(Bounds(vs), f)
  {
    if |vs| > 0 {
      var b, ws := Bounds(vs), ScaleVectorAll(vs, f);
      BoundsSpec(vs);
      ScaledInside(vs, f, b);
      var i0 :| 0 <= i0 < |vs| && vs[i0].x == b.min.x;
      var i1 :| 0 <= i1 < |vs| && vs[i1].x == b.max.x;
      var i2 :| 0 <= i2 < |vs| && vs[i2].y == b.min.y;
      var i3 :| 0 <= i3 < |vs| && vs[i3].y == b.max.y;
      var i4 :| 0 <= i4 < |vs| && vs[i4].z == b.min.z;
      var i5 :| 0 <= i5 < |vs| && vs[i5].z == b.max.z;
      ScaledExtremes(vs, f, i0, i1, i2, i3, i4, i5);
      BoundsUnique(ws, ScaledBox(b, f));
    }
  }

  /** scale(factor) with a non-negative factor scales both corners of the box. */
  lemma BoundsScale(vs: seq<Pointf3>, factor: real)
    requires factor >= 0.0
    ensures var b := Bounds(vs);
            Bounds(ScaleAll(vs, factor)) == MeshBox(b.min.Scale(factor), b.max.Scale(factor))
  {
    var f := Pointf3(factor, factor, factor);
    ScaleIsScaleVector(vs, factor);
    BoundsScaleVector(vs, f);
    UniformScaledBox(Bounds(vs), factor);
  }

  lemma UniformScaledBox(b: MeshBox, c: real)
    requires c >= 0.0
    ensures ScaledBox(b, Pointf3(c, c, c)) == MeshBox(b.min.Scale(c), b.max.Scale(c))
    ensures MeshBox(Origin, Origin) == MeshBox(Origin.Scale(c), Origin.Scale(c))
  {
  }

  lemma ScaleIsScaleVector(vs: seq<Pointf3>, factor: real)
    ensures ScaleAll(vs, factor) == ScaleVectorAll(vs, Pointf3(factor, factor, factor))
  {
    var l, r := ScaleAll(vs, factor), ScaleVectorAll(vs, Pointf3(factor, factor, factor));
    forall i | 0 <= i < |vs|
      ensures l[i] == r[i]
    {
    }
  }

  // ------------------------------------------------------------ mirror

  /** A vertex mirrored across the plane of the given axis. */
  function MirrorPoint(p: Pointf3, axis: Matrices.Axis): Pointf3
  {
    match axis
    case X => Pointf3(-p.x, p.y, p.z)
    case Y => Pointf3(p.x, -p.y, p.z)
    case Z => Pointf3(p.x, p.y, -p.z)
  }

  /** The mirrored vertex is what mat_mirror(axis) maps it to. */
  lemma MirrorPointIsMatMirror(p: Pointf3, axis: Matrices.Axis)
    ensures MirrorPoint(p, axis) == Matrices.Transform(Matrices.Mirror(axis), p, 1.0)
  {
  }

  /** The factors of mirror(axis) as a componentwise scaling. */
  function MirrorFactors(axis: Matrices.Axis): Pointf3
  {
    match axis
    case X => Pointf3(-1.0, 1.0, 1.0)
    case Y => Pointf3(1.0, -1.0, 1.0)
    case Z => Pointf3(1.0, 1.0, -1.0)
  }

  /**
   * mirror(axis)'s vertex map as written: `newVertex[axis]` indexes the
   * tuple with the string "x", "y" or "z", which names no coordinate, so
   * every copy keeps its three coordinates.
   */
  function MirrorVerticesAsWritten(vs: seq<Pointf3>, axis: Matrices.Axis): seq<Pointf3>
  {
    seq(|vs|, i requires 0 <= i < |vs| => Pointf3(vs[i].x, vs[i].y, vs[i].z))
  }

  /** mirror(axis)'s vertex map as intended: the coordinate of the axis is negated. */
  function MirrorVertices(vs: seq<Pointf3>, axis: Matrices.Axis): seq<Pointf3>
  {
    seq(|vs|, i requires 0 <= i < |vs| => MirrorPoint(vs[i], axis))
  }

  /** As written, mirroring moves no vertex: a vertex off the mirror plane stays where it was. */
  lemma MirrorAsWrittenMovesNothing(vs: seq<Pointf3>, axis: Matrices.Axis)
    ensures MirrorVerticesAsWritten(vs, axis) == vs
    ensures var p := [Pointf3(1.0, 0.0, 0.0)];
            MirrorVerticesAsWritten(p, Matrices.X) != MirrorVertices(p, Matrices.X)
  {
    var p := [Pointf3(1.0, 0.0, 0.0)];
    assert MirrorVertices(p, Matrices.X)[0].x == -1.0;
  }

  /** A mirrored box: the bounds on the mirrored axis are negated and exchanged. */
  function MirrorBox(b: MeshBox, axis: Matrices.Axis): MeshBox
  {
    match axis
    case X => MeshBox(Pointf3(-b.max.x, b.min.y, b.min.z), Pointf3(-b.min.x, b.max.y, b.max.z))
    case Y => MeshBox(Pointf3(b.min.x, -b.max.y, b.min.z), Pointf3(b.max.x, -b.min.y, b.max.z))
    case Z => MeshBox(Pointf3(b.min.x, b.min.y, -b.max.z), Pointf3(b.max.x, b.max.y, -b.min.z))
  }

  /** Mirroring reflects the box, and mirroring twice restores the vertices. */
  lemma MirrorProperties(vs: seq<Pointf3>, axis: Matrices.Axis)
    ensures Bounds(MirrorVertices(vs, axis)) == if |vs| == 0 then Bounds(vs) else MirrorBox(Bounds(vs), axis)
    ensures MirrorVertices(MirrorVertices(vs, axis), axis) == vs
  {
    MirrorIsScaleVector(vs, axis);
    BoundsScaleVector(vs, MirrorFactors(axis));
    MirrorScaledBox(Bounds(vs), axis);
    var ms := MirrorVertices(MirrorVertices(vs, axis), axis);
    forall i | 0 <= i < |vs|
      ensures ms[i] == vs[i]
    {
      MirrorPointInvolution(vs[i], axis);
    }
  }

  lemma MirrorPointInvolution(p: Pointf3, axis: Matrices.Axis)
    ensures MirrorPoint(MirrorPoint(p, axis), axis) == p
  {
  }

  lemma MirrorIsScaleVector(vs: seq<Pointf3>, axis: Matrices.Axis)
    ensures MirrorVertices(vs, axis) == ScaleVectorAll(vs, MirrorFactors(axis))
  {
    var l, r := MirrorVertices(vs, axis), ScaleVectorAll(vs, MirrorFactors(axis));
    forall i | 0 <= i < |vs|
      ensures l[i] == r[i]
    {
    }
  }

  lemma MirrorScaledBox(b: MeshBox, axis: Matrices.Axis)
    ensures ScaledBox(b, MirrorFactors(axis)) == MirrorBox(b, axis)
  {
  }

  // ------------------------------------------------------------- faces

  /** Every index of every face names a vertex of a list of n vertices. */
  predicate FacesValid(n: int, fs: seq<Face>)
  {
    forall i :: 0 <= i < |fs| ==> 0 <= fs[i].v0 < n && 0 <= fs[i].v1 < n && 0 <= fs[i].v2 < n
  }

  /** The three corners of a face. */
  function Triangle(vs: seq<Pointf3>, f: Face): (Pointf3, Pointf3, Pointf3)
    requires 0 <= f.v0 < |vs| && 0 <= f.v1 < |vs| && 0 <= f.v2 < |vs|
  {
    (vs[f.v0], vs[f.v1], vs[f.v2])
  }

  /** merge's face map: every index shifted by k. */
  function OffsetFaces(fs: seq<Face>, k: int): seq<Face>
  {
    seq(|fs|, i requires 0 <= i < |fs| => Face(fs[i].v0 + k, fs[i].v1 + k, fs[i].v2 + k))
  }

  /** reverseNormals' face map: the second and third index change places. */
  function ReverseFaces(fs: seq<Face>): seq<Face>
  {
    seq(|fs|, i requires 0 <= i < |fs| => Face(fs[i].v0, fs[i].v2, fs[i].v1))
  }

  /**
   * Merging keeps every face valid, and every face, old or appended,
   * still has the corners it had in its own mesh.
   */
  lemma MergeKeepsTriangles(vs1: seq<Pointf3>, fs1: seq<Face>, vs2: seq<Pointf3>, fs2: seq<Face>)
    requires FacesValid(|vs1|, fs1) && FacesValid(|vs2|, fs2)
    ensures var fs := fs1 + OffsetFaces(fs2, |vs1|);
            FacesValid(|vs1| + |vs2|, fs)
            && (forall i :: 0 <= i < |fs1| ==> Triangle(vs1 + vs2, fs[i]) == Triangle(vs1, fs1[i]))
            && (forall j :: 0 <= j < |fs2| ==> Triangle(vs1 + vs2, fs[|fs1| + j]) == Triangle(vs2, fs2[j]))
  {
    var fs := fs1 + OffsetFaces(fs2, |vs1|);
    forall j | 0 <= j < |fs2|
      ensures fs[|fs1| + j] == Face(fs2[j].v0 + |vs1|, fs2[j].v1 + |vs1|, fs2[j].v2 + |vs1|)
    {
    }
  }

  /** Reversing the winding twice restores the faces; it keeps every face valid and its corners, in swapped order. */
  lemma ReverseProperties(vs: seq<Pointf3>, fs: seq<Face>)
    ensures ReverseFaces(ReverseFaces(fs)) == fs
    ensures FacesValid(|vs|, ReverseFaces(fs)) <==> FacesValid(|vs|, fs)
    ensures FacesValid(|vs|, fs) ==>
              forall i :: 0 <= i < |fs| ==>
                var (a, b, c) := Triangle(vs, fs[i]); Triangle(vs, ReverseFaces(fs)[i]) == (a, c, b)
  {
    var rs := ReverseFaces(fs);
    if FacesValid(|vs|, rs) {
      forall i | 0 <= i < |fs|
        ensures 0 <= fs[i].v0 < |vs| && 0 <= fs[i].v1 < |vs| && 0 <= fs[i].v2 < |vs|
      {
        assert rs[i] == Face(fs[i].v0, fs[i].v2, fs[i].v1);
      }
    }
  }

  // -------------------------------------------------------------- cube

  /** makeCube's eight corners of [0, x] x [0, y] x [0, z]. */
  function CubeVertices(x: real, y: real, z: real): seq<Pointf3>
  {
    [Pointf3(x, y, 0.0), Pointf3(x, 0.0, 0.0), Pointf3(0.0, 0.0, 0.0), Pointf3(0.0, y, 0.0),
     Pointf3(x, y, z), Pointf3(0.0, y, z), Pointf3(0.0, 0.0, z), Pointf3(x, 0.0, z)]
  }

  /** makeCube's twelve triangles, two per side. */
  const CubeFaces: seq<Face> :=
    [Face(0, 1, 2), Face(0, 2, 3), Face(4, 5, 6), Face(4, 6, 7), Face(0, 4, 7), Face(0, 7, 1),
     Face(1, 7, 6), Face(1, 6, 2), Face(2, 6, 5), Face(2, 5, 3), Face(4, 0, 3), Face(4, 3, 5)]

  /** The cube has 8 vertices and 12 valid faces. */
  lemma CubeFacesValid(x: real, y: real, z: real)
    ensures |CubeVertices(x, y, z)| == 8 && |CubeFaces| == 12
    ensures FacesValid(|CubeVertices(x, y, z)|, CubeFaces)
  {
  }

  /** The cube's box spans 0 and (x, y, z) on every axis: [0, x] x [0, y] x [0, z] for non-negative sides. */
  lemma CubeBounds(x: real, y: real, z: real)
    ensures Bounds(CubeVertices(x, y, z))
            == MeshBox(Pointf3(BoundingBoxes.Min(0.0, x), BoundingBoxes.Min(0.0, y), BoundingBoxes.Min(0.0, z)),
                       Pointf3(BoundingBoxes.Max(0.0, x), BoundingBoxes.Max(0.0, y), BoundingBoxes.Max(0.0, z)))
  {
    var vs := CubeVertices(x, y, z);
    assert vs[0] == Pointf3(x, y, 0.0) && vs[2] == Origin && vs[4] == Pointf3(x, y, z);
    BoundsUnique(vs, MeshBox(Pointf3(BoundingBoxes.Min(0.0, x), BoundingBoxes.Min(0.0, y), BoundingBoxes.Min(0.0, z)),
                             Pointf3(BoundingBoxes.Max(0.0, x), BoundingBoxes.Max(0.0, y), BoundingBoxes.Max(0.0, z))));
  }

  // --------------------------------------------------- alignment lemmas

  /** Shifting a box by minus its lower corner puts that corner at the origin and keeps the size. */
  lemma ShiftToOrigin(c: MeshBox, dx: real, dy: real, dz: real)
    requires dx == -c.min.x && dy == -c.min.y && dz == -c.min.z
    ensures var d := MeshBox(c.min.Translate(dx, dy, dz), c.max.Translate(dx, dy, dz));
            d.min == Origin && SizeOf(d) == SizeOf(c)
  {
  }

  /** alignToOrigin's translation puts the lower corner of the box at the origin and keeps the size. */
  lemma AlignedToOrigin(vs: seq<Pointf3>, dx: real, dy: real, dz: real)
    requires var m := Bounds(vs).min; dx == -m.x && dy == -m.y && dz == -m.z
    ensures Bounds(TranslateAll(vs, dx, dy, dz)).min == Origin
    ensures SizeOf(Bounds(TranslateAll(vs, dx, dy, dz))) == SizeOf(Bounds(vs))
  {
    BoundsTranslate(vs, dx, dy, dz);
    if |vs| == 0 {
      assert TranslateAll(vs, dx, dy, dz) == [];
    } else {
      ShiftToOrigin(Bounds(vs), dx, dy, dz);
    }
  }

  /** alignToBed's translation puts the lowest z at 0 and leaves x and y alone. */
  lemma AlignedToBed(vs: seq<Pointf3>)
    ensures var b := Bounds(vs);
            var a := Bounds(TranslateAll(vs, 0.0, 0.0, -b.min.z));
            a.min.z == 0.0 && a.min.x == b.min.x && a.min.y == b.min.y && a.max.x == b.max.x && a.max.y == b.max.y
            && a.max.z == b.max.z - b.min.z
  {
    BoundsTranslate(vs, 0.0, 0.0, -Bounds(vs).min.z);
  }

  /** Shifting a box whose lower corner is the origin back by half its size centers it. */
  lemma HalfShiftCenters(c: MeshBox, dx: real, dy: real, dz: real)
    requires c.min == Origin
    requires var s := SizeOf(c); dx == -s.x / 2.0 && dy == -s.y / 2.0 && dz == -s.z / 2.0
    ensures var d := MeshBox(c.min.Translate(dx, dy, dz), c.max.Translate(dx, dy, dz));
            CenterOf(d) == Origin && SizeOf(d) == SizeOf(c)
  {
  }

  /** The second half of centerAroundOrigin: on a mesh whose box starts at the origin, shifting back by half the size centers it. */
  lemma HalfShiftedBounds(vs: seq<Pointf3>, dx: real, dy: real, dz: real)
    requires Bounds(vs).min == Origin
    requires var s := SizeOf(Bounds(vs)); dx == -s.x / 2.0 && dy == -s.y / 2.0 && dz == -s.z / 2.0
    ensures CenterOf(Bounds(TranslateAll(vs, dx, dy, dz))) == Origin
    ensures SizeOf(Bounds(TranslateAll(vs, dx, dy, dz))) == SizeOf(Bounds(vs))
  {
    BoundsTranslate(vs, dx, dy, dz);
    if |vs| == 0 {
      assert TranslateAll(vs, dx, dy, dz) == [];
    } else {
      HalfShiftCenters(Bounds(vs), dx, dy, dz);
    }
  }

  // ------------------------------------------------------------ class

  class TriangleMesh {
    var vertices: seq<Pointf3>
    var faces: seq<Face>
    var repaired: bool

    constructor(vertices: seq<Pointf3> := [], faces: seq<Face> := [])
      ensures this.vertices == vertices && this.faces == faces && !repaired
    {
      this.vertices := vertices;
      this.faces := faces;
      repaired := false;
    }

    /** clone(): a fresh mesh with the same vertices, faces and flag. */
    method Clone() returns (mesh: TriangleMesh)
      ensures fresh(mesh)
      ensures mesh.vertices == vertices && mesh.faces == faces && mesh.repaired == repaired
    {
      mesh := new TriangleMesh(vertices, faces);
      mesh.repaired := repaired;
    }

    /** swap(other): the two meshes exchange all three fields. */
    method Swap(other: TriangleMesh)
      modifies this, other
      ensures vertices == old(other.vertices) && faces == old(other.faces) && repaired == old(other.repaired)
      ensures other.vertices == old(vertices) && other.faces == old(faces) && other.repaired == old(repaired)
    {
      var tempVertices, tempFaces, tempRepaired := vertices, faces, repaired;
      vertices, faces, repaired := other.vertices, other.faces, other.repaired;
      other.vertices, other.faces, other.repaired := tempVertices, tempFaces, tempRepaired;
    }

    /** invalidateCache(): clears the repaired flag. */
    method InvalidateCache()
      modifies this
      ensures vertices == old(vertices) && faces == old(faces) && !repaired
    {
      repaired := false;
    }

    method Scale(factor: real)
      modifies this
      ensures vertices == ScaleAll(old(vertices), factor) && faces == old(faces) && !repaired
    {
      vertices := ScaleAll(vertices, factor);
      InvalidateCache();
    }

    method ScaleVector(factors: Pointf3)
      modifies this
      ensures vertices == ScaleVectorAll(old(vertices), factors) && faces == old(faces) && !repaired
    {
      vertices := ScaleVectorAll(vertices, factors);
      InvalidateCache();
    }

    method Translate(x: real, y: real, z: real)
      modifies this
      ensures vertices == TranslateAll(old(vertices), x, y, z) && faces == old(faces) && !repaired
    {
      vertices := TranslateAll(vertices, x, y, z);
      InvalidateCache();
    }

    method TranslateVector(vec: Pointf3)
      modifies this
      ensures vertices == TranslateAll(old(vertices), vec.x, vec.y, vec.z) && faces == old(faces) && !repaired
    {
      Translate(vec.x, vec.y, vec.z);
    }

    /** mirror(axis), with the vertex map corrected (see MirrorVerticesAsWritten); the winding is reversed. */
    method Mirror(axis: Matrices.Axis)
      modifies this
      ensures vertices == MirrorVertices(old(vertices), axis) && faces == ReverseFaces(old(faces)) && !repaired
    {
      vertices := MirrorVertices(vertices, axis);
      faces := ReverseFaces(faces);
      InvalidateCache();
    }

    method ReverseNormals()
      modifies this
      ensures vertices == old(vertices) && faces == ReverseFaces(old(faces)) && !repaired
    {
      faces := ReverseFaces(faces);
      InvalidateCache();
    }

    /** boundingBox(): one pass over the vertices folding Math.min and Math.max, from the first vertex. */
    method BoundingBox() returns (b: MeshBox)
      ensures b == Bounds(vertices)
    {
      if |vertices| == 0 {
        return MeshBox(Origin, Origin);
      }
      var min, max := vertices[0], vertices[0];
      for i := 0 to |vertices|
        invariant i == 0 ==> min == vertices[0] && max == vertices[0]
        invariant i > 0 ==> min == Bounds(vertices[..i]).min && max == Bounds(vertices[..i]).max
      {
        var vertex := vertices[i];
        assert vertices[..i + 1][..i] == vertices[..i];
        min := Pointf3(BoundingBoxes.Min(min.x, vertex.x), BoundingBoxes.Min(min.y, vertex.y), BoundingBoxes.Min(min.z, vertex.z));
        max := Pointf3(BoundingBoxes.Max(max.x, vertex.x), BoundingBoxes.Max(max.y, vertex.y), BoundingBoxes.Max(max.z, vertex.z));
      }
      assert vertices[..|vertices|] == vertices;
      b := MeshBox(min, max);
    }

    /** center(): the midpoint of the bounding box, which lies inside it. */
    function Center(): (r: Pointf3)
      reads this
      ensures BoundingBoxes.Inside3(Bounds(vertices).min, Bounds(vertices).max, r)
      ensures r == CenterOf(Bounds(vertices))
    {
      BoundsOrdered(vertices);
      CenterOf(Bounds(vertices))
    }

    /** size(): the extent of the bounding box, non-negative on every axis. */
    function Size(): (r: Pointf3)
      reads this
      ensures r.x >= 0.0 && r.y >= 0.0 && r.z >= 0.0
      ensures r == SizeOf(Bounds(vertices))
    {
      BoundsOrdered(vertices);
      SizeOf(Bounds(vertices))
    }

    method AlignToOrigin()
      modifies this
      ensures var m := Bounds(old(vertices)).min;
              vertices == TranslateAll(old(vertices), -m.x, -m.y, -m.z)
      ensures faces == old(faces) && !repaired
      ensures Bounds(vertices).min == Origin && SizeOf(Bounds(vertices)) == SizeOf(Bounds(old(vertices)))
    {
      var bbox := BoundingBox();
      AlignedToOrigin(vertices, -bbox.min.x, -bbox.min.y, -bbox.min.z);
      Translate(-bbox.min.x, -bbox.min.y, -bbox.min.z);
    }

    method CenterAroundOrigin()
      modifies this
      ensures var m, h := Bounds(old(vertices)).min, HalfBack(SizeOf(Bounds(old(vertices))));
              vertices == TranslateAll(TranslateAll(old(vertices), -m.x, -m.y, -m.z), h.x, h.y, h.z)
      ensures faces == old(faces) && !repaired
      ensures Center() == Origin && Size() == old(Size())
    {
      AlignToOrigin();
      ghost var aligned := vertices;
      var bbox := BoundingBox();
      var shift := HalfBack(SizeOf(bbox));
      HalfShiftedBounds(aligned, shift.x, shift.y, shift.z);
      Translate(shift.x, shift.y, shift.z);
    }

    method AlignToBed()
      modifies this
      ensures vertices == TranslateAll(old(vertices), 0.0, 0.0, -Bounds(old(vertices)).min.z)
      ensures faces == old(faces) && !repaired
      ensures Bounds(vertices).min.z == 0.0
    {
      AlignedToBed(vertices);
      var bbox := BoundingBox();
      Translate(0.0, 0.0, -bbox.min.z);
    }

    /** merge(mesh): the other mesh's vertices are appended and its faces appended with offset indices. */
    method Merge(mesh: TriangleMesh)
      modifies this
      ensures vertices == old(vertices) + old(mesh.vertices)
      ensures faces == old(faces) + OffsetFaces(old(mesh.faces), |old(vertices)|)
      ensures !repaired
    {
      var vertexCount := |vertices|;
      var otherFaces := mesh.faces;
      vertices := vertices + mesh.vertices;
      faces := faces + OffsetFaces(otherFaces, vertexCount);
      repaired := false;
      InvalidateCache();
    }

    /** repair(): a no-op on the geometry that sets the flag. */
    method Repair()
      modifies this
      ensures vertices == old(vertices) && faces == old(faces) && repaired
    {
      if repaired {
        return;
      }
      repaired := true;
    }

    /** makeCube(x, y, z): the cube mesh, marked repaired. */
    static method MakeCube(x: real, y: real, z: real) returns (mesh: TriangleMesh)
      ensures fresh(mesh)
      ensures mesh.vertices == CubeVertices(x, y, z) && mesh.faces == CubeFaces && mesh.repaired
    {
      mesh := new TriangleMesh(CubeVertices(x, y, z), CubeFaces);
      mesh.Repair();
    }
  }
}
