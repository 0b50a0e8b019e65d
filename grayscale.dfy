// The model-to-pixel mapping and fill-colour rule of src/export/toGrayscale.ts.

module Grayscale {
  /**
   * One model coordinate mapped to a pixel column (or row):
   * floor((x / originalExtent + 0.5) * pixels).
   */
  function ScaleCoord(x: real, originalExtent: real, pixels: int): (r: int)
    requires originalExtent != 0.0
  {
    ((x / originalExtent + 0.5) * pixels as real).Floor
  }

  /** floor is monotone. */
  lemma FloorMonotone(a: real, b: real)
    requires a <= b
    ensures a.Floor <= b.Floor
  {
  }

  /** The centre of the model, x = 0, lands on pixel floor(pixels / 2). */
  lemma ScaleCentre(originalExtent: real, pixels: int)
    requires originalExtent != 0.0
    ensures ScaleCoord(0.0, originalExtent, pixels) == pixels / 2
  {
    var h := pixels / 2;
    if pixels % 2 == 0 {
      assert 0.5 * pixels as real == h as real;
    } else {
      assert 0.5 * pixels as real == h as real + 0.5;
    }
  }

  /** Every x in [-extent/2, extent/2) lands on a pixel in [0, pixels). */
  lemma ScaleInRange(x: real, originalExtent: real, pixels: int)
    requires originalExtent > 0.0 && pixels > 0
    requires -originalExtent / 2.0 <= x < originalExtent / 2.0
    ensures 0 <= ScaleCoord(x, originalExtent, pixels) < pixels
  {
    var u := x / originalExtent + 0.5;
    assert x / originalExtent >= -0.5 by {
      assert x >= -0.5 * originalExtent;
    }
    assert x / originalExtent < 0.5 by {
      assert x < 0.5 * originalExtent;
    }
    assert 0.0 <= u < 1.0;
    var w := pixels as real;
    assert 0.0 <= u * w;
    assert u * w < w;
  }

  /** The mapping never reverses the order of two coordinates. */
  lemma ScaleMonotone(x1: real, x2: real, originalExtent: real, pixels: int)
    requires originalExtent > 0.0 && pixels >= 0
    requires x1 <= x2
    ensures ScaleCoord(x1, originalExtent, pixels) <= ScaleCoord(x2, originalExtent, pixels)
  {
    assert x1 / originalExtent <= x2 / originalExtent;
    var w := pixels as real;
    assert (x1 / originalExtent + 0.5) * w <= (x2 / originalExtent + 0.5) * w;
    FloorMonotone((x1 / originalExtent + 0.5) * w, (x2 / originalExtent + 0.5) * w);
  }

  /** The first polygon is drawn in the polygon colour, every other one in the background colour. */
  function FillColor(index: nat, backgroundColor: int := 0, polygonColor: int := 255): (c: int)
    ensures index == 0 ==> c == polygonColor
    ensures index != 0 ==> c == backgroundColor
  {
    if index == 0 then polygonColor else backgroundColor
  }

  /** The defaults: the first polygon is white (255) on a black (0) background. */
  lemma DefaultColors(index: nat)
    ensures FillColor(0) == 255
    ensures index > 0 ==> FillColor(index) == 0
  {
  }

  /** A polygon vertex, [x, y] in model units. */
  datatype Vertex = Vertex(x: real, y: real)

  /** One closed, filled canvas path: its grey level and its vertices in pixels. */
  datatype FillPath = FillPath(color: int, path: seq<(int, int)>)

  /** The pixel path of one polygon, vertex by vertex. */
  function PixelPath(polygon: seq<Vertex>, originalWidth: real, originalHeight: real,
                     width: int, height: int): (r: seq<(int, int)>)
    requires originalWidth != 0.0 && originalHeight != 0.0
    ensures |r| == |polygon|
    ensures forall k :: 0 <= k < |polygon| ==>
      r[k] == (ScaleCoord(polygon[k].x, originalWidth, width), ScaleCoord(polygon[k].y, originalHeight, height))
  {
    seq(|polygon|, k requires 0 <= k < |polygon| =>
      (ScaleCoord(polygon[k].x, originalWidth, width), ScaleCoord(polygon[k].y, originalHeight, height)))
  }

  /** The inner loop of polygonsToGrayscale: each vertex scaled to pixels, in order. */
  method TracePolygon(polygon: seq<Vertex>, originalWidth: real, originalHeight: real,
                      width: int, height: int) returns (path: seq<(int, int)>)
    requires originalWidth != 0.0 && originalHeight != 0.0
    ensures path == PixelPath(polygon, originalWidth, originalHeight, width, height)
  {
    path := [];
    for k := 0 to |polygon|
      invariant |path| == k
      invariant forall m :: 0 <= m < k ==>
        path[m] == (ScaleCoord(polygon[m].x, originalWidth, width), ScaleCoord(polygon[m].y, originalHeight, height))
    {
      var scaledX := ScaleCoord(polygon[k].x, originalWidth, width);
      var scaledY := ScaleCoord(polygon[k].y, originalHeight, height);
      path := path + [(scaledX, scaledY)];
    }
  }

  /**
   * polygonsToGrayscale with the canvas replaced by the list of paths it
   * fills: the whole canvas first gets the background colour, then each
   * polygon is filled, in order, with FillColor of its index.
   */
  method PolygonsToGrayscale(polygons: seq<seq<Vertex>>, originalWidth: real, originalHeight: real,
                             width: int, height: int, backgroundColor: int := 0, polygonColor: int := 255)
    returns (background: int, fills: seq<FillPath>)
    requires originalWidth != 0.0 && originalHeight != 0.0
    ensures background == backgroundColor
    ensures |fills| == |polygons|
    ensures forall i :: 0 <= i < |polygons| ==>
      fills[i] == FillPath(FillColor(i, backgroundColor, polygonColor),
                           PixelPath(polygons[i], originalWidth, originalHeight, width, height))
  {
    background := backgroundColor;
    fills := [];
    for i := 0 to |polygons|
      invariant |fills| == i
      invariant forall j :: 0 <= j < i ==>
        fills[j] == FillPath(FillColor(j, backgroundColor, polygonColor),
                             PixelPath(polygons[j], originalWidth, originalHeight, width, height))
    {
      var color := if i == 0 then polygonColor else backgroundColor;
      var path := TracePolygon(polygons[i], originalWidth, originalHeight, width, height);
      fills := fills + [FillPath(color, path)];
    }
  }
}
