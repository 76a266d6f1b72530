/**
 The raster the smoke suite draws its product images on (scripts/smoke/images.py, `Canvas`):
 a growable byte buffer written by slice assignment, and what each drawing call does to the
 picture it holds. Coordinates of an ellipse are exact rationals here, not floating point.
 */
module Canvases {
  import opened RealArithmetic

  type Byte = b: int | 0 <= b < 256

  datatype RGB = RGB(r: Byte, g: Byte, b: Byte)

  function BytesOf(c: RGB): seq<Byte> {
    [c.r, c.g, c.b]
  }

  /** `bytes(color) * n` */
  function Repeat(c: RGB, n: nat): (s: seq<Byte>)
    ensures |s| == 3 * n
  {
    if n == 0 then [] else BytesOf(c) + Repeat(c, n - 1)
  }

  /** The i-th triple of bytes, as a colour. */
  function Triple(s: seq<Byte>, i: nat): RGB
    requires 3 * i + 2 < |s|
  {
    RGB(s[3 * i], s[3 * i + 1], s[3 * i + 2])
  }

  lemma {:induction false} RepeatTriple(c: RGB, n: nat, i: nat)
    requires i < n
    ensures Triple(Repeat(c, n), i) == c
  {
    if i > 0 {
      RepeatTriple(c, n - 1, i - 1);
      assert Repeat(c, n)[3..] == Repeat(c, n - 1);
      assert Repeat(c, n)[3..][3 * (i - 1)] == Repeat(c, n)[3 * i];
    }
  }

  /**
   `buffer[lo:hi] = bytes`: the slice bounds are clamped to the buffer, and the buffer takes the length
   that results.
   */
  function Splice(s: seq<Byte>, lo: nat, hi: nat, bytes: seq<Byte>): seq<Byte> {
    var l := if lo < |s| then lo else |s|;
    var h := if hi < l then l else if hi < |s| then hi else |s|;
    s[..l] + bytes + s[h..]
  }

  // ----- Pixels -----

  predicate Inside(w: nat, h: nat, x: int, y: int) {
    0 <= x < w && 0 <= y < h
  }

  function Cell(w: nat, x: nat, y: nat): nat {
    y * w + x
  }

  lemma RowsApart(w: nat, x: nat, y: nat, y': nat)
    requires x < w && y < y'
    ensures Cell(w, x, y) + 1 <= Cell(w, 0, y')
  {
    assert y * w + w == (y + 1) * w <= y' * w;
  }

  lemma CellBound(w: nat, h: nat, x: nat, y: nat)
    requires Inside(w, h, x, y)
    ensures Cell(w, x, y) + 1 <= w * h
  {
    RowsApart(w, x, y, h);
  }

  ghost predicate Sized(s: seq<Byte>, w: nat, h: nat) {
    |s| == 3 * (w * h)
  }

  function PixelAt(s: seq<Byte>, w: nat, h: nat, x: int, y: int): RGB
    requires Sized(s, w, h) && Inside(w, h, x, y)
  {
    CellBound(w, h, x, y);
    Triple(s, Cell(w, x, y))
  }

  /** Overwriting `count` triples from triple `start` on, as one slice assignment. */
  lemma SpliceTriple(s: seq<Byte>, start: nat, count: nat, c: RGB, i: nat)
    requires 3 * start + 3 * count <= |s| && 3 * i + 2 < |s|
    ensures var s' := Splice(s, 3 * start, 3 * start + 3 * count, Repeat(c, count));
            |s'| == |s| && Triple(s', i) == if start <= i < start + count then c else Triple(s, i)
  {
    var lo, hi := 3 * start, 3 * start + 3 * count;
    var s' := s[..lo] + Repeat(c, count) + s[hi..];
    if start <= i < start + count {
      RepeatTriple(c, count, i - start);
      assert s'[lo..hi] == Repeat(c, count);
      assert s'[3 * i] == s'[lo..hi][3 * (i - start)];
      assert s'[3 * i + 1] == s'[lo..hi][3 * (i - start) + 1];
      assert s'[3 * i + 2] == s'[lo..hi][3 * (i - start) + 2];
    }
  }

  lemma RowEnd(w: nat, h: nat, y: nat)
    requires y < h
    ensures Cell(w, 0, y) + w <= w * h
  {
    assert y * w + w == (y + 1) * w <= h * w;
  }

  /** The pixels in a stretch of one row, as cells. */
  lemma RowCells(w: nat, y: nat, lo: nat, count: nat, X: nat, Y: nat)
    requires lo + count <= w && X < w
    ensures Cell(w, lo, y) <= Cell(w, X, Y) < Cell(w, lo, y) + count <==> Y == y && lo <= X < lo + count
  {
    if Y < y { RowsApart(w, X, Y, y); }
    if Y > y && w > 0 { RowsApart(w, w - 1, y, Y); }
  }

  /** Filling `count` pixels of row y from x = lo on by one slice assignment changes exactly those pixels. */
  lemma FillRow(s: seq<Byte>, w: nat, h: nat, y: nat, lo: nat, count: nat, c: RGB, s': seq<Byte>)
    requires Sized(s, w, h) && y < h && lo + count <= w
    requires s' == Splice(s, 3 * Cell(w, lo, y), 3 * Cell(w, lo, y) + 3 * count, Repeat(c, count))
    ensures Sized(s', w, h)
    ensures forall X, Y | Inside(w, h, X, Y) ::
              PixelAt(s', w, h, X, Y) == if Y == y && lo <= X < lo + count then c else PixelAt(s, w, h, X, Y)
  {
    RowEnd(w, h, y);
    var start := Cell(w, lo, y);
    if w > 0 { SpliceTriple(s, start, count, c, 0); }
    forall X, Y | Inside(w, h, X, Y)
      ensures Sized(s', w, h) && PixelAt(s', w, h, X, Y) == if Y == y && lo <= X < lo + count then c else PixelAt(s, w, h, X, Y)
    {
      CellBound(w, h, X, Y);
      RowCells(w, y, lo, count, X, Y);
      SpliceTriple(s, start, count, c, Cell(w, X, Y));
    }
  }

  /** Part of a shape has been painted: the points of it that `done` names. */
  ghost predicate PartlyPainted(before: seq<Byte>, after: seq<Byte>, w: nat, h: nat, shape: Shape, upTo: int, c: RGB) {
    && Sized(before, w, h) && Sized(after, w, h)
    && forall X, Y | Inside(w, h, X, Y) ::
         PixelAt(after, w, h, X, Y) == if Covers(shape, X, Y) && Y < upTo then c else PixelAt(before, w, h, X, Y)
  }

  /** One more row of a rectangle. */
  lemma RectRow(before: seq<Byte>, after: seq<Byte>, w: nat, h: nat, x0: int, y0: int, x1: int, y1: int, y: nat, left: nat, count: int, c: RGB)
    requires PartlyPainted(before, after, w, h, Rect(x0, y0, x1, y1), y, c) && y0 <= y < y1 && y < h
    requires left == (if x0 > 0 then x0 else 0) && count == (if x1 < w then x1 else w) - left
    ensures count <= 0 ==> PartlyPainted(before, after, w, h, Rect(x0, y0, x1, y1), y + 1, c)
    ensures count > 0 ==> PartlyPainted(before, Splice(after, 3 * Cell(w, left, y), 3 * Cell(w, left, y) + 3 * count, Repeat(c, count)),
                                        w, h, Rect(x0, y0, x1, y1), y + 1, c)
  {
    if count > 0 {
      FillRow(after, w, h, y, left, count, c, Splice(after, 3 * Cell(w, left, y), 3 * Cell(w, left, y) + 3 * count, Repeat(c, count)));
    }
  }

  // ----- Shapes -----

  datatype Shape = Rect(x0: int, y0: int, x1: int, y1: int) | Ellipse(x0: int, y0: int, x1: int, y1: int)

  function HalfAxis(a: int, b: int): real {
    var half := (b - a) as real / 2.0;
    if half < 0.5 then 0.5 else half
  }

  function Centre(a: int, b: int): real {
    (a + b) as real / 2.0
  }

  /** The signed distance from the centre, in half axes. */
  function Offset(a: int, b: int, v: int): real {
    (v as real - Centre(a, b)) / HalfAxis(a, b)
  }

  predicate InCurve(x0: int, y0: int, x1: int, y1: int, x: int, y: int) {
    Offset(x0, x1, x) * Offset(x0, x1, x) + Offset(y0, y1, y) * Offset(y0, y1, y) <= 1.0
  }

  /** The pixels a drawing call is meant to colour, before clipping to the canvas. */
  predicate Covers(s: Shape, x: int, y: int) {
    match s
    case Rect(x0, y0, x1, y1) => x0 <= x < x1 && y0 <= y < y1
    case Ellipse(x0, y0, x1, y1) => x0 <= x <= x1 && y0 <= y <= y1 && InCurve(x0, y0, x1, y1, x, y)
  }

  function AtLeastOne(n: int): int {
    if n < 1 then 1 else n
  }

  /** Half axes of half the box, or of half a pixel if the box is narrower. */
  lemma OffsetIsRatio(a: int, b: int, v: int)
    ensures Offset(a, b, v) == (2 * v - a - b) as real / AtLeastOne(b - a) as real
  {
    var n := AtLeastOne(b - a) as real;
    assert HalfAxis(a, b) == n / 2.0;
    HalvesCancel((2 * v - a - b) as real, n);
  }

  lemma HalvesCancel(p: real, n: real)
    requires n > 0.0
    ensures (p / 2.0) / (n / 2.0) == p / n
  {
    assert (p / n) * (n / 2.0) == p / 2.0;
  }

  lemma PositiveProduct(a: real, b: real) returns (m: real)
    requires a > 0.0 && b > 0.0
    ensures m == a * b && m > 0.0
  {
    m := a * b;
    MulLt(a, 0.0, b);
  }

  lemma BelowOne(s: real, m: real)
    requires m > 0.0
    ensures s <= 1.0 <==> Product(m, s) <= m
  {
    MulLt(m, 1.0, s);
  }

  function Square(x: real): real {
    x * x
  }

  lemma SquareScales(u: real, n: real)
    ensures Square(u * n) == Product(Square(n), Square(u))
  {
  }

  lemma UnitScaled(u: real, v: real, n: real)
    requires n > 0.0
    ensures Square(u) + Square(v) <= 1.0 <==> Square(u * n) + Square(v * n) <= Square(n)
  {
    var m := PositiveProduct(n, n);
    assert Square(n) == m;
    SquareScales(u, n);
    SquareScales(v, n);
    Distribute(m, Square(u), Square(v));
    BelowOne(Square(u) + Square(v), m);
  }

  lemma UnitSquares(p: real, q: real, a: real, b: real)
    requires a > 0.0 && b > 0.0
    ensures Square(p / a) + Square(q / b) <= 1.0 <==> Square(p * b) + Square(q * a) <= Square(a * b)
  {
    var n := PositiveProduct(a, b);
    UnitScaled(p / a, q / b, n);
    Across(p, a, b);
    Across(q, b, a);
    assert (p / a) * n == p * b && (q / b) * n == q * a;
  }

  lemma Across(p: real, a: real, b: real)
    requires a > 0.0
    ensures (p / a) * (a * b) == p * b
  {
    assert (p / a) * a == p;
  }

  /** The curve without fractions, for a point p and q from the centre (in half pixels) and axes a and b. */
  predicate WithinAxes(p: real, q: real, a: real, b: real) {
    Square(p * b) + Square(q * a) <= Square(a * b)
  }

  lemma RatiosWithin(u: real, v: real, p: real, q: real, a: real, b: real)
    requires a > 0.0 && b > 0.0 && u == p / a && v == q / b
    ensures u * u + v * v <= 1.0 <==> WithinAxes(p, q, a, b)
  {
    UnitSquares(p, q, a, b);
    assert Square(u) + Square(v) == u * u + v * v;
  }

  /** The axes are those of the box, or of one pixel if it is narrower. */
  lemma CurveIsEllipse(x0: int, y0: int, x1: int, y1: int, x: int, y: int)
    ensures InCurve(x0, y0, x1, y1, x, y)
       <==> WithinAxes((2 * x - x0 - x1) as real, (2 * y - y0 - y1) as real,
                       (if x1 - x0 < 1 then 1 else x1 - x0) as real, (if y1 - y0 < 1 then 1 else y1 - y0) as real)
  {
    OffsetIsRatio(x0, x1, x);
    OffsetIsRatio(y0, y1, y);
    RatiosWithin(Offset(x0, x1, x), Offset(y0, y1, y), (2 * x - x0 - x1) as real, (2 * y - y0 - y1) as real,
                 AtLeastOne(x1 - x0) as real, AtLeastOne(y1 - y0) as real);
  }

  lemma SquareBound(v: real)
    ensures v * v >= 0.0
    ensures v * v <= 1.0 ==> -1.0 <= v <= 1.0
  {
    if v > 1.0 { assert v * v > 1.0 * v; }
    if v < -1.0 { assert (-v) * (-v) > 1.0 * (-v); }
  }

  lemma ScaleBound(q: real, r: real)
    requires -1.0 <= q <= 1.0 && r > 0.0
    ensures -r <= q * r <= r
  {
    assert (1.0 - q) * r >= 0.0 && (1.0 + q) * r >= 0.0;
  }

  lemma OffsetInRange(a: int, b: int, v: int)
    requires a <= b && -1.0 <= Offset(a, b, v) <= 1.0
    ensures a <= v <= b
  {
    ScaleBound(Offset(a, b, v), HalfAxis(a, b));
    assert v as real - Centre(a, b) == Offset(a, b, v) * HalfAxis(a, b);
  }

  /**
   For a box given with its corners in order the ellipse is its curve alone; the bounding box of the
   loops never cuts it.
   */
  lemma EllipseIsItsCurve(x0: int, y0: int, x1: int, y1: int, x: int, y: int)
    requires x0 <= x1 && y0 <= y1
    ensures Covers(Ellipse(x0, y0, x1, y1), x, y) <==> InCurve(x0, y0, x1, y1, x, y)
  {
    if InCurve(x0, y0, x1, y1, x, y) {
      var dx, dy := Offset(x0, x1, x), Offset(y0, y1, y);
      SquareBound(dx);
      SquareBound(dy);
      OffsetInRange(x0, x1, x);
      OffsetInRange(y0, y1, y);
    }
  }

  lemma OffsetMirror(a: int, b: int, v: int)
    ensures Offset(a, b, a + b - v) == -Offset(a, b, v)
  {
    var r := HalfAxis(a, b);
    var d := v as real - Centre(a, b);
    assert (a + b - v) as real - Centre(a, b) == -d;
  }

  /** An ellipse is its own mirror image in both axes. */
  lemma EllipseSymmetric(x0: int, y0: int, x1: int, y1: int, x: int, y: int)
    ensures Covers(Ellipse(x0, y0, x1, y1), x, y) <==> Covers(Ellipse(x0, y0, x1, y1), x0 + x1 - x, y)
    ensures Covers(Ellipse(x0, y0, x1, y1), x, y) <==> Covers(Ellipse(x0, y0, x1, y1), x, y0 + y1 - y)
  {
    OffsetMirror(x0, x1, x);
    OffsetMirror(y0, y1, y);
    NegatedSquare(Offset(x0, x1, x));
    NegatedSquare(Offset(y0, y1, y));
  }

  lemma NegatedSquare(v: real)
    ensures (-v) * (-v) == v * v
  {
  }

  /** The points of a box that pass a test. */
  datatype Region = Region(left: int, top: int, right: int, bottom: int, test: (int, int) -> bool) {
    predicate Has(x: int, y: int) {
      left <= x < right && top <= y < bottom && test(x, y)
    }
  }

  /** A region painted up to a point, in the order of the two loops. */
  ghost predicate Swept(before: seq<Byte>, after: seq<Byte>, w: nat, h: nat, region: Region, x: int, y: int, c: RGB) {
    && Sized(before, w, h) && Sized(after, w, h)
    && forall X, Y | Inside(w, h, X, Y) ::
         PixelAt(after, w, h, X, Y) == if region.Has(X, Y) && (Y < y || (Y == y && X < x)) then c else PixelAt(before, w, h, X, Y)
  }

  /** One point further along a row. */
  lemma SweepPoint(before: seq<Byte>, mid: seq<Byte>, after: seq<Byte>, w: nat, h: nat, region: Region, x: int, y: int, c: RGB)
    requires Swept(before, mid, w, h, region, x, y, c) && Inside(w, h, x, y) && Sized(after, w, h)
    requires if region.Has(x, y)
             then forall X, Y | Inside(w, h, X, Y) :: PixelAt(after, w, h, X, Y) == if X == x && Y == y then c else PixelAt(mid, w, h, X, Y)
             else after == mid
    ensures Swept(before, after, w, h, region, x + 1, y, c)
  {
  }

  /** From the end of one row to the start of the next. */
  lemma SweepRow(before: seq<Byte>, after: seq<Byte>, w: nat, h: nat, region: Region, x: int, y: int, c: RGB)
    requires Swept(before, after, w, h, region, x, y, c) && x >= region.right
    ensures Swept(before, after, w, h, region, region.left, y + 1, c)
  {
  }

  datatype Stroke = Stroke(shape: Shape, color: RGB)

  /** The painter's model: the last stroke that covers a point shows there. */
  function Painted(strokes: seq<Stroke>, x: int, y: int, under: RGB): RGB {
    if strokes == [] then under
    else
      var last := strokes[|strokes| - 1];
      if Covers(last.shape, x, y) then last.color else Painted(strokes[..|strokes| - 1], x, y, under)
  }

  /** Stroke i covers the point and none after it does. */
  ghost predicate OnTop(strokes: seq<Stroke>, x: int, y: int, i: nat) {
    && i < |strokes| && Covers(strokes[i].shape, x, y)
    && forall j :: i < j < |strokes| ==> !Covers(strokes[j].shape, x, y)
  }

  ghost predicate Bare(strokes: seq<Stroke>, x: int, y: int) {
    forall i :: 0 <= i < |strokes| ==> !Covers(strokes[i].shape, x, y)
  }

  /**
   What shows at a point: the background if no stroke covers it, otherwise the colour of the covering
   stroke with no covering stroke after it.
   */
  lemma {:induction false} TopmostStrokeShows(strokes: seq<Stroke>, x: int, y: int, under: RGB)
    ensures Bare(strokes, x, y) ==> Painted(strokes, x, y, under) == under
    ensures !Bare(strokes, x, y) ==> exists i: nat :: OnTop(strokes, x, y, i) && Painted(strokes, x, y, under) == strokes[i].color
  {
    if strokes != [] {
      var n := |strokes| - 1;
      var init := strokes[..n];
      assert forall i :: 0 <= i < n ==> strokes[i] == init[i];
      if Covers(strokes[n].shape, x, y) {
        assert OnTop(strokes, x, y, n);
      } else {
        TopmostStrokeShows(init, x, y, under);
        if !Bare(init, x, y) {
          var i: nat :| OnTop(init, x, y, i) && Painted(init, x, y, under) == init[i].color;
          assert OnTop(strokes, x, y, i);
        }
      }
    }
  }

  class Canvas {
    const width: nat
    const height: nat
    var pixels: seq<Byte>

    ghost predicate Valid()
      reads this
    {
      Sized(pixels, width, height)
    }

    ghost function Pixel(x: int, y: int): RGB
      requires Valid() && Inside(width, height, x, y)
      reads this
    {
      PixelAt(pixels, width, height, x, y)
    }

    constructor (width: nat, height: nat, background: RGB)
      ensures this.width == width && this.height == height && Valid()
      ensures forall x, y | Inside(width, height, x, y) :: Pixel(x, y) == background
    {
      this.width, this.height := width, height;
      pixels := Repeat(background, width * height);
      new;
      forall x, y | Inside(width, height, x, y) ensures Pixel(x, y) == background {
        CellBound(width, height, x, y);
        RepeatTriple(background, width * height, Cell(width, x, y));
      }
    }

    method Set(x: int, y: int, color: RGB)
      requires Valid() && Inside(width, height, x, y)
      modifies this
      ensures Valid()
      ensures forall X, Y | Inside(width, height, X, Y) ::
                Pixel(X, Y) == if X == x && Y == y then color else old(Pixel(X, Y))
    {
      var offset := (y * width + x) * 3;
      assert Repeat(color, 1) == BytesOf(color) + Repeat(color, 0) == BytesOf(color);
      ghost var before := pixels;
      pixels := Splice(pixels, offset, offset + 3, BytesOf(color));
      FillRow(before, width, height, y, x, 1, color, pixels);
    }

    method Rectangle(x0: int, y0: int, x1: int, y1: int, color: RGB)
      requires Valid()
      modifies this
      ensures Valid()
      ensures forall x, y | Inside(width, height, x, y) ::
                Pixel(x, y) == if Covers(Rect(x0, y0, x1, y1), x, y) then color else old(Pixel(x, y))
    {
      var left := if x0 > 0 then x0 else 0;
      var count := (if x1 < width then x1 else width) - left;
      var top := if y0 > 0 then y0 else 0;
      var bottom := if y1 < height then y1 else height;
      var y := top;
      ghost var before := pixels;
      while y < bottom
        invariant top <= y && PartlyPainted(before, pixels, width, height, Rect(x0, y0, x1, y1), y, color)
      {
        var start := (y * width + left) * 3;
        RectRow(before, pixels, width, height, x0, y0, x1, y1, y, left, count, color);
        if count > 0 {
          pixels := Splice(pixels, start, start + count * 3, Repeat(color, count));
        }
        y := y + 1;
      }
    }

    /** The double loop over a box within the canvas. */
    method Sweep(region: Region, color: RGB)
      requires Valid() && 0 <= region.left && 0 <= region.top && region.right <= width && region.bottom <= height
      modifies this
      ensures Valid()
      ensures forall x, y | Inside(width, height, x, y) :: Pixel(x, y) == if region.Has(x, y) then color else old(Pixel(x, y))
    {
      ghost var before := pixels;
      var y := region.top;
      while y < region.bottom
        invariant region.top <= y && Swept(before, pixels, width, height, region, region.left, y, color)
      {
        var x := region.left;
        while x < region.right
          invariant region.left <= x && Swept(before, pixels, width, height, region, x, y, color)
        {
          ghost var mid := pixels;
          if region.test(x, y) {
            Set(x, y, color);
          }
          SweepPoint(before, mid, pixels, width, height, region, x, y, color);
          x := x + 1;
        }
        SweepRow(before, pixels, width, height, region, x, y, color);
        y := y + 1;
      }
    }

    method FillEllipse(x0: int, y0: int, x1: int, y1: int, color: RGB)
      requires Valid()
      modifies this
      ensures Valid()
      ensures forall x, y | Inside(width, height, x, y) ::
                Pixel(x, y) == if Covers(Ellipse(x0, y0, x1, y1), x, y) then color else old(Pixel(x, y))
    {
      var top := if y0 > 0 then y0 else 0;
      var bottom := if y1 + 1 < height then y1 + 1 else height;
      var left := if x0 > 0 then x0 else 0;
      var right := if x1 + 1 < width then x1 + 1 else width;
      Sweep(Region(left, top, right, bottom, (x, y) => InCurve(x0, y0, x1, y1, x, y)), color);
    }

    /** A drawing is a sequence of calls; what it leaves is the painter's model over what was there. */
    method Draw(strokes: seq<Stroke>)
      requires Valid()
      modifies this
      ensures Valid()
      ensures forall x, y | Inside(width, height, x, y) :: Pixel(x, y) == Painted(strokes, x, y, old(Pixel(x, y)))
    {
      for i := 0 to |strokes|
        invariant Valid()
        invariant forall x, y | Inside(width, height, x, y) :: Pixel(x, y) == Painted(strokes[..i], x, y, old(Pixel(x, y)))
      {
        assert strokes[..i + 1][..i] == strokes[..i];
        match strokes[i].shape
        case Rect(x0, y0, x1, y1) => Rectangle(x0, y0, x1, y1, strokes[i].color);
        case Ellipse(x0, y0, x1, y1) => FillEllipse(x0, y0, x1, y1, strokes[i].color);
      }
      assert strokes[..|strokes|] == strokes;
    }
  }
}
