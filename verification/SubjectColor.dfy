/**
 Colour and size arithmetic on product images (backend/app/utils/image.py): the border median,
 the pixels that differ from it, the dominant colour and the brightness of those, hues on a
 circle, and the size an image is scaled to. Decoding and resampling are not part of this
 model; a thumbnail is a square grid of pixels. Arithmetic is exact.
 */
module SubjectColors {
  import opened Canvases
  import opened RealArithmetic
  import opened StableSort

  // ----- Rounding: ties to even -----

  function Round(x: real): (n: int)
    ensures n as real - 0.5 <= x <= n as real + 0.5
    ensures x == n as real + 0.5 || x == n as real - 0.5 ==> n % 2 == 0
  {
    var f := x.Floor;
    var d := x - f as real;
    if d < 0.5 || (d == 0.5 && f % 2 == 0) then f else f + 1
  }

  // ----- Resizing -----

  function MaxInt(a: int, b: int): int {
    if a > b then a else b
  }

  function MinReal(a: real, b: real): real {
    if b < a then b else a
  }

  function NewSize(w: nat, h: nat, limit: nat): (int, int)
    requires w > 0 && h > 0
  {
    if w <= limit && h <= limit then (w, h)
    else
      (ScaledSide(w, Scale(w, h, limit)), ScaledSide(h, Scale(w, h, limit)))
  }

  function ScaledSide(side: nat, scale: real): int {
    MaxInt(1, Round(Product(side as real, scale)))
  }

  function Scale(w: nat, h: nat, limit: nat): real
    requires w > 0 && h > 0
  {
    MinReal(limit as real / w as real, limit as real / h as real)
  }

  lemma RoundedSide(x: real, side: nat, limit: nat)
    requires side > 0 && limit > 0 && 0.0 <= x <= limit as real && x <= side as real
    ensures var n := MaxInt(1, Round(x)); 1 <= n <= limit && n <= side && (x == limit as real ==> n == limit)
  {
  }

  lemma TimesBelow(s: real, scale: real, q: real, limit: real)
    requires s > 0.0 && 0.0 <= scale <= q && scale <= 1.0 && Product(s, q) == limit
    ensures 0.0 <= Product(s, scale) <= limit && Product(s, scale) <= s
    ensures scale == q ==> Product(s, scale) == limit
  {
    MulLe(s, 0.0, scale);
    MulLe(s, scale, q);
    MulLe(s, scale, 1.0);
  }

  lemma TimesQuotient(s: real, limit: real)
    requires s > 0.0
    ensures Product(s, limit / s) == limit
  {
    DivMul(limit, s);
  }

  /** A side scaled by no more than what brings it to the limit. */
  lemma SideFits(side: nat, limit: nat, scale: real)
    requires side > 0 && limit > 0 && 0.0 <= scale <= limit as real / side as real && scale <= 1.0
    ensures var n := ScaledSide(side, scale);
            1 <= n <= limit && n <= side && (scale == limit as real / side as real ==> n == limit)
  {
    TimesQuotient(side as real, limit as real);
    TimesBelow(side as real, scale, limit as real / side as real, limit as real);
    RoundedSide(Product(side as real, scale), side, limit);
  }

  /** A side is scaled as the longer one is, to the nearest whole number, but not below 1. */
  predicate InProportion(side: nat, longer: nat, limit: nat, scaled: int) {
    || -(longer as int) <= 2 * (scaled * longer - side * limit) <= longer
    || (scaled == 1 && 2 * (side * limit) <= longer)
  }

  lemma WholeProduct(a: int, b: int)
    ensures Product(a as real, b as real) == (a * b) as real
  {
  }

  lemma ProductLe(s: real, a: real, b: real)
    requires s >= 0.0 && a <= b
    ensures Product(s, a) <= Product(s, b)
  {
    MulLe(s, a, b);
  }

  lemma ProductNear(n: real, x: real, r: real)
    requires n > 0.0 && r - 0.5 <= x <= r + 0.5
    ensures 2.0 * Product(n, x) - n <= 2.0 * Product(n, r) <= 2.0 * Product(n, x) + n
  {
    ProductLe(n, r, x + 0.5);
    ProductLe(n, x + -0.5, r);
    Distribute(n, x, 0.5);
    Distribute(n, x, -0.5);
    assert Product(n, 0.5) == 0.5 * n && Product(n, -0.5) == -0.5 * n;
  }

  /** A product rounded is off by no more than half. */
  lemma RoundedProduct(x: real, n: nat, whole: nat)
    requires n > 0 && Product(n as real, x) == whole as real
    ensures -(n as int) <= 2 * (Round(x) * n - whole) <= n
  {
    ProductNear(n as real, x, Round(x) as real);
    WholeProduct(n, Round(x));
  }

  lemma ScaledInProportion(side: nat, longer: nat, limit: nat)
    requires longer > 0
    ensures InProportion(side, longer, limit, ScaledSide(side, limit as real / longer as real))
  {
    var x := Product(side as real, limit as real / longer as real);
    ProductOfQuotient(side as real, limit as real, longer as real);
    WholeProduct(side, limit);
    RoundedProduct(x, longer, side * limit);
    if Round(x) < 1 { AtMostHalf(Round(x), longer, side * limit); }
  }

  /** What is rounded to nothing is at most a half. */
  lemma AtMostHalf(r: int, n: nat, whole: nat)
    requires r < 1 && 2 * (r * n - whole) >= -(n as int)
    ensures 2 * whole <= n
  {
    assert r * n <= 0;
  }

  lemma ProductOfQuotient(a: real, b: real, n: real)
    requires n > 0.0
    ensures Product(n, Product(a, b / n)) == Product(a, b)
  {
    DivMul(b, n);
    assert n * (a * (b / n)) == a * (n * (b / n));
  }

  /** Both sides keep their proportion to the longer one. */
  lemma AspectKept(w: nat, h: nat, limit: nat)
    requires w > 0 && h > 0 && (w > limit || h > limit)
    ensures var (a, b) := NewSize(w, h, limit); var longer := if w >= h then w else h;
            InProportion(w, longer, limit, a) && InProportion(h, longer, limit, b)
  {
    ScaleBounds(w, h, limit);
    var longer := if w >= h then w else h;
    ScaledInProportion(w, longer, limit);
    ScaledInProportion(h, longer, limit);
  }

  /**
   The sides stay between 1 and the limit, nothing is enlarged, and an image that does not fit ends up
   with its longer side at the limit.
   */
  lemma ResizedFits(w: nat, h: nat, limit: nat)
    requires w > 0 && h > 0 && limit > 0
    ensures var (a, b) := NewSize(w, h, limit);
            && 1 <= a <= limit && 1 <= b <= limit && a <= w && b <= h
            && ((a, b) == (w, h) <==> w <= limit && h <= limit)
            && (w > limit || h > limit ==> (w >= h ==> a == limit) && (h >= w ==> b == limit))
  {
    if w > limit || h > limit {
      var scale := Scale(w, h, limit);
      ScaleBounds(w, h, limit);
      SideFits(w, limit, scale);
      SideFits(h, limit, scale);
    }
  }

  lemma ScaleBounds(w: nat, h: nat, limit: nat)
    requires w > 0 && h > 0
    ensures var s := Scale(w, h, limit);
            && 0.0 <= s <= limit as real / w as real && s <= limit as real / h as real
            && (w >= h ==> s == limit as real / w as real) && (h >= w ==> s == limit as real / h as real)
            && (w >= limit || h >= limit ==> s <= 1.0)
  {
    if w >= h { DivLe(limit as real, w as real, h as real); }
    if h >= w { DivLe(limit as real, h as real, w as real); }
  }

  // ----- Hues -----

  function Abs(x: real): real {
    if x < 0.0 then -x else x
  }

  /** `x % 360` for x >= 0 */
  function Mod360(x: real): (m: real)
    ensures 0.0 <= m < 360.0
  {
    var k := (x / 360.0).Floor;
    x - 360.0 * k as real
  }

  function HueDistance(a: real, b: real): real {
    var delta := Mod360(Abs(a - b));
    MinReal(delta, 360.0 - delta)
  }

  /** How far a is from b when b is taken k turns on. */
  function Apart(a: real, b: real, k: int): real {
    Abs(a - b - 360.0 * k as real)
  }

  /** The distance is to the nearest of all the turns of b. */
  lemma NearestTurn(a: real, b: real)
    ensures exists k: int :: HueDistance(a, b) == Apart(a, b, k)
    ensures forall k: int :: HueDistance(a, b) <= Apart(a, b, k)
    ensures 0.0 <= HueDistance(a, b) <= 180.0
  {
    var d := Abs(a - b);
    var q := (d / 360.0).Floor;
    var delta := Mod360(d);
    assert d == delta + 360.0 * q as real;
    var turns := if delta <= 180.0 then q else q + 1;
    var k := if a - b >= 0.0 then turns else -turns;
    assert HueDistance(a, b) == Apart(a, b, k);
    forall j: int ensures HueDistance(a, b) <= Apart(a, b, j) {
      var t := if a - b >= 0.0 then q - j else q + j;
      assert Apart(a, b, j) == Abs(delta + 360.0 * t as real);
      assert t >= 0 ==> delta + 360.0 * t as real >= delta;
      assert t <= -1 ==> delta + 360.0 * t as real <= delta - 360.0;
    }
  }

  /**
   A metric on the circle: symmetric, at most half a turn, zero exactly for equal hues up to turns, and
   no detour is shorter.
   */
  lemma HueMetric(a: real, b: real, c: real)
    ensures HueDistance(a, b) == HueDistance(b, a)
    ensures 0.0 <= HueDistance(a, b) <= 180.0
    ensures HueDistance(a, c) <= HueDistance(a, b) + HueDistance(b, c)
    ensures HueDistance(a, b) == 0.0 <==> exists k: int :: Apart(a, b, k) == 0.0
  {
    NearestTurn(a, b);
    NearestTurn(b, c);
    NearestTurn(a, c);
    var k: int :| HueDistance(a, b) == Apart(a, b, k);
    var j: int :| HueDistance(b, c) == Apart(b, c, j);
    assert 360.0 * (k + j) as real == 360.0 * k as real + 360.0 * j as real;
    assert HueDistance(a, c) <= Apart(a, c, k + j);
  }

  datatype NamedHue = NamedHue(name: string, hue: real)

  const CHROMATIC_HUES: seq<NamedHue> := [
    NamedHue("red", 0.0), NamedHue("orange", 39.0), NamedHue("yellow", 60.0), NamedHue("green", 120.0),
    NamedHue("blue", 240.0), NamedHue("purple", 300.0), NamedHue("pink", 350.0), NamedHue("brown", 25.0)]

  /** The position of the first of the nearest. */
  function Nearest(hues: seq<NamedHue>, hue: real): (i: nat)
    requires hues != []
    ensures i < |hues|
    ensures forall j :: 0 <= j < |hues| ==> HueDistance(hue, hues[i].hue) <= HueDistance(hue, hues[j].hue)
    ensures forall j :: 0 <= j < i ==> HueDistance(hue, hues[i].hue) < HueDistance(hue, hues[j].hue)
  {
    if |hues| == 1 then 0
    else
      var n := |hues| - 1;
      var i := Nearest(hues[..n], hue);
      assert forall j :: 0 <= j < n ==> hues[..n][j] == hues[j];
      if HueDistance(hue, hues[n].hue) < HueDistance(hue, hues[i].hue) then n else i
  }

  function ColorName(hueTurns: real, lightness: real, saturation: real): string {
    if saturation < 0.15 then
      if lightness <= 0.20 then "black" else if lightness >= 0.85 then "white" else "gray"
    else if lightness <= 0.20 then "black"
    else CHROMATIC_HUES[Nearest(CHROMATIC_HUES, hueTurns * 360.0)].name
  }

  /** The name of a hue that no other reference hue is nearer to. */
  ghost predicate NearestName(hue: real, name: string) {
    exists i :: 0 <= i < |CHROMATIC_HUES| && name == CHROMATIC_HUES[i].name
      && forall j :: 0 <= j < |CHROMATIC_HUES| ==> HueDistance(hue, CHROMATIC_HUES[i].hue) <= HueDistance(hue, CHROMATIC_HUES[j].hue)
  }

  /** Dark is black; of the rest the pale are white or gray by their lightness, and the others take the name of a nearest hue. */
  lemma NamedByNearestHue(hueTurns: real, lightness: real, saturation: real)
    ensures var name := ColorName(hueTurns, lightness, saturation);
            && (name == "black" <==> lightness <= 0.20)
            && (name == "white" <==> lightness >= 0.85 && saturation < 0.15)
            && (name == "gray" <==> 0.20 < lightness < 0.85 && saturation < 0.15)
            && (lightness > 0.20 && saturation >= 0.15 ==> NearestName(hueTurns * 360.0, name))
  {
    var hues := CHROMATIC_HUES;
    var i := Nearest(hues, hueTurns * 360.0);
    assert forall k :: 0 <= k < |hues| ==> hues[k].name[0] !in "w" && hues[k].name != "gray" && hues[k].name != "black";
    if lightness > 0.20 && saturation >= 0.15 { assert hues[i].name == ColorName(hueTurns, lightness, saturation); }
  }

  /** Close enough to a reference hue, no other can win: half the distance to its nearest neighbour is safe. */
  lemma SafeWithinHalf(hues: seq<NamedHue>, i: nat, hue: real, gap: real)
    requires i < |hues|
    requires forall j :: 0 <= j < |hues| && j != i ==> HueDistance(hues[i].hue, hues[j].hue) >= gap
    requires HueDistance(hue, hues[i].hue) < gap / 2.0
    ensures Nearest(hues, hue) == i
  {
    var n := Nearest(hues, hue);
    HueMetric(hues[i].hue, hue, hues[n].hue);
    HueMetric(hue, hues[i].hue, hue);
    HueMetric(hue, hues[n].hue, hue);
  }

  // ----- Thumbnails -----

  datatype Thumbnail = Thumbnail(size: nat, pixel: (int, int) -> RGB)

  const BORDER_FRACTION := 0.10
  const BACKGROUND_DISTANCE := 60
  const MIN_SUBJECT_FRACTION := 0.02

  function Margin(size: nat): int {
    MaxInt(1, Round(size as real * BORDER_FRACTION))
  }

  predicate InBorder(size: nat, x: int, y: int) {
    var m := Margin(size);
    y < m || y >= size - m || x < m || x >= size - m
  }

  /** A tenth of the side, to the nearest whole number, but at least 1. */
  lemma MarginIsTenth(size: nat)
    ensures Margin(size) >= 1
    ensures size >= 6 ==> -5 <= 10 * Margin(size) - size <= 5
    ensures size < 6 ==> Margin(size) == 1
  {
  }

  /** The border pixels of the rows above y and of row y up to x, row by row. */
  function BorderUpTo(t: Thumbnail, y: nat, x: nat): seq<RGB>
    decreases y, x
  {
    if x > 0 then BorderUpTo(t, y, x - 1) + if InBorder(t.size, x - 1, y) then [t.pixel(x - 1, y)] else []
    else if y > 0 then BorderUpTo(t, y - 1, t.size)
    else []
  }

  function Border(t: Thumbnail): seq<RGB> {
    BorderUpTo(t, t.size, 0)
  }

  lemma {:induction false} BorderNotEmpty(t: Thumbnail, y: nat, x: nat)
    requires t.size > 0 && (y > 0 || x > 0)
    ensures BorderUpTo(t, y, x) != []
    decreases y, x
  {
    if x > 1 || (x == 1 && y > 0) {
      BorderNotEmpty(t, y, x - 1);
    } else if x == 1 {
      assert InBorder(t.size, 0, 0);
    } else {
      BorderNotEmpty(t, y - 1, t.size);
    }
  }

  // ----- Lists of pixels and points of the grid -----

  function CountIf(ps: seq<RGB>, f: RGB -> bool): nat {
    if ps == [] then 0 else CountIf(ps[..|ps| - 1], f) + if f(ps[|ps| - 1]) then 1 else 0
  }

  lemma CountSnoc(ps: seq<RGB>, last: RGB, f: RGB -> bool)
    ensures CountIf(ps + [last], f) == CountIf(ps, f) + if f(last) then 1 else 0
  {
    assert (ps + [last])[..|ps|] == ps;
  }

  datatype Point = Point(x: nat, y: nat)

  /** The points of the grid whose pixel passes. */
  function Frame(t: Thumbnail, f: RGB -> bool): set<Point> {
    set X: nat, Y: nat | X < t.size && Y < t.size && f(t.pixel(X, Y)) :: Point(X, Y)
  }

  /** The points of the border whose pixel passes. */
  function Ring(t: Thumbnail, f: RGB -> bool): set<Point> {
    set X: nat, Y: nat | X < t.size && Y < t.size && InBorder(t.size, X, Y) && f(t.pixel(X, Y)) :: Point(X, Y)
  }

  /** Those of the rows above y and of row y up to x. */
  function RingUpTo(t: Thumbnail, f: RGB -> bool, y: nat, x: nat): set<Point>
    requires x <= t.size
  {
    set X: nat, Y: nat | X < t.size && Y <= y && (Y < y || X < x) && InBorder(t.size, X, Y) && f(t.pixel(X, Y)) :: Point(X, Y)
  }

  lemma RingMore(t: Thumbnail, f: RGB -> bool, y: nat, x: nat)
    requires x < t.size
    ensures var here, before := Point(x, y), RingUpTo(t, f, y, x);
            && here !in before
            && RingUpTo(t, f, y, x + 1) == if InBorder(t.size, x, y) && f(t.pixel(x, y)) then before + {here} else before
  {
  }

  lemma RingRow(t: Thumbnail, f: RGB -> bool, y: nat)
    ensures RingUpTo(t, f, y + 1, 0) == RingUpTo(t, f, y, t.size)
  {
  }

  lemma RingCountMore(t: Thumbnail, f: RGB -> bool, y: nat, x: nat)
    requires x < t.size && CountIf(BorderUpTo(t, y, x), f) == |RingUpTo(t, f, y, x)|
    ensures CountIf(BorderUpTo(t, y, x + 1), f) == |RingUpTo(t, f, y, x + 1)|
  {
    RingMore(t, f, y, x);
    var before := BorderUpTo(t, y, x);
    if InBorder(t.size, x, y) { CountSnoc(before, t.pixel(x, y), f); } else { assert before + [] == before; }
  }

  lemma {:induction false} RingCountUpTo(t: Thumbnail, f: RGB -> bool, y: nat, x: nat)
    requires x <= t.size
    ensures CountIf(BorderUpTo(t, y, x), f) == |RingUpTo(t, f, y, x)|
    decreases y, x
  {
    if x > 0 {
      RingCountUpTo(t, f, y, x - 1);
      RingCountMore(t, f, y, x - 1);
    } else if y > 0 {
      RingCountUpTo(t, f, y - 1, t.size);
      RingRow(t, f, y - 1);
    } else {
      assert RingUpTo(t, f, 0, 0) == {};
    }
  }

  lemma RingCount(t: Thumbnail, f: RGB -> bool)
    ensures CountIf(Border(t), f) == |Ring(t, f)|
  {
    RingCountUpTo(t, f, t.size, 0);
    assert RingUpTo(t, f, t.size, 0) == Ring(t, f);
  }

  function Both(f: RGB -> bool, g: RGB -> bool): RGB -> bool {
    p => f(p) && g(p)
  }

  function FrameUpTo(t: Thumbnail, f: RGB -> bool, y: nat, x: nat): set<Point>
    requires x <= t.size
  {
    set X: nat, Y: nat | X < t.size && Y <= y && (Y < y || X < x) && f(t.pixel(X, Y)) :: Point(X, Y)
  }

  lemma FrameMore(t: Thumbnail, f: RGB -> bool, y: nat, x: nat)
    requires x < t.size
    ensures var here, before := Point(x, y), FrameUpTo(t, f, y, x);
            here !in before && FrameUpTo(t, f, y, x + 1) == if f(t.pixel(x, y)) then before + {here} else before
  {
  }

  lemma FrameRow(t: Thumbnail, f: RGB -> bool, y: nat)
    ensures FrameUpTo(t, f, y + 1, 0) == FrameUpTo(t, f, y, t.size)
  {
  }

  lemma {:induction false} FrameCountUpTo(t: Thumbnail, keep: RGB -> bool, f: RGB -> bool, y: nat, x: nat)
    requires x <= t.size
    ensures CountIf(Select(t, keep, y, x), f) == |FrameUpTo(t, Both(keep, f), y, x)|
    decreases y, x
  {
    if x > 0 {
      FrameCountUpTo(t, keep, f, y, x - 1);
      FrameMore(t, Both(keep, f), y, x - 1);
      var before, last := Select(t, keep, y, x - 1), t.pixel(x - 1, y);
      if keep(last) { CountSnoc(before, last, f); } else { assert before + [] == before; }
    } else if y > 0 {
      FrameCountUpTo(t, keep, f, y - 1, t.size);
      FrameRow(t, Both(keep, f), y - 1);
    } else {
      assert FrameUpTo(t, Both(keep, f), 0, 0) == {};
    }
  }

  lemma FrameCount(t: Thumbnail, keep: RGB -> bool, f: RGB -> bool)
    ensures CountIf(Select(t, keep, t.size, 0), f) == |Frame(t, Both(keep, f))|
  {
    FrameCountUpTo(t, keep, f, t.size, 0);
    assert FrameUpTo(t, Both(keep, f), t.size, 0) == Frame(t, Both(keep, f));
  }

  lemma {:induction false} CountAny(ps: seq<RGB>)
    ensures CountIf(ps, Any) == |ps|
  {
    if ps != [] { CountAny(ps[..|ps| - 1]); }
  }

  // ----- The middle of the border -----

  /** Sorting ascending is sorting the negated values descending. */
  function Negated(vs: seq<int>): (keys: seq<real>)
    ensures |keys| == |vs| && forall i :: 0 <= i < |vs| ==> keys[i] == -(vs[i] as real)
  {
    seq(|vs|, i requires 0 <= i < |vs| => -(vs[i] as real))
  }

  /** `sorted(vs)[len(vs) // 2]` */
  function Median(vs: seq<int>): int
    requires vs != []
  {
    vs[Order(Negated(vs))[|vs| / 2]]
  }

  ghost function AtMost(vs: seq<int>, m: int): set<nat> {
    set i: nat | i < |vs| && vs[i] <= m
  }

  ghost function AtLeast(vs: seq<int>, m: int): set<nat> {
    set i: nat | i < |vs| && vs[i] >= m
  }

  ghost predicate Ascending(vs: seq<int>, p: seq<nat>) {
    Positions(p, |vs|) && Distinct(p) && forall a, b :: 0 <= a < b < |p| ==> vs[p[a]] <= vs[p[b]]
  }

  lemma RankingAscends(vs: seq<int>, p: seq<nat>)
    requires Ranking(Negated(vs), p)
    ensures Ascending(vs, p)
  {
    var keys := Negated(vs);
    RankingDistinct(keys, p);
    forall a, b | 0 <= a < b < |p| ensures vs[p[a]] <= vs[p[b]] {
      assert Before(keys, p[a], p[b]);
    }
  }

  lemma LowHalf(vs: seq<int>, p: seq<nat>, mid: nat)
    requires Ascending(vs, p) && mid < |p|
    ensures |AtMost(vs, vs[p[mid]])| >= mid + 1
  {
    var low, m := p[..mid + 1], vs[p[mid]];
    ElementsCount(low);
    forall i | i in low ensures i in AtMost(vs, m) {
      var a :| 0 <= a < |low| && low[a] == i;
      assert p[a] == i;
    }
    SubsetSize(Elements(low), AtMost(vs, m));
  }

  lemma HighHalf(vs: seq<int>, p: seq<nat>, mid: nat)
    requires Ascending(vs, p) && mid < |p|
    ensures |AtLeast(vs, vs[p[mid]])| >= |p| - mid
  {
    var high, m := p[mid..], vs[p[mid]];
    ElementsCount(high);
    forall i | i in high ensures i in AtLeast(vs, m) {
      var a :| 0 <= a < |high| && high[a] == i;
      assert p[mid + a] == i;
    }
    SubsetSize(Elements(high), AtLeast(vs, m));
  }

  /** More than half of the values are at most the median, and at least half are at least it. */
  lemma MedianSplits(vs: seq<int>)
    requires vs != []
    ensures Median(vs) in vs
    ensures 2 * |AtMost(vs, Median(vs))| > |vs| && 2 * |AtLeast(vs, Median(vs))| >= |vs|
  {
    var p := Order(Negated(vs));
    RankingAscends(vs, p);
    LowHalf(vs, p, |vs| / 2);
    HighHalf(vs, p, |vs| / 2);
  }

  function Channel(ps: seq<RGB>, of: RGB -> int): (vs: seq<int>)
    ensures |vs| == |ps| && forall i :: 0 <= i < |vs| ==> vs[i] == of(ps[i])
  {
    seq(|ps|, i requires 0 <= i < |ps| => of(ps[i]))
  }

  function Red(p: RGB): int { p.r as int }
  function Green(p: RGB): int { p.g as int }
  function Blue(p: RGB): int { p.b as int }

  datatype Color = Color(r: int, g: int, b: int)

  function UpTo(of: RGB -> int, m: int): RGB -> bool {
    p => of(p) <= m
  }

  function From(of: RGB -> int, m: int): RGB -> bool {
    p => of(p) >= m
  }

  lemma AtMostSnoc(vs: seq<int>, v: int, m: int)
    ensures |AtMost(vs + [v], m)| == |AtMost(vs, m)| + if v <= m then 1 else 0
  {
    assert AtMost(vs + [v], m) == AtMost(vs, m) + if v <= m then {|vs|} else {};
  }

  lemma AtLeastSnoc(vs: seq<int>, v: int, m: int)
    ensures |AtLeast(vs + [v], m)| == |AtLeast(vs, m)| + if v >= m then 1 else 0
  {
    assert AtLeast(vs + [v], m) == AtLeast(vs, m) + if v >= m then {|vs|} else {};
  }

  lemma {:induction false} CountAtMost(ps: seq<RGB>, of: RGB -> int, m: int)
    ensures |AtMost(Channel(ps, of), m)| == CountIf(ps, UpTo(of, m))
    ensures |AtLeast(Channel(ps, of), m)| == CountIf(ps, From(of, m))
  {
    if ps == [] {
      assert AtMost(Channel(ps, of), m) == {} && AtLeast(Channel(ps, of), m) == {};
    } else {
      var n: nat := |ps| - 1;
      CountAtMost(ps[..n], of, m);
      AtMostSnoc(Channel(ps[..n], of), of(ps[n]), m);
      AtLeastSnoc(Channel(ps[..n], of), of(ps[n]), m);
      assert Channel(ps, of) == Channel(ps[..n], of) + [of(ps[n])];
    }
  }

  /** More than half of the points are among the low, and at least half among the high. */
  ghost predicate Halves(all: set<Point>, low: set<Point>, high: set<Point>) {
    2 * |low| > |all| && 2 * |high| >= |all|
  }

  function PixelOf(t: Thumbnail, at: Point): RGB {
    t.pixel(at.x, at.y)
  }

  /** The border, as points. */
  function Edge(t: Thumbnail): set<Point> {
    set X: nat, Y: nat | X < t.size && Y < t.size && InBorder(t.size, X, Y) :: Point(X, Y)
  }

  ghost predicate MiddleRed(t: Thumbnail, m: int) {
    && Halves(Edge(t), set at | at in Edge(t) && PixelOf(t, at).r as int <= m, set at | at in Edge(t) && PixelOf(t, at).r as int >= m)
    && exists at :: at in Edge(t) && PixelOf(t, at).r as int == m
  }

  ghost predicate MiddleGreen(t: Thumbnail, m: int) {
    && Halves(Edge(t), set at | at in Edge(t) && PixelOf(t, at).g as int <= m, set at | at in Edge(t) && PixelOf(t, at).g as int >= m)
    && exists at :: at in Edge(t) && PixelOf(t, at).g as int == m
  }

  ghost predicate MiddleBlue(t: Thumbnail, m: int) {
    && Halves(Edge(t), set at | at in Edge(t) && PixelOf(t, at).b as int <= m, set at | at in Edge(t) && PixelOf(t, at).b as int >= m)
    && exists at :: at in Edge(t) && PixelOf(t, at).b as int == m
  }

  /**
   Each component is the one in the middle over the border: more than half of the border points have at most as
   much of it, at least half have at least as much, and one has just as much.
   */
  ghost predicate IsBackdrop(t: Thumbnail, c: Color) {
    MiddleRed(t, c.r) && MiddleGreen(t, c.g) && MiddleBlue(t, c.b)
  }

  lemma MedianIsMiddle(t: Thumbnail, of: RGB -> int, m: int)
    requires t.size > 0 && Border(t) != [] && m == Median(Channel(Border(t), of))
    ensures Halves(Ring(t, Any), Ring(t, UpTo(of, m)), Ring(t, From(of, m)))
    ensures exists at :: at in Ring(t, Any) && of(PixelOf(t, at)) == m
  {
    var ps := Border(t);
    var vs := Channel(ps, of);
    MedianSplits(vs);
    CountAtMost(ps, of, m);
    RingCount(t, UpTo(of, m));
    RingCount(t, From(of, m));
    RingCount(t, Any);
    CountAny(ps);
    var k :| 0 <= k < |vs| && vs[k] == m;
    InBorderList(t, t.size, 0, ps[k]);
    var X: nat, Y: nat :| X < t.size && Y < t.size && InBorder(t.size, X, Y) && t.pixel(X, Y) == ps[k];
    assert Point(X, Y) in Ring(t, Any) && of(PixelOf(t, Point(X, Y))) == m;
  }

  lemma {:induction false} InBorderList(t: Thumbnail, y: nat, x: nat, p: RGB)
    requires x <= t.size && y <= t.size && (y == t.size ==> x == 0) && p in BorderUpTo(t, y, x)
    ensures exists X: nat, Y: nat :: X < t.size && Y < t.size && InBorder(t.size, X, Y) && t.pixel(X, Y) == p
    decreases y, x
  {
    if x > 0 {
      if p in BorderUpTo(t, y, x - 1) { InBorderList(t, y, x - 1, p); } else { assert InBorder(t.size, x - 1, y) && t.pixel(x - 1, y) == p; }
    } else if y > 0 {
      InBorderList(t, y - 1, t.size, p);
    }
  }

  lemma RingSides(t: Thumbnail, of: RGB -> int, m: int)
    ensures Ring(t, Any) == Edge(t)
    ensures Ring(t, UpTo(of, m)) == set at | at in Edge(t) && of(PixelOf(t, at)) <= m
    ensures Ring(t, From(of, m)) == set at | at in Edge(t) && of(PixelOf(t, at)) >= m
  {
  }

  lemma RedIsMiddle(t: Thumbnail, m: int)
    requires t.size > 0 && Border(t) != [] && m == Median(Channel(Border(t), Red))
    ensures MiddleRed(t, m)
  {
    MedianIsMiddle(t, Red, m);
    RingSides(t, Red, m);
    assert Ring(t, UpTo(Red, m)) == set at | at in Edge(t) && PixelOf(t, at).r as int <= m;
    assert Ring(t, From(Red, m)) == set at | at in Edge(t) && PixelOf(t, at).r as int >= m;
  }

  lemma GreenIsMiddle(t: Thumbnail, m: int)
    requires t.size > 0 && Border(t) != [] && m == Median(Channel(Border(t), Green))
    ensures MiddleGreen(t, m)
  {
    MedianIsMiddle(t, Green, m);
    RingSides(t, Green, m);
    assert Ring(t, UpTo(Green, m)) == set at | at in Edge(t) && PixelOf(t, at).g as int <= m;
    assert Ring(t, From(Green, m)) == set at | at in Edge(t) && PixelOf(t, at).g as int >= m;
  }

  lemma BlueIsMiddle(t: Thumbnail, m: int)
    requires t.size > 0 && Border(t) != [] && m == Median(Channel(Border(t), Blue))
    ensures MiddleBlue(t, m)
  {
    MedianIsMiddle(t, Blue, m);
    RingSides(t, Blue, m);
    assert Ring(t, UpTo(Blue, m)) == set at | at in Edge(t) && PixelOf(t, at).b as int <= m;
    assert Ring(t, From(Blue, m)) == set at | at in Edge(t) && PixelOf(t, at).b as int >= m;
  }

  lemma BackdropIsMiddle(t: Thumbnail)
    requires t.size > 0
    ensures IsBackdrop(t, Background(t))
  {
    BorderNotEmpty(t, t.size, 0);
    RedIsMiddle(t, Background(t).r);
    GreenIsMiddle(t, Background(t).g);
    BlueIsMiddle(t, Background(t).b);
  }

  function Background(t: Thumbnail): Color
    requires t.size > 0
  {
    BorderNotEmpty(t, t.size, 0);
    var border := Border(t);
    Color(Median(Channel(border, Red)), Median(Channel(border, Green)), Median(Channel(border, Blue)))
  }

  method EstimateBackground(t: Thumbnail) returns (c: Color)
    requires t.size > 0
    ensures c == Background(t) && IsBackdrop(t, c)
  {
    var size := t.size;
    var margin := Margin(size);
    var border: seq<RGB> := [];
    for y := 0 to size
      invariant border == BorderUpTo(t, y, 0)
    {
      var inHorizontalBand := y < margin || y >= size - margin;
      for x := 0 to size
        invariant border == BorderUpTo(t, y, x)
      {
        if inHorizontalBand || x < margin || x >= size - margin {
          border := border + [t.pixel(x, y)];
        }
      }
      assert BorderUpTo(t, y + 1, 0) == BorderUpTo(t, y, size);
    }
    BorderNotEmpty(t, size, 0);
    c := Color(Median(Channel(border, Red)), Median(Channel(border, Green)), Median(Channel(border, Blue)));
    BackdropIsMiddle(t);
  }

  // ----- The subject -----

  function SquaredDistance(p: RGB, c: Color): int {
    (p.r - c.r) * (p.r - c.r) + (p.g - c.g) * (p.g - c.g) + (p.b - c.b) * (p.b - c.b)
  }

  /** The Euclidean distance exceeds 60. */
  predicate Far(p: RGB, c: Color) {
    SquaredDistance(p, c) > BACKGROUND_DISTANCE * BACKGROUND_DISTANCE
  }

  function FarFrom(c: Color): RGB -> bool {
    p => Far(p, c)
  }

  function Any(p: RGB): bool {
    true
  }

  /** The pixels that a test lets through, of the rows above y and of row y up to x, row by row. */
  function Select(t: Thumbnail, keep: RGB -> bool, y: nat, x: nat): seq<RGB>
    decreases y, x
  {
    if x > 0 then
      var p := t.pixel(x - 1, y);
      Select(t, keep, y, x - 1) + if keep(p) then [p] else []
    else if y > 0 then Select(t, keep, y - 1, t.size)
    else []
  }

  lemma {:induction false} Selected(t: Thumbnail, keep: RGB -> bool, y: nat, x: nat)
    ensures forall p :: p in Select(t, keep, y, x) ==> keep(p)
    ensures (forall p :: keep(p)) && t.size > 0 && (y > 0 || x > 0) ==> Select(t, keep, y, x) != []
    decreases y, x
  {
    if x > 0 { Selected(t, keep, y, x - 1); }
    else if y > 0 { Selected(t, keep, y - 1, t.size); }
  }

  function Survivors(t: Thumbnail): seq<RGB>
    requires t.size > 0
  {
    var c := Background(t);
    Select(t, FarFrom(c), t.size, 0)
  }

  function WholeFrame(t: Thumbnail): seq<RGB>
    requires t.size > 0
  {
    Select(t, Any, t.size, 0)
  }

  /** At least 2% of the pixels differ from the backdrop. */
  predicate Separable(t: Thumbnail)
    requires t.size > 0
  {
    |Survivors(t)| as real >= (t.size * t.size) as real * MIN_SUBJECT_FRACTION
  }

  function SubjectPixels(t: Thumbnail): seq<RGB>
    requires t.size > 0
  {
    if Separable(t) then Survivors(t) else []
  }

  // ----- The most common pixel -----

  function Tally(ps: seq<RGB>, p: RGB): nat {
    if ps == [] then 0 else Tally(ps[..|ps| - 1], p) + if ps[|ps| - 1] == p then 1 else 0
  }

  function Is(p: RGB): RGB -> bool {
    q => q == p
  }

  lemma {:induction false} TallyIsCount(ps: seq<RGB>, p: RGB)
    ensures Tally(ps, p) == CountIf(ps, Is(p))
  {
    if ps != [] { TallyIsCount(ps[..|ps| - 1], p); }
  }

  /** The list the medians are taken of shows each colour as often as there are border points that show it. */
  lemma BorderIsRing(t: Thumbnail, p: RGB)
    ensures Tally(Border(t), p) == |Ring(t, Is(p))|
  {
    TallyIsCount(Border(t), p);
    RingCount(t, Is(p));
  }

  /** The survivors show each colour far from the backdrop as often as there are points that show it, and no other. */
  lemma SurvivorsAreFar(t: Thumbnail, p: RGB)
    requires t.size > 0
    ensures Tally(Survivors(t), p) == if Far(p, Background(t)) then |Frame(t, Is(p))| else 0
  {
    TallyIsCount(Survivors(t), p);
    FrameCount(t, FarFrom(Background(t)), Is(p));
    assert Frame(t, Both(FarFrom(Background(t)), Is(p))) == if Far(p, Background(t)) then Frame(t, Is(p)) else {};
  }

  function Kinds(ps: seq<RGB>): (ks: seq<RGB>)
    ensures forall p :: p in ks <==> p in ps
  {
    if ps == [] then []
    else
      var last := ps[|ps| - 1];
      var ks := Kinds(ps[..|ps| - 1]);
      assert ps == ps[..|ps| - 1] + [last];
      if last in ks then ks else ks + [last]
  }

  /** The k-th kind of pixel, in order of first occurrence, is the first of the most frequent. */
  ghost predicate Leads(ps: seq<RGB>, ks: seq<RGB>, k: nat) {
    && k < |ks|
    && (forall j :: 0 <= j < |ks| ==> Tally(ps, ks[j]) <= Tally(ps, ks[k]))
    && (forall j :: 0 <= j < k ==> Tally(ps, ks[j]) < Tally(ps, ks[k]))
  }

  lemma {:induction false} AbsentTally(ps: seq<RGB>, p: RGB)
    ensures Tally(ps, p) == 0 <==> p !in ps
  {
    if ps != [] {
      AbsentTally(ps[..|ps| - 1], p);
      assert ps == ps[..|ps| - 1] + [ps[|ps| - 1]];
    }
  }

  /** `Counter(ps)`: the kinds in order of first occurrence, and how often each occurs. */
  method CountAll(ps: seq<RGB>) returns (kinds: seq<RGB>, counts: map<RGB, nat>)
    ensures kinds == Kinds(ps)
    ensures forall p :: p in kinds ==> p in counts && counts[p] == Tally(ps, p)
  {
    kinds, counts := [], map[];
    for i := 0 to |ps|
      invariant kinds == Kinds(ps[..i])
      invariant forall p :: p in counts <==> p in kinds
      invariant forall p :: p in counts ==> counts[p] == Tally(ps[..i], p)
    {
      var p := ps[i];
      assert ps[..i + 1][..i] == ps[..i];
      AbsentTally(ps[..i], p);
      if p !in counts { kinds := kinds + [p]; }
      counts := counts[p := (if p in counts then counts[p] else 0) + 1];
    }
    assert ps[..|ps|] == ps;
  }

  lemma LeaderTops(ps: seq<RGB>, k: nat)
    requires Leads(ps, Kinds(ps), k)
    ensures Kinds(ps)[k] in ps && forall p :: Tally(ps, p) <= Tally(ps, Kinds(ps)[k])
  {
    var kinds := Kinds(ps);
    assert kinds[k] in kinds;
    forall p ensures Tally(ps, p) <= Tally(ps, kinds[k]) {
      AbsentTally(ps, p);
      if p in kinds {
        var j :| 0 <= j < |kinds| && kinds[j] == p;
      }
    }
  }

  /** Somewhere in the list there is a p, and no q up to there. */
  ghost predicate AppearsBefore(ps: seq<RGB>, p: RGB, q: RGB) {
    exists i :: 0 <= i < |ps| && ps[i] == p && forall j :: 0 <= j <= i ==> ps[j] != q
  }

  lemma {:induction false} KindsInOrder(ps: seq<RGB>, a: nat, b: nat)
    requires a < b < |Kinds(ps)|
    ensures Kinds(ps)[a] != Kinds(ps)[b] && AppearsBefore(ps, Kinds(ps)[a], Kinds(ps)[b])
  {
    var n := |ps| - 1;
    var front, ks := ps[..n], Kinds(ps[..n]);
    if b < |ks| {
      KindsInOrder(front, a, b);
      var i :| 0 <= i < n && front[i] == ks[a] && forall j :: 0 <= j <= i ==> front[j] != ks[b];
      assert ps[i] == ks[a] && forall j :: 0 <= j <= i ==> ps[j] == front[j];
    } else {
      assert ks[a] in ks && ks[a] in front;
      var i :| 0 <= i < n && front[i] == ks[a];
      assert ps[i] == ks[a] && ps[n] !in front && forall j :: 0 <= j <= i ==> ps[j] == front[j] && front[j] in front;
    }
  }

  /** Of equally frequent pixels the one that appears first is the leader. */
  lemma LeaderFirst(ps: seq<RGB>, k: nat)
    requires Leads(ps, Kinds(ps), k)
    ensures forall p :: p in ps && p != Kinds(ps)[k] && Tally(ps, p) == Tally(ps, Kinds(ps)[k]) ==> AppearsBefore(ps, Kinds(ps)[k], p)
  {
    var ks := Kinds(ps);
    forall p | p in ps && p != ks[k] && Tally(ps, p) == Tally(ps, ks[k]) ensures AppearsBefore(ps, ks[k], p) {
      assert p in ks;
      var j :| 0 <= j < |ks| && ks[j] == p;
      KindsInOrder(ps, k, j);
    }
  }

  lemma NextLeader(ps: seq<RGB>, ks: seq<RGB>, i: nat, k: nat)
    requires i < |ks| && Leads(ps, ks[..i], k)
    ensures Leads(ps, ks[..i + 1], if Tally(ps, ks[i]) > Tally(ps, ks[k]) then i else k)
  {
    assert forall j :: 0 <= j < i ==> ks[..i + 1][j] == ks[..i][j];
  }

  /** `Counter(ps).most_common(1)[0][0]` */
  method MostCommon(ps: seq<RGB>) returns (best: RGB)
    requires ps != []
    ensures exists k: nat :: Leads(ps, Kinds(ps), k) && best == Kinds(ps)[k]
    ensures best in ps && forall p :: Tally(ps, p) <= Tally(ps, best)
    ensures forall p :: p in ps && p != best && Tally(ps, p) == Tally(ps, best) ==> AppearsBefore(ps, best, p)
  {
    var kinds, counts := CountAll(ps);
    assert ps[0] in kinds;
    best := kinds[0];
    ghost var k: nat := 0;
    for i := 1 to |kinds|
      invariant k < i && best == kinds[k]
      invariant Leads(ps, kinds[..i], k)
    {
      NextLeader(ps, kinds, i, k);
      assert kinds[i] in kinds && kinds[k] in kinds;
      if counts[kinds[i]] > counts[best] {
        best, k := kinds[i], i;
      }
    }
    assert kinds[..|kinds|] == kinds;
    LeaderTops(ps, k);
    LeaderFirst(ps, k);
  }

  /**
   With at least 2% of the frame unlike the backdrop, the dominant colour is a most frequent of those
   pixels, so it is more than 60 away from the backdrop.
   */
  lemma FrameNotEmpty(t: Thumbnail)
    requires t.size > 0
    ensures WholeFrame(t) != [] && t.size * t.size > 0
  {
    MulLt(t.size as real, 0.0, t.size as real);
    assert t.size * t.size > 0;
    Selected(t, Any, t.size, 0);
  }

  lemma SurvivorsFar(t: Thumbnail)
    requires t.size > 0
    ensures forall p :: p in Survivors(t) ==> Far(p, Background(t))
    ensures Separable(t) ==> Survivors(t) != []
  {
    var background := Background(t);
    FrameNotEmpty(t);
    Selected(t, FarFrom(background), t.size, 0);
  }

  /** The whole grid, as points. */
  function Grid(t: Thumbnail): set<Point> {
    set X: nat, Y: nat | X < t.size && Y < t.size :: Point(X, Y)
  }

  /** The points more than 60 away from a colour. */
  function FarPoints(t: Thumbnail, b: Color): set<Point> {
    set at | at in Grid(t) && MoreThanSixty(PixelOf(t, at), b)
  }

  predicate MoreThanSixty(p: RGB, b: Color) {
    var dr, dg, db := p.r as int - b.r, p.g as int - b.g, p.b as int - b.b;
    dr * dr + dg * dg + db * db > 3600
  }

  lemma FarMeans(c: Color)
    ensures forall p: RGB :: Far(p, c) <==> MoreThanSixty(p, c)
  {
  }

  function Of(t: Thumbnail, points: set<Point>, p: RGB): set<Point> {
    set at | at in points && PixelOf(t, at) == p
  }

  /** Some of the points show c, and no colour is shown by more of them. */
  ghost predicate MostShown(t: Thumbnail, points: set<Point>, c: RGB) {
    |Of(t, points, c)| > 0 && forall p :: |Of(t, points, p)| <= |Of(t, points, c)|
  }

  /** The subject is what is far from the backdrop, if that is at least a fiftieth of the grid, and else all of it. */
  ghost predicate Dominant(t: Thumbnail, b: Color, c: RGB) {
    MostShown(t, if 50 * |FarPoints(t, b)| >= |Grid(t)| then FarPoints(t, b) else Grid(t), c)
  }

  lemma FarFrame(t: Thumbnail, c: Color, p: RGB)
    ensures Frame(t, Both(FarFrom(c), Any)) == FarPoints(t, c)
    ensures Frame(t, Both(FarFrom(c), Is(p))) == Of(t, FarPoints(t, c), p)
  {
    FarMeans(c);
  }

  lemma FarAsPoints(t: Thumbnail)
    requires t.size > 0
    ensures |Survivors(t)| == |FarPoints(t, Background(t))|
    ensures forall p :: Tally(Survivors(t), p) == |Of(t, FarPoints(t, Background(t)), p)|
  {
    var b := Background(t);
    FarFrame(t, b, RGB(0, 0, 0));
    FrameCount(t, FarFrom(b), Any);
    CountAny(Survivors(t));
    forall p ensures Tally(Survivors(t), p) == |Of(t, FarPoints(t, b), p)| {
      TallyIsCount(Survivors(t), p);
      FrameCount(t, FarFrom(b), Is(p));
      FarFrame(t, b, p);
    }
  }

  lemma FrameAsPoints(t: Thumbnail)
    requires t.size > 0
    ensures |WholeFrame(t)| == |Grid(t)| && forall p :: Tally(WholeFrame(t), p) == |Of(t, Grid(t), p)|
  {
    FrameCount(t, Any, Any);
    CountAny(WholeFrame(t));
    assert Frame(t, Both(Any, Any)) == Grid(t);
    forall p ensures Tally(WholeFrame(t), p) == |Of(t, Grid(t), p)| {
      TallyIsCount(WholeFrame(t), p);
      FrameCount(t, Any, Is(p));
      assert Frame(t, Both(Any, Is(p))) == Of(t, Grid(t), p);
    }
  }

  lemma {:induction false} RowPixels(t: Thumbnail, y: nat, x: nat)
    requires x <= t.size
    ensures |Select(t, Any, y, x)| == y * t.size + x
    decreases y, x
  {
    if x > 0 { RowPixels(t, y, x - 1); }
    else if y > 0 { RowPixels(t, y - 1, t.size); }
  }

  lemma SeparableMeans(t: Thumbnail)
    requires t.size > 0
    ensures Separable(t) <==> 50 * |FarPoints(t, Background(t))| >= |Grid(t)|
  {
    RowPixels(t, t.size, 0);
    FrameAsPoints(t);
    FarAsPoints(t);
  }

  lemma PoolDominant(t: Thumbnail, c: RGB)
    requires t.size > 0
    requires var pool := if Separable(t) then Survivors(t) else WholeFrame(t); c in pool && forall p :: Tally(pool, p) <= Tally(pool, c)
    ensures Dominant(t, Background(t), c)
  {
    SeparableMeans(t);
    FarAsPoints(t);
    FrameAsPoints(t);
    AbsentTally(if Separable(t) then Survivors(t) else WholeFrame(t), c);
  }

  method DominantColor(t: Thumbnail) returns (c: RGB)
    requires t.size > 0
    ensures exists b: Color :: IsBackdrop(t, b) && Dominant(t, b, c)
    ensures var pool := if Separable(t) then Survivors(t) else WholeFrame(t);
            c in pool && forall p :: Tally(pool, p) <= Tally(pool, c)
    ensures Separable(t) ==> Far(c, Background(t))
  {
    var background := EstimateBackground(t);
    var subject := SubjectPixels(t);
    SurvivorsFar(t);
    FrameNotEmpty(t);
    if subject == [] {
      subject := WholeFrame(t);
    }
    c := MostCommon(subject);
    PoolDominant(t, c);
    assert IsBackdrop(t, background);
  }

  // ----- Brightness -----

  function Luma(p: RGB): real {
    0.299 * p.r as real + 0.587 * p.g as real + 0.114 * p.b as real
  }

  function TotalLuma(ps: seq<RGB>): real {
    if ps == [] then 0.0 else TotalLuma(ps[..|ps| - 1]) + Luma(ps[|ps| - 1])
  }

  function Brightness(ps: seq<RGB>): real
    requires ps != []
  {
    TotalLuma(ps) / |ps| as real / 255.0
  }

  lemma {:induction false} LumaBounds(ps: seq<RGB>)
    ensures 0.0 <= TotalLuma(ps) <= 255.0 * |ps| as real
    ensures TotalLuma(ps) == 0.0 <==> forall i :: 0 <= i < |ps| ==> ps[i] == RGB(0, 0, 0)
    ensures TotalLuma(ps) == 255.0 * |ps| as real <==> forall i :: 0 <= i < |ps| ==> ps[i] == RGB(255, 255, 255)
  {
    if ps != [] {
      var n := |ps| - 1;
      LumaBounds(ps[..n]);
      assert forall i :: 0 <= i < n ==> ps[..n][i] == ps[i];
    }
  }

  function SumOf(ps: seq<RGB>, of: RGB -> int): int {
    if ps == [] then 0 else SumOf(ps[..|ps| - 1], of) + of(ps[|ps| - 1])
  }

  /** The three components count by their weights, which add up to 1. */
  lemma {:induction false} LumaIsWeighted(ps: seq<RGB>)
    ensures 1000.0 * TotalLuma(ps)
         == (299 * SumOf(ps, (p: RGB) => p.r as int) + 587 * SumOf(ps, (p: RGB) => p.g as int) + 114 * SumOf(ps, (p: RGB) => p.b as int)) as real
  {
    if ps != [] { LumaIsWeighted(ps[..|ps| - 1]); }
  }

  /** Brightness runs from 0, reached by all black alone, to 1, reached by all white alone. */
  lemma BrightnessRange(ps: seq<RGB>)
    requires ps != []
    ensures 0.0 <= Brightness(ps) <= 1.0
    ensures Brightness(ps) == 0.0 <==> forall i :: 0 <= i < |ps| ==> ps[i] == RGB(0, 0, 0)
    ensures Brightness(ps) == 1.0 <==> forall i :: 0 <= i < |ps| ==> ps[i] == RGB(255, 255, 255)
  {
    LumaBounds(ps);
    QuotientCompare(TotalLuma(ps), |ps| as real, 0.0);
    QuotientCompare(TotalLuma(ps), |ps| as real, 255.0);
  }
}
