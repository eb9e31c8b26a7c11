/** Turning pages: boxes in thousandths, points on the displayed page, and pixels. */
module Geometry {
  import opened Domain
  import opened Rounding
  import opened Wrappers

  // ---------------------------------------------------------------- boxes and points

  /** The same area in the coordinates of the page turned clockwise. */
  function RotateBox(b: Box, r: Rotation): Box {
    match r
    case 90 => Box(1000 - b.y2, b.x1, 1000 - b.y1, b.x2)
    case 180 => Box(1000 - b.x2, 1000 - b.y2, 1000 - b.x1, 1000 - b.y1)
    case 270 => Box(b.y1, 1000 - b.x2, b.y2, 1000 - b.x1)
    case _ => b
  }

  function NextRotation(r: Rotation): Rotation {
    (r + 90) % 360
  }

  /** A point as fractions of the page's width and height. */
  datatype Point = Point(x: real, y: real)

  /** The point of the page under a point of the turned page. */
  function UnrotatePoint(u: real, v: real, r: Rotation): Point {
    match r
    case 90 => Point(v, 1.0 - u)
    case 180 => Point(1.0 - u, 1.0 - v)
    case 270 => Point(1.0 - v, u)
    case _ => Point(u, v)
  }

  predicate Within(p: Point, b: Box) {
    b.x1 as real <= 1000.0 * p.x <= b.x2 as real && b.y1 as real <= 1000.0 * p.y <= b.y2 as real
  }

  /** Turning a box keeps it valid and is a clockwise action of the four quarter turns: the top goes right. */
  lemma TurnsAct(b: Box, r: Rotation, s: Rotation)
    ensures b.Valid() <==> RotateBox(b, r).Valid()
    ensures RotateBox(RotateBox(b, r), s) == RotateBox(b, (r + s) % 360)
    ensures RotateBox(b, NextRotation(r)) == RotateBox(RotateBox(b, r), 90)
    ensures RotateBox(b, 0) == b && (b.y1 == 0 <==> RotateBox(b, 90).x2 == 1000)
  {
    assert (r + s) % 360 == if r + s >= 360 then r + s - 360 else r + s;
  }

  /** A point of the turned page is in the turned box exactly when the point under it is in the box. */
  lemma DisplayedPointHitsSameBox(u: real, v: real, b: Box, r: Rotation)
    ensures Within(Point(u, v), RotateBox(b, r)) <==> Within(UnrotatePoint(u, v, r), b)
  {
    assert 1000.0 * (1.0 - u) == 1000.0 - 1000.0 * u && 1000.0 * (1.0 - v) == 1000.0 - 1000.0 * v;
  }

  /** Undoing one turn and then another is undoing their sum; a full circle of quarter turns changes nothing. */
  lemma UnrotationsAct(u: real, v: real, r: Rotation, s: Rotation)
    ensures var p := UnrotatePoint(u, v, s); UnrotatePoint(p.x, p.y, r) == UnrotatePoint(u, v, (r + s) % 360)
  {
    assert (r + s) % 360 == if r + s >= 360 then r + s - 360 else r + s;
  }

  // ---------------------------------------------------------------- dragged rectangles

  /** The nearest whole number, halves up. */
  function RoundHalfUp(t: real): int {
    (t + 0.5).Floor
  }

  function MinReal(a: real, b: real): real {
    if b < a then b else a
  }

  function MaxReal(a: real, b: real): real {
    if b > a then b else a
  }

  /** The rectangle between two points in thousandths, unless a side is shorter than three. */
  function OrderedBox(first: Point, second: Point): Option<Box> {
    var box := Box(RoundHalfUp(MinReal(first.x, second.x)), RoundHalfUp(MinReal(first.y, second.y)),
                   RoundHalfUp(MaxReal(first.x, second.x)), RoundHalfUp(MaxReal(first.y, second.y)));
    if box.x2 - box.x1 >= 3 && box.y2 - box.y1 >= 3 then Some(box) else None
  }

  predicate OnPage(p: Point) {
    0.0 <= p.x <= 1000.0 && 0.0 <= p.y <= 1000.0
  }

  /**
   Dragging on the page in either direction gives the same box; it is valid, no check will call it
   degenerate, and it is within half a thousandth of the drag.
   */
  lemma DraggedBoxIsUsable(p: Point, q: Point)
    ensures OrderedBox(p, q) == OrderedBox(q, p)
    ensures OnPage(p) && OnPage(q) && OrderedBox(p, q).Some? ==>
              OrderedBox(p, q).value.Valid() && !Degenerate(OrderedBox(p, q).value)
    ensures OrderedBox(p, q).Some? ==>
              var b := OrderedBox(p, q).value;
              && b.x1 as real - 0.5 <= MinReal(p.x, q.x) && MaxReal(p.x, q.x) < b.x2 as real + 0.5
              && b.y1 as real - 0.5 <= MinReal(p.y, q.y) && MaxReal(p.y, q.y) < b.y2 as real + 0.5
  {
  }

  // ---------------------------------------------------------------- pixels

  const PADDING := 3
  const MIN_BOX_THOUSANDTHS := 2

  predicate Degenerate(b: Box) {
    b.y2 - b.y1 < MIN_BOX_THOUSANDTHS || b.x2 - b.x1 < MIN_BOX_THOUSANDTHS
  }

  /** The pixel column, or row, of a coordinate on a raster `size` pixels across. */
  function Pixel(t: int, size: nat): int {
    RoundHalfEven(t * size, 1000)
  }

  function PixelBox(b: Box, width: nat, height: nat, padding: nat): Box {
    Box(AtLeast(Pixel(b.x1, width) - padding, 0), AtLeast(Pixel(b.y1, height) - padding, 0),
        AtMost(Pixel(b.x2, width) + padding, width), AtMost(Pixel(b.y2, height) + padding, height))
  }

  function AtLeast(a: int, low: int): int {
    if a < low then low else a
  }

  function AtMost(a: int, high: int): int {
    if a > high then high else a
  }

  /** The rectangle tool paints both of its edges. */
  predicate Painted(b: Box, width: nat, height: nat, x: int, y: int) {
    var p := PixelBox(b, width, height, PADDING);
    p.x1 <= x <= p.x2 && p.y1 <= y <= p.y2 && 0 <= x < width && 0 <= y < height
  }

  /** A crop leaves its right and lower edges out. */
  predicate Cropped(b: Box, width: nat, height: nat, x: int, y: int) {
    var c := PixelBox(b, width, height, 0);
    c.x1 <= x < c.x2 && c.y1 <= y < c.y2
  }

  predicate Sideways(r: Rotation) {
    r == 90 || r == 270
  }

  function TurnedWidth(width: nat, height: nat, r: Rotation): nat {
    if Sideways(r) then height else width
  }

  function TurnedHeight(width: nat, height: nat, r: Rotation): nat {
    if Sideways(r) then width else height
  }

  /** The column and the row of the page pixel under pixel (x, y) of the turned raster. */
  function UnturnX(x: int, y: int, width: nat, r: Rotation): int {
    match r
    case 90 => y
    case 180 => width - 1 - x
    case 270 => width - 1 - y
    case _ => x
  }

  function UnturnY(x: int, y: int, height: nat, r: Rotation): int {
    match r
    case 90 => height - 1 - x
    case 180 => height - 1 - y
    case 270 => x
    case _ => y
  }

  /** Rounding is at most half a pixel off. */
  lemma PixelIsNear(t: int, size: nat)
    ensures 2 * t * size - 1000 <= 2000 * Pixel(t, size) <= 2 * t * size + 1000
  {
    var n := t * size;
    assert n == 1000 * (n / 1000) + n % 1000;
  }

  /** So measured from the far side it is off by at most one. */
  lemma PixelFromTheOtherSide(t: int, size: nat)
    ensures size - Pixel(t, size) - 1 <= Pixel(1000 - t, size) <= size - Pixel(t, size) + 1
  {
    PixelIsNear(t, size);
    PixelIsNear(1000 - t, size);
    assert (1000 - t) * size == 1000 * size - t * size;
  }

  /**
   Whatever the raster and the turn, every pixel the check looks at is a painted pixel turned:
   the padding absorbs the rounding on both sides.
   */
  lemma CheckLooksAtPaint(b: Box, r: Rotation, width: nat, height: nat, x: int, y: int)
    requires b.Valid()
    requires Cropped(RotateBox(b, r), TurnedWidth(width, height, r), TurnedHeight(width, height, r), x, y)
    ensures Painted(b, width, height, UnturnX(x, y, width, r), UnturnY(x, y, height, r))
  {
    PixelFromTheOtherSide(b.x1, width);
    PixelFromTheOtherSide(b.x2, width);
    PixelFromTheOtherSide(b.y1, height);
    PixelFromTheOtherSide(b.y2, height);
  }

  // ---------------------------------------------------------------- a check on another raster

  /** A shift of at most half a pixel on one raster is at most two and a half on one five times as fine. */
  lemma Scaled(d: real, size: nat, checked: nat)
    requires size <= 5 * checked
    ensures d * checked as real >= -1000.0 ==> d * size as real >= -5000.0
    ensures d * checked as real <= 1000.0 ==> d * size as real <= 5000.0
  {
    if d >= 0.0 {
      assert d * size as real >= 0.0;
      assert d * size as real <= d * (5 * checked) as real;
      assert d * (5 * checked) as real == 5.0 * (d * checked as real);
    } else {
      assert d * size as real <= 0.0;
      assert d * size as real >= d * (5 * checked) as real;
      assert d * (5 * checked) as real == 5.0 * (d * checked as real);
    }
  }

  /** Fractions of the page from pixel `low` to the far edge of pixel `high`. */
  predicate Spans(low: int, high: int, size: nat, x: real) {
    low as real <= x * size as real <= high as real
  }

  /** How far x lies beyond edge t, in half thousandths. */
  function Beyond(x: real, t: int): real {
    2000.0 * x - 2.0 * t as real
  }

  lemma BeyondOnRaster(x: real, t: int, size: nat)
    ensures Beyond(x, t) * size as real == 2000.0 * (x * size as real) - 2.0 * (t * size) as real
  {
    assert t as real * size as real == (t * size) as real;
  }

  /** Right of the pixel of an edge, left of the pixel of an edge, in terms of the edge itself. */
  lemma EdgeOnCheck(x: real, t: int, checked: nat)
    ensures Pixel(t, checked) as real <= x * checked as real ==> Beyond(x, t) * checked as real >= -1000.0
    ensures x * checked as real <= Pixel(t, checked) as real ==> Beyond(x, t) * checked as real <= 1000.0
  {
    PixelIsNear(t, checked);
    BeyondOnRaster(x, t, checked);
  }

  lemma EdgeOnPage(x: real, t: int, size: nat)
    ensures Beyond(x, t) * size as real >= -5000.0 ==> (Pixel(t, size) - PADDING) as real <= x * size as real
    ensures Beyond(x, t) * size as real <= 5000.0 ==> x * size as real <= (Pixel(t, size) + PADDING) as real
  {
    PixelIsNear(t, size);
    BeyondOnRaster(x, t, size);
  }

  lemma Mirrored(x: real, t: int)
    ensures Beyond(1.0 - x, 1000 - t) == -Beyond(x, t)
  {
  }

  lemma Negated(d: real, n: real)
    ensures (-d) * n == -(d * n)
  {
  }

  lemma StraightEdge(x: real, t: int, size: nat, checked: nat)
    requires size <= 5 * checked
    ensures Pixel(t, checked) as real <= x * checked as real ==> (Pixel(t, size) - PADDING) as real <= x * size as real
    ensures x * checked as real <= Pixel(t, checked) as real ==> x * size as real <= (Pixel(t, size) + PADDING) as real
  {
    EdgeOnCheck(x, t, checked);
    Scaled(Beyond(x, t), size, checked);
    EdgeOnPage(x, t, size);
  }

  lemma MirroredEdge(x: real, t: int, size: nat, checked: nat)
    requires size <= 5 * checked
    ensures (1.0 - x) * checked as real <= Pixel(1000 - t, checked) as real ==>
              (Pixel(t, size) - PADDING) as real <= x * size as real
    ensures Pixel(1000 - t, checked) as real <= (1.0 - x) * checked as real ==>
              x * size as real <= (Pixel(t, size) + PADDING) as real
  {
    EdgeOnCheck(1.0 - x, 1000 - t, checked);
    Mirrored(x, t);
    Negated(Beyond(x, t), checked as real);
    Scaled(Beyond(x, t), size, checked);
    EdgeOnPage(x, t, size);
  }

  /** One axis, straight or mirrored: what the check looks at between two edges is painted between them. */
  lemma AxisIsPainted(from: int, to: int, size: nat, checked: nat, x: real, mirrored: bool)
    requires 0.0 <= x <= 1.0 && size <= 5 * checked
    requires if mirrored then Spans(Pixel(1000 - to, checked), Pixel(1000 - from, checked), checked, 1.0 - x)
             else Spans(Pixel(from, checked), Pixel(to, checked), checked, x)
    ensures Spans(AtLeast(Pixel(from, size) - PADDING, 0), AtMost(Pixel(to, size) + PADDING, size), size, x)
  {
    if mirrored {
      MirroredEdge(x, from, size, checked);
      MirroredEdge(x, to, size, checked);
    } else {
      StraightEdge(x, from, size, checked);
      StraightEdge(x, to, size, checked);
    }
    Clamped(Pixel(from, size) - PADDING, Pixel(to, size) + PADDING, size, x);
  }

  lemma Clamped(low: int, high: int, size: nat, x: real)
    requires 0.0 <= x <= 1.0
    ensures Spans(low, high, size, x) ==> Spans(AtLeast(low, 0), AtMost(high, size), size, x)
  {
    FractionOf(x, size as real);
    ClampedAt(low, high, size, x * size as real);
  }

  lemma ClampedAt(low: int, high: int, size: nat, p: real)
    requires 0.0 <= p <= size as real
    ensures low as real <= p ==> AtLeast(low, 0) as real <= p
    ensures p <= high as real ==> p <= AtMost(high, size) as real
  {
  }

  lemma FractionOf(x: real, n: real)
    requires 0.0 <= x <= 1.0 && n >= 0.0
    ensures 0.0 <= x * n <= n
  {
  }

  /** The point lies in the area of the pixel box on a raster of this size. */
  predicate InArea(p: Box, width: nat, height: nat, q: Point) {
    Spans(p.x1, p.x2, width, q.x) && Spans(p.y1, p.y2, height, q.y)
  }

  /** Edges of a valid box fall on the raster. */
  lemma EdgesOnRaster(b: Box, width: nat, height: nat)
    requires b.Valid()
    ensures PixelBox(b, width, height, 0) ==
              Box(Pixel(b.x1, width), Pixel(b.y1, height), Pixel(b.x2, width), Pixel(b.y2, height))
  {
    PixelOnRaster(b.x1, width);
    PixelOnRaster(b.x2, width);
    PixelOnRaster(b.y1, height);
    PixelOnRaster(b.y2, height);
  }

  lemma PixelOnRaster(t: int, size: nat)
    requires 0 <= t <= 1000
    ensures 0 <= Pixel(t, size) <= size
  {
    assert 0 <= t * size <= 1000 * size;
  }

  /** The point lies between the pixels of the box's edges. */
  predicate BetweenEdges(b: Box, width: nat, height: nat, q: Point) {
    Spans(Pixel(b.x1, width), Pixel(b.x2, width), width, q.x)
      && Spans(Pixel(b.y1, height), Pixel(b.y2, height), height, q.y)
  }

  /** What the turned box spans on either axis is one axis of the box itself, straight or mirrored. */
  lemma TurnedEdgesArePainted(b: Box, r: Rotation, width: nat, height: nat, checkedWidth: nat, checkedHeight: nat,
                              u: real, v: real)
    requires 0.0 <= u <= 1.0 && 0.0 <= v <= 1.0
    requires TurnedWidth(width, height, r) <= 5 * checkedWidth && TurnedHeight(width, height, r) <= 5 * checkedHeight
    requires BetweenEdges(RotateBox(b, r), checkedWidth, checkedHeight, Point(u, v))
    ensures var q := UnrotatePoint(u, v, r);
            && Spans(AtLeast(Pixel(b.x1, width) - PADDING, 0), AtMost(Pixel(b.x2, width) + PADDING, width), width, q.x)
            && Spans(AtLeast(Pixel(b.y1, height) - PADDING, 0), AtMost(Pixel(b.y2, height) + PADDING, height),
                     height, q.y)
  {
    match r {
      case 90 =>
        AxisIsPainted(b.x1, b.x2, width, checkedHeight, v, false);
        AxisIsPainted(b.y1, b.y2, height, checkedWidth, 1.0 - u, true);
      case 180 =>
        AxisIsPainted(b.x1, b.x2, width, checkedWidth, 1.0 - u, true);
        AxisIsPainted(b.y1, b.y2, height, checkedHeight, 1.0 - v, true);
      case 270 =>
        AxisIsPainted(b.x1, b.x2, width, checkedHeight, 1.0 - v, true);
        AxisIsPainted(b.y1, b.y2, height, checkedWidth, u, false);
      case _ =>
        AxisIsPainted(b.x1, b.x2, width, checkedWidth, u, false);
        AxisIsPainted(b.y1, b.y2, height, checkedHeight, v, false);
    }
  }

  /**
   The output is checked on a raster of its own. As long as that is at least a fifth as fine as the
   one painted on, every point the check looks at comes from the painted area.
   */
  lemma CheckOnAnotherRaster(b: Box, r: Rotation, width: nat, height: nat, checkedWidth: nat, checkedHeight: nat,
                             u: real, v: real)
    requires b.Valid() && 0.0 <= u <= 1.0 && 0.0 <= v <= 1.0
    requires TurnedWidth(width, height, r) <= 5 * checkedWidth && TurnedHeight(width, height, r) <= 5 * checkedHeight
    requires InArea(PixelBox(RotateBox(b, r), checkedWidth, checkedHeight, 0), checkedWidth, checkedHeight, Point(u, v))
    ensures InArea(PixelBox(b, width, height, PADDING), width, height, UnrotatePoint(u, v, r))
  {
    TurnsAct(b, r, 0);
    EdgesOnRaster(RotateBox(b, r), checkedWidth, checkedHeight);
    TurnedEdgesArePainted(b, r, width, height, checkedWidth, checkedHeight, u, v);
  }

  // ---------------------------------------------------------------- empty crops

  lemma PixelsGrow(a: int, b: int, size: nat)
    requires a <= b
    ensures Pixel(a, size) <= Pixel(b, size)
    ensures (b - a) * size > 1000 ==> Pixel(a, size) < Pixel(b, size)
  {
    assert (b - a) * size == b * size - a * size;
    var n, m := a * size, b * size;
    assert n <= m;
    assert n == 1000 * (n / 1000) + n % 1000 && m == 1000 * (m / 1000) + m % 1000;
    if n / 1000 == m / 1000 {
      assert n % 1000 <= m % 1000;
    }
  }

  /** Every box as thin as the check allows still covers a pixel of the raster. */
  ghost predicate ThinBoxesShow(size: nat) {
    forall t | 0 <= t <= 1000 - MIN_BOX_THOUSANDTHS :: Pixel(t, size) < Pixel(t + MIN_BOX_THOUSANDTHS, size)
  }

  lemma {:induction false} ThinBoxesCountPixels(size: nat, k: nat)
    requires ThinBoxesShow(size) && k <= 500
    ensures Pixel(2 * k, size) >= k
  {
    if k > 0 {
      ThinBoxesCountPixels(size, k - 1);
      var t := 2 * (k - 1);
      assert Pixel(t, size) < Pixel(t + MIN_BOX_THOUSANDTHS, size);
    }
  }

  /** On a raster of exactly 500 pixels the box from 3 to 5 thousandths has both edges on pixel 2. */
  lemma ThinBoxVanishes()
    ensures Pixel(3, 500) == Pixel(5, 500) == 2
  {
  }

  /** The thinnest boxes are never lost exactly when the raster is more than 500 pixels across. */
  lemma ThinBoxesNeedFiveHundred(size: nat)
    ensures ThinBoxesShow(size) <==> size > 500
  {
    if size > 500 {
      forall t | 0 <= t <= 1000 - MIN_BOX_THOUSANDTHS
        ensures Pixel(t, size) < Pixel(t + MIN_BOX_THOUSANDTHS, size)
      {
        PixelsGrow(t, t + MIN_BOX_THOUSANDTHS, size);
      }
    } else if ThinBoxesShow(size) {
      ThinBoxesCountPixels(size, 500);
      ThinBoxVanishes();
    }
  }

  predicate EmptyCrop(b: Box, width: nat, height: nat) {
    var c := PixelBox(b, width, height, 0);
    c.x1 >= c.x2 || c.y1 >= c.y2
  }

  /** So on such rasters no box that is not degenerate has an empty crop, however the page is turned. */
  lemma NoCropIsEmpty(b: Box, r: Rotation, width: nat, height: nat)
    requires b.Valid() && !Degenerate(b) && width > 500 && height > 500
    ensures !EmptyCrop(RotateBox(b, r), width, height)
  {
    var t := RotateBox(b, r);
    TurnsAct(b, r, 0);
    EdgesOnRaster(t, width, height);
    WideEnough(t.x1, t.x2, width);
    WideEnough(t.y1, t.y2, height);
  }

  lemma WideEnough(a: int, b: int, size: nat)
    requires 0 <= a && a + MIN_BOX_THOUSANDTHS <= b <= 1000 && size > 500
    ensures Pixel(a, size) < Pixel(b, size)
  {
    ThinBoxesNeedFiveHundred(size);
    assert Pixel(a, size) < Pixel(a + MIN_BOX_THOUSANDTHS, size);
    PixelsGrow(a + MIN_BOX_THOUSANDTHS, b, size);
  }
}
