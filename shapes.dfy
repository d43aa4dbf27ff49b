/**
 * What each drawing primitive paints, as sets of pixels: the Bresenham trace
 * of drawLine with its square brush, the filled and outlined rectangle, and the
 * right-pointing triangle. A Shape is one primitive call with its arguments,
 * and RenderByte gives the value a buffer byte ends with after a sequence of
 * calls.
 */
module Shapes {
  import opened Raster

  // ---------------------------------------------------------------------------
  // Bresenham
  // ---------------------------------------------------------------------------

  /** The quantities drawLine fixes before its loop: target, |dx|, |dy| and the step directions. */
  datatype Run = Run(x2: int, y2: int, dx: int, dy: int, sx: int, sy: int)

  /** drawLine's loop state: the current pixel and the accumulated error. */
  datatype Cursor = Cursor(x: int, y: int, err: int)

  function StartRun(x1: int, y1: int, x2: int, y2: int): Run {
    Run(x2, y2, Abs(x2 - x1), Abs(y2 - y1), if x1 < x2 then 1 else -1, if y1 < y2 then 1 else -1)
  }

  /** `from` already equals `to`, or `step` moves it toward `to`. */
  predicate Toward(from: int, to: int, step: int) {
    from == to || (step == 1 && from < to) || (step == -1 && from > to)
  }

  /**
   * The invariant of the Bresenham loop: the cursor still lies between the
   * start and the target, every step moves toward the target, and the error
   * term records how far the cursor is along each axis.
   */
  predicate RunInv(c: Cursor, r: Run) {
    && r.dx >= 0 && r.dy >= 0
    && (r.sx == 1 || r.sx == -1) && (r.sy == 1 || r.sy == -1)
    && Abs(r.x2 - c.x) <= r.dx && Abs(r.y2 - c.y) <= r.dy
    && Toward(c.x, r.x2, r.sx) && Toward(c.y, r.y2, r.sy)
    && c.err == r.dx - r.dy + Abs(r.x2 - c.x) * r.dy - Abs(r.y2 - c.y) * r.dx
  }

  /** Distance still to travel, in unit steps. */
  function Remaining(c: Cursor, r: Run): nat {
    Abs(r.x2 - c.x) + Abs(r.y2 - c.y)
  }

  /** One pass of drawLine's loop body after the brush is painted: the error-term update. */
  function Step(c: Cursor, r: Run): Cursor {
    var e2 := 2 * c.err;
    var c1 := if e2 > -r.dy then Cursor(c.x + r.sx, c.y, c.err - r.dy) else c;
    if e2 < r.dx then Cursor(c1.x, c1.y + r.sy, c1.err + r.dx) else c1
  }

  lemma StartKeepsInv(x1: int, y1: int, x2: int, y2: int)
    ensures RunInv(Cursor(x1, y1, Abs(x2 - x1) - Abs(y2 - y1)), StartRun(x1, y1, x2, y2))
  {
  }

  /**
   * A step away from the target moves at least one axis, never overshoots the
   * target and keeps the error term exact.
   */
  lemma StepKeepsInv(c: Cursor, r: Run)
    requires RunInv(c, r) && (c.x, c.y) != (r.x2, r.y2)
    ensures RunInv(Step(c, r), r)
    ensures Remaining(Step(c, r), r) < Remaining(c, r)
    ensures Abs(Step(c, r).x - c.x) <= 1 && Abs(Step(c, r).y - c.y) <= 1
  {
    var rx, ry := Abs(r.x2 - c.x), Abs(r.y2 - c.y);
    var e2 := 2 * c.err;
    if rx == 0 {
      MulAtLeast(ry, r.dx);
      assert !(e2 > -r.dy);
    }
    if ry == 0 {
      MulAtLeast(rx, r.dy);
      assert !(e2 < r.dx);
    }
    var n := Step(c, r);
    if e2 > -r.dy {
      assert Abs(r.x2 - n.x) == rx - 1;
      MulPred(rx, r.dy);
    } else {
      assert n.x == c.x;
    }
    if e2 < r.dx {
      assert Abs(r.y2 - n.y) == ry - 1;
      MulPred(ry, r.dx);
    } else {
      assert n.y == c.y;
    }
  }

  lemma MulAtLeast(a: int, b: int)
    requires a >= 1 && b >= 0
    ensures a * b >= b
  {
  }

  lemma MulPred(a: int, b: int)
    ensures (a - 1) * b == a * b - b
  {
  }

  /** The pixels drawLine's loop visits from cursor `c` on, in order. */
  function Trace(c: Cursor, r: Run): (pts: seq<Point>)
    requires RunInv(c, r)
    ensures |pts| >= 1 && pts[0] == (c.x, c.y) && pts[|pts| - 1] == (r.x2, r.y2)
    decreases Remaining(c, r)
  {
    if (c.x, c.y) == (r.x2, r.y2) then [(c.x, c.y)]
    else
      StepKeepsInv(c, r);
      [(c.x, c.y)] + Trace(Step(c, r), r)
  }

  /**
   * The loop's bookkeeping: once the pixel at cursor `c` is painted, the
   * points still to visit are those from the next cursor on.
   */
  lemma TraceAdvance(pts: seq<Point>, done: seq<Point>, c: Cursor, r: Run)
    requires RunInv(c, r) && (c.x, c.y) != (r.x2, r.y2)
    requires pts == done + Trace(c, r)
    ensures RunInv(Step(c, r), r) && Remaining(Step(c, r), r) < Remaining(c, r)
    ensures pts == (done + [(c.x, c.y)]) + Trace(Step(c, r), r)
  {
    StepKeepsInv(c, r);
  }

  /** The centres drawLine paints a brush at, from (x1, y1) to (x2, y2). */
  function LinePoints(x1: int, y1: int, x2: int, y2: int): seq<Point> {
    StartKeepsInv(x1, y1, x2, y2);
    Trace(Cursor(x1, y1, Abs(x2 - x1) - Abs(y2 - y1)), StartRun(x1, y1, x2, y2))
  }

  /** The loop always terminates, at the end point, after starting at the start point. */
  lemma LineEndpoints(x1: int, y1: int, x2: int, y2: int)
    ensures |LinePoints(x1, y1, x2, y2)| >= 1
    ensures LinePoints(x1, y1, x2, y2)[0] == (x1, y1)
    ensures LinePoints(x1, y1, x2, y2)[|LinePoints(x1, y1, x2, y2)| - 1] == (x2, y2)
  {
  }

  predicate Between(a: int, b: int, v: int) {
    (a <= v <= b) || (b <= v <= a)
  }

  /** Every visited pixel lies in the bounding box of the cursor and the target. */
  lemma {:induction false} TraceInBox(c: Cursor, r: Run, p: Point)
    requires RunInv(c, r) && p in Trace(c, r)
    ensures Between(c.x, r.x2, p.0) && Between(c.y, r.y2, p.1)
    decreases Remaining(c, r)
  {
    if (c.x, c.y) != (r.x2, r.y2) && p != (c.x, c.y) {
      StepKeepsInv(c, r);
      TraceInBox(Step(c, r), r, p);
    }
  }

  /** Consecutive visited pixels are 8-neighbours: the drawn line has no gaps. */
  lemma {:induction false} TraceConnected(c: Cursor, r: Run, i: int)
    requires RunInv(c, r) && 0 <= i < |Trace(c, r)| - 1
    ensures Abs(Trace(c, r)[i + 1].0 - Trace(c, r)[i].0) <= 1
    ensures Abs(Trace(c, r)[i + 1].1 - Trace(c, r)[i].1) <= 1
    ensures Trace(c, r)[i + 1] != Trace(c, r)[i]
    decreases Remaining(c, r)
  {
    StepKeepsInv(c, r);
    if i > 0 {
      TraceConnected(Step(c, r), r, i - 1);
    }
  }

  /** Along a row (no vertical distance) the trace is exactly the pixels between cursor and target. */
  lemma {:induction false} TraceRow(c: Cursor, r: Run, p: Point)
    requires RunInv(c, r) && r.dy == 0
    ensures p in Trace(c, r) <==> p.1 == c.y && Between(c.x, r.x2, p.0)
    decreases Remaining(c, r)
  {
    if (c.x, c.y) != (r.x2, r.y2) {
      StepKeepsInv(c, r);
      TraceRow(Step(c, r), r, p);
    }
  }

  /** Along a column the trace is exactly the pixels between cursor and target. */
  lemma {:induction false} TraceColumn(c: Cursor, r: Run, p: Point)
    requires RunInv(c, r) && r.dx == 0
    ensures p in Trace(c, r) <==> p.0 == c.x && Between(c.y, r.y2, p.1)
    decreases Remaining(c, r)
  {
    if (c.x, c.y) != (r.x2, r.y2) {
      StepKeepsInv(c, r);
      TraceColumn(Step(c, r), r, p);
    }
  }

  /** Every centre of a line lies in the bounding box of its two end points. */
  lemma LineInBox(x1: int, y1: int, x2: int, y2: int, p: Point)
    requires p in LinePoints(x1, y1, x2, y2)
    ensures Between(x1, x2, p.0) && Between(y1, y2, p.1)
  {
    StartKeepsInv(x1, y1, x2, y2);
    TraceInBox(Cursor(x1, y1, Abs(x2 - x1) - Abs(y2 - y1)), StartRun(x1, y1, x2, y2), p);
  }

  /** A horizontal line visits exactly the row pixels from min(x1, x2) to max(x1, x2). */
  lemma LineHorizontal(x1: int, x2: int, y: int, p: Point)
    ensures p in LinePoints(x1, y, x2, y) <==> p.1 == y && Between(x1, x2, p.0)
  {
    StartKeepsInv(x1, y, x2, y);
    TraceRow(Cursor(x1, y, Abs(x2 - x1)), StartRun(x1, y, x2, y), p);
  }

  /** A vertical line visits exactly the column pixels from min(y1, y2) to max(y1, y2). */
  lemma LineVertical(x: int, y1: int, y2: int, p: Point)
    ensures p in LinePoints(x, y1, x, y2) <==> p.0 == x && Between(y1, y2, p.1)
  {
    StartKeepsInv(x, y1, x, y2);
    TraceColumn(Cursor(x, y1, -(Abs(y2 - y1) as int)), StartRun(x, y1, x, y2), p);
  }

  /**
   * For a diagonal line, drawing it in the other direction can visit other
   * pixels: from (x, y) to (x+2, y+1) the middle pixel is (x+1, y), from
   * (x+2, y+1) back to (x, y) it is (x+1, y+1).
   */
  lemma LineNotReversible(x: int, y: int)
    ensures LinePoints(x, y, x + 2, y + 1) == [(x, y), (x + 1, y), (x + 2, y + 1)]
    ensures LinePoints(x + 2, y + 1, x, y) == [(x + 2, y + 1), (x + 1, y + 1), (x, y)]
  {
    var r := Run(x + 2, y + 1, 2, 1, 1, 1);
    var c0, c1, c2 := Cursor(x, y, 1), Cursor(x + 1, y, 0), Cursor(x + 2, y + 1, 1);
    assert StartRun(x, y, x + 2, y + 1) == r;
    assert RunInv(c0, r) && RunInv(c1, r) && RunInv(c2, r);
    assert Step(c0, r) == c1 && Step(c1, r) == c2;
    assert Trace(c1, r) == [(x + 1, y)] + Trace(c2, r);
    var q := Run(x, y, 2, 1, -1, -1);
    var d0, d1, d2 := Cursor(x + 2, y + 1, 1), Cursor(x + 1, y + 1, 0), Cursor(x, y, 1);
    assert StartRun(x + 2, y + 1, x, y) == q;
    assert RunInv(d0, q) && RunInv(d1, q) && RunInv(d2, q);
    assert Step(d0, q) == d1 && Step(d1, q) == d2;
    assert Trace(d1, q) == [(x + 1, y + 1)] + Trace(d2, q);
  }

  // ---------------------------------------------------------------------------
  // Pixel regions of the primitives
  // ---------------------------------------------------------------------------

  /** The square brush of drawLine: offsets -half..half on both axes around `q`. */
  predicate InBrush(q: Point, half: int, p: Point) {
    q.0 - half <= p.0 <= q.0 + half && q.1 - half <= p.1 <= q.1 + half
  }

  /** Some brush centred on one of `pts` covers `p`. */
  predicate BrushCovers(pts: seq<Point>, half: int, p: Point) {
    |pts| > 0 && (BrushCovers(pts[..|pts| - 1], half, p) || InBrush(pts[|pts| - 1], half, p))
  }

  lemma {:induction false} BrushCoversMembership(pts: seq<Point>, half: int, p: Point)
    ensures BrushCovers(pts, half, p) <==> exists q :: q in pts && InBrush(q, half, p)
  {
    if |pts| > 0 {
      var init := pts[..|pts| - 1];
      BrushCoversMembership(init, half, p);
      assert pts == init + [pts[|pts| - 1]];
      if q :| q in pts && InBrush(q, half, p) {
        assert q in init || q == pts[|pts| - 1];
      }
    }
  }

  /** drawLine(x1, y1, x2, y2, thickness) paints `p`. */
  predicate LineCovers(x1: int, y1: int, x2: int, y2: int, thickness: int, p: Point) {
    BrushCovers(LinePoints(x1, y1, x2, y2), Half(thickness), p)
  }

  /** With thickness 1 the line paints both its start and its end pixel. */
  lemma LinePaintsEndpoints(x1: int, y1: int, x2: int, y2: int)
    ensures LineCovers(x1, y1, x2, y2, 1, (x1, y1))
    ensures LineCovers(x1, y1, x2, y2, 1, (x2, y2))
  {
    var pts := LinePoints(x1, y1, x2, y2);
    BrushCoversMembership(pts, 0, (x1, y1));
    BrushCoversMembership(pts, 0, (x2, y2));
    assert pts[0] in pts && pts[|pts| - 1] in pts;
  }

  /** With thickness 1 a horizontal line paints exactly its row run, in either direction. */
  lemma LineHorizontalCovers(x1: int, x2: int, y: int, p: Point)
    ensures LineCovers(x1, y, x2, y, 1, p) <==> p.1 == y && Between(x1, x2, p.0)
    ensures LineCovers(x1, y, x2, y, 1, p) <==> LineCovers(x2, y, x1, y, 1, p)
  {
    BrushCoversMembership(LinePoints(x1, y, x2, y), 0, p);
    BrushCoversMembership(LinePoints(x2, y, x1, y), 0, p);
    LineHorizontal(x1, x2, y, p);
    LineHorizontal(x2, x1, y, p);
  }

  /** With thickness 1 a vertical line paints exactly its column run, in either direction. */
  lemma LineVerticalCovers(x: int, y1: int, y2: int, p: Point)
    ensures LineCovers(x, y1, x, y2, 1, p) <==> p.0 == x && Between(y1, y2, p.1)
    ensures LineCovers(x, y1, x, y2, 1, p) <==> LineCovers(x, y2, x, y1, 1, p)
  {
    BrushCoversMembership(LinePoints(x, y1, x, y2), 0, p);
    BrushCoversMembership(LinePoints(x, y2, x, y1), 0, p);
    LineVertical(x, y1, y2, p);
    LineVertical(x, y2, y1, p);
  }

  /**
   * drawRectangle: every pixel of [x, x+width) x [y, y+height) when filled;
   * otherwise the rows y and y+height-1 over the columns x..x+width-1 and the
   * columns x and x+width-1 over the rows y..y+height-1.
   */
  predicate RectCovers(x: int, y: int, width: int, height: int, fill: bool, p: Point) {
    if fill then
      x <= p.0 < x + width && y <= p.1 < y + height
    else
      ((p.1 == y || p.1 == y + height - 1) && x <= p.0 < x + width) ||
      ((p.0 == x || p.0 == x + width - 1) && y <= p.1 < y + height)
  }

  /** The outline is the part of the filled rectangle on its border: no interior pixel changes. */
  lemma OutlineIsBorder(x: int, y: int, width: int, height: int, p: Point)
    requires width > 0 && height > 0
    ensures RectCovers(x, y, width, height, false, p) <==>
      RectCovers(x, y, width, height, true, p) &&
      (p.0 == x || p.0 == x + width - 1 || p.1 == y || p.1 == y + height - 1)
  {
  }

  /** A filled rectangle with no width or no height paints nothing; an outline needs both to be empty. */
  lemma EmptyRectangle(x: int, y: int, width: int, height: int, fill: bool, p: Point)
    requires if fill then width <= 0 || height <= 0 else width <= 0 && height <= 0
    ensures !RectCovers(x, y, width, height, fill, p)
  {
  }

  /**
   * An outline of height 0 paints exactly the rows y and y-1 over its columns:
   * the top/bottom loop ignores the height, the side loop runs no rows. With a
   * width of 0 or less there are no columns and it paints nothing.
   */
  lemma FlatOutlinePaints(x: int, y: int, width: int, p: Point)
    ensures RectCovers(x, y, width, 0, false, p) <==>
      x <= p.0 < x + width && (p.1 == y || p.1 == y - 1)
  {
  }

  /**
   * drawTriangle(x, y, size): the pixels its two loops visit (x - size/2 ..
   * x + size/2 on both axes) that pass its membership test.
   */
  predicate TriangleCovers(x: int, y: int, size: int, p: Point) {
    var h := Half(size);
    var dx := p.0 - x;
    var dy := p.1 - y;
    && y - h <= p.1 <= y + h
    && x - h <= p.0 <= x + h
    && dx >= -h && dx <= h && Abs(dy) <= h - Abs(dx) && dx >= 0
  }

  /**
   * The triangle points right: it covers (px, py) exactly when 0 <= px-x <= size/2
   * and |py-y| <= size/2 - (px-x); so nothing left of the centre column.
   */
  lemma TriangleRegion(x: int, y: int, size: int, p: Point)
    ensures TriangleCovers(x, y, size, p) <==>
      0 <= p.0 - x <= Half(size) && Abs(p.1 - y) <= Half(size) - (p.0 - x)
    ensures TriangleCovers(x, y, size, p) ==> p.0 >= x
  {
  }

  // ---------------------------------------------------------------------------
  // Shapes and their effect on the buffer
  // ---------------------------------------------------------------------------

  /** One call of a drawing primitive, with its arguments. */
  datatype Shape =
    | Line(x1: int, y1: int, x2: int, y2: int, color: Rgb, thickness: int)
    | Rectangle(x: int, y: int, width: int, height: int, color: Rgb, fill: bool)
    | Square(x: int, y: int, size: int, color: Rgb, fill: bool)
    | Triangle(x: int, y: int, size: int, color: Rgb)

  /** The shape's primitive paints pixel `p` (before clipping to the canvas). */
  predicate Covers(s: Shape, p: Point) {
    match s
    case Line(x1, y1, x2, y2, _, t) => LineCovers(x1, y1, x2, y2, t, p)
    case Rectangle(x, y, w, h, _, f) => RectCovers(x, y, w, h, f, p)
    case Square(x, y, n, _, f) => RectCovers(x - Half(n), y - Half(n), n, n, f, p)
    case Triangle(x, y, n, _) => TriangleCovers(x, y, n, p)
  }

  /** The value buffer byte `k` holds after drawing `s` over the value `b`. */
  function PaintByte(b: byte, k: int, s: Shape): byte {
    if Covers(s, PixelOf(k)) then Channel(s.color, k % 3) else b
  }

  /**
   * Clipping: a shape none of whose pixels lies on the canvas leaves every
   * byte of the buffer as it was.
   */
  lemma OffCanvasUnchanged(s: Shape, b: byte, k: int)
    requires 0 <= k < BufferSize
    requires forall p :: InBounds(p) ==> !Covers(s, p)
    ensures PaintByte(b, k, s) == b
  {
    PixelOfInBounds(k);
  }

  /** The value buffer byte `k` holds after drawing `shapes` in order over the value `b`. */
  function RenderByte(b: byte, k: int, shapes: seq<Shape>): byte {
    if |shapes| == 0 then b
    else PaintByte(RenderByte(b, k, shapes[..|shapes| - 1]), k, shapes[|shapes| - 1])
  }

  /** Drawing `a` then `b` is drawing `a + b`. */
  lemma {:induction false} RenderAppend(v: byte, k: int, a: seq<Shape>, b: seq<Shape>)
    ensures RenderByte(v, k, a + b) == RenderByte(RenderByte(v, k, a), k, b)
  {
    if |b| > 0 {
      var init, last := b[..|b| - 1], b[|b| - 1];
      assert (a + b)[..|a + b| - 1] == a + init;
      assert (a + b)[|a + b| - 1] == last;
      calc {
        RenderByte(v, k, a + b);
        PaintByte(RenderByte(v, k, a + init), k, last);
        { RenderAppend(v, k, a, init); }
        PaintByte(RenderByte(RenderByte(v, k, a), k, init), k, last);
        RenderByte(RenderByte(v, k, a), k, b);
      }
    } else {
      assert a + b == a;
    }
  }

  /** A byte that no shape covers keeps its value. */
  lemma {:induction false} RenderUncovered(v: byte, k: int, shapes: seq<Shape>)
    requires forall i :: 0 <= i < |shapes| ==> !Covers(shapes[i], PixelOf(k))
    ensures RenderByte(v, k, shapes) == v
  {
    if |shapes| > 0 {
      RenderUncovered(v, k, shapes[..|shapes| - 1]);
    }
  }

  /** A byte covered by some shape ends with the colour of the last shape that covers it. */
  lemma {:induction false} RenderLastWins(v: byte, k: int, shapes: seq<Shape>, i: int)
    requires 0 <= i < |shapes| && Covers(shapes[i], PixelOf(k))
    requires forall j :: i < j < |shapes| ==> !Covers(shapes[j], PixelOf(k))
    ensures RenderByte(v, k, shapes) == Channel(shapes[i].color, k % 3)
  {
    if i < |shapes| - 1 {
      RenderLastWins(v, k, shapes[..|shapes| - 1], i);
    }
  }
}
