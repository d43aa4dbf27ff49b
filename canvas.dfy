/**
 * The image buffer and the drawing primitives of the image generator. Every
 * primitive writes through SetPixel, which drops pixels outside the canvas;
 * each one is specified by the region of Shapes it paints: the bytes of the
 * pixels in the region take the colour, every other byte keeps its value.
 */
module Drawing {
  import opened Raster
  import opened Shapes

  class Canvas {
    /** The row-major RGB buffer (`image_data`). */
    const data: array<byte>

    predicate Valid() {
      data.Length == BufferSize
    }

    /** The white background: a buffer of width * height * 3 bytes, all 255. */
    constructor ()
      ensures Valid() && fresh(data)
      ensures forall k :: 0 <= k < data.Length ==> data[k] == 255
    {
      var buf := new byte[BufferSize];
      var i := 0;
      while i < buf.Length
        invariant 0 <= i <= buf.Length
        invariant forall k :: 0 <= k < i ==> buf[k] == 255
      {
        buf[i] := 255;
        i := i + 1;
      }
      data := buf;
    }

    /** The bounds-checked write of one pixel that every primitive performs. */
    method SetPixel(px: int, py: int, c: Rgb)
      requires Valid()
      modifies data
      ensures forall k :: 0 <= k < data.Length ==>
        data[k] == if PixelOf(k) == (px, py) then Channel(c, k % 3) else old(data[k])
      ensures !InBounds((px, py)) ==> data[..] == old(data[..])
    {
      if px >= 0 && px < Width && py >= 0 && py < Height {
        PixelIndexInBuffer(px, py);
        var index := PixelIndex(px, py);
        data[index] := c.r;
        data[index + 1] := c.g;
        data[index + 2] := c.b;
        forall k | 0 <= k < data.Length
          ensures data[k] == if PixelOf(k) == (px, py) then Channel(c, k % 3) else old(data[k])
        {
          PixelOfIndex(px, py, k);
        }
      } else {
        forall k | 0 <= k < data.Length ensures PixelOf(k) != (px, py) {
          PixelOfInBounds(k);
        }
      }
    }

    /** The square brush of drawLine: offsets -half..half on both axes around (cx, cy). */
    method PaintBrush(cx: int, cy: int, half: int, c: Rgb)
      requires Valid()
      modifies data
      ensures forall k :: 0 <= k < data.Length ==>
        data[k] == if InBrush((cx, cy), half, PixelOf(k)) then Channel(c, k % 3) else old(data[k])
    {
      var tx := -half;
      while tx <= half
        invariant -half <= tx && (tx <= half + 1 || tx == -half)
        invariant forall k :: 0 <= k < data.Length ==>
          data[k] == if cx - half <= PixelOf(k).0 < cx + tx && cy - half <= PixelOf(k).1 <= cy + half
                     then Channel(c, k % 3) else old(data[k])
      {
        var ty := -half;
        while ty <= half
          invariant -half <= ty <= half + 1
          invariant forall k :: 0 <= k < data.Length ==>
            data[k] == if (cx - half <= PixelOf(k).0 < cx + tx && cy - half <= PixelOf(k).1 <= cy + half) ||
                          (PixelOf(k).0 == cx + tx && cy - half <= PixelOf(k).1 < cy + ty)
                       then Channel(c, k % 3) else old(data[k])
        {
          SetPixel(cx + tx, cy + ty, c);
          ty := ty + 1;
        }
        tx := tx + 1;
      }
    }

    /**
     * One brush stamp of drawLine's loop: the bytes covered by the brushes
     * painted so far (`done`) and by the new one at (x, y) carry the colour,
     * the rest keep their value in `orig`.
     */
    method PaintNext(ghost orig: seq<byte>, ghost done: seq<Point>, x: int, y: int, half: int, c: Rgb)
      requires Valid() && |orig| == data.Length
      requires forall k :: 0 <= k < data.Length ==>
        data[k] == if BrushCovers(done, half, PixelOf(k)) then Channel(c, k % 3) else orig[k]
      modifies data
      ensures forall k :: 0 <= k < data.Length ==>
        data[k] == if BrushCovers(done + [(x, y)], half, PixelOf(k)) then Channel(c, k % 3) else orig[k]
    {
      PaintBrush(x, y, half, c);
      assert (done + [(x, y)])[..|done|] == done;
    }

    /** The error-term update of drawLine's loop body. */
    static method BresenhamStep(x: int, y: int, err: int, dx: int, dy: int, sx: int, sy: int, ghost r: Run)
      returns (x': int, y': int, err': int)
      requires r.dx == dx && r.dy == dy && r.sx == sx && r.sy == sy
      ensures Cursor(x', y', err') == Step(Cursor(x, y, err), r)
    {
      x', y', err' := x, y, err;
      var e2 := 2 * err;
      if e2 > -dy {
        err' := err' - dy;
        x' := x' + sx;
      }
      if e2 < dx {
        err' := err' + dx;
        y' := y' + sy;
      }
    }

    /**
     * drawLine: integer Bresenham from (x1, y1) to (x2, y2), painting a
     * thickness x thickness square brush at every visited pixel.
     */
    method DrawLine(x1: int, y1: int, x2: int, y2: int, c: Rgb, thickness: int)
      requires Valid()
      modifies data
      ensures forall k :: 0 <= k < data.Length ==>
        data[k] == if LineCovers(x1, y1, x2, y2, thickness, PixelOf(k)) then Channel(c, k % 3) else old(data[k])
    {
      var dx: int := Abs(x2 - x1);
      var dy: int := Abs(y2 - y1);
      var sx := if x1 < x2 then 1 else -1;
      var sy := if y1 < y2 then 1 else -1;
      var err := dx - dy;
      // C++ `-thickness/2` is `(-thickness)/2`, which truncation makes `-(thickness/2)`.
      var half := Half(thickness);
      var x, y := x1, y1;
      ghost var orig := data[..];
      ghost var run := Run(x2, y2, dx, dy, sx, sy);
      ghost var cur := Cursor(x, y, err);
      ghost var done: seq<Point> := [];
      ghost var pts := LinePoints(x1, y1, x2, y2);
      StartKeepsInv(x1, y1, x2, y2);
      while true
        invariant Valid() && |orig| == data.Length && cur == Cursor(x, y, err)
        invariant run == Run(x2, y2, dx, dy, sx, sy) && RunInv(cur, run) && pts == done + Trace(cur, run)
        invariant forall k :: 0 <= k < data.Length ==>
          data[k] == if BrushCovers(done, half, PixelOf(k)) then Channel(c, k % 3) else orig[k]
        decreases Remaining(cur, run)
      {
        PaintNext(orig, done, x, y, half, c);
        if x == x2 && y == y2 {
          done := done + [(x, y)];
          break;
        }
        TraceAdvance(pts, done, cur, run);
        done := done + [(x, y)];
        x, y, err := BresenhamStep(x, y, err, dx, dy, sx, sy, run);
        cur := Step(cur, run);
      }
      assert done == pts;
    }

    /**
     * drawRectangle: the filled rectangle [x, x+width) x [y, y+height), or its
     * outline of four independently clipped runs.
     */
    method DrawRectangle(x: int, y: int, width: int, height: int, c: Rgb, fill: bool)
      requires Valid()
      modifies data
      ensures forall k :: 0 <= k < data.Length ==>
        data[k] == if RectCovers(x, y, width, height, fill, PixelOf(k)) then Channel(c, k % 3) else old(data[k])
    {
      if fill {
        var py := y;
        while py < y + height
          invariant y <= py && (py <= y + height || py == y)
          invariant forall k :: 0 <= k < data.Length ==>
            data[k] == if x <= PixelOf(k).0 < x + width && y <= PixelOf(k).1 < py
                       then Channel(c, k % 3) else old(data[k])
        {
          var px := x;
          while px < x + width
            invariant x <= px && (px <= x + width || px == x)
            invariant forall k :: 0 <= k < data.Length ==>
              data[k] == if (x <= PixelOf(k).0 < x + width && y <= PixelOf(k).1 < py) ||
                            (PixelOf(k).1 == py && x <= PixelOf(k).0 < px)
                         then Channel(c, k % 3) else old(data[k])
          {
            SetPixel(px, py, c);
            px := px + 1;
          }
          py := py + 1;
        }
      } else {
        // Top and bottom edges.
        var px := x;
        while px < x + width
          invariant x <= px && (px <= x + width || px == x)
          invariant forall k :: 0 <= k < data.Length ==>
            data[k] == if (PixelOf(k).1 == y || PixelOf(k).1 == y + height - 1) && x <= PixelOf(k).0 < px
                       then Channel(c, k % 3) else old(data[k])
        {
          SetPixel(px, y, c);
          SetPixel(px, y + height - 1, c);
          px := px + 1;
        }
        // Left and right edges.
        var py := y;
        while py < y + height
          invariant y <= py && (py <= y + height || py == y)
          invariant forall k :: 0 <= k < data.Length ==>
            data[k] == if ((PixelOf(k).1 == y || PixelOf(k).1 == y + height - 1) && x <= PixelOf(k).0 < x + width) ||
                          ((PixelOf(k).0 == x || PixelOf(k).0 == x + width - 1) && y <= PixelOf(k).1 < py)
                       then Channel(c, k % 3) else old(data[k])
        {
          SetPixel(x, py, c);
          SetPixel(x + width - 1, py, c);
          py := py + 1;
        }
      }
    }

    /** drawSquare: the size x size rectangle whose top-left corner is (x - size/2, y - size/2). */
    method DrawSquare(x: int, y: int, size: int, c: Rgb, fill: bool)
      requires Valid()
      modifies data
      ensures forall k :: 0 <= k < data.Length ==>
        data[k] == if Covers(Square(x, y, size, c, fill), PixelOf(k)) then Channel(c, k % 3) else old(data[k])
    {
      DrawRectangle(x - Half(size), y - Half(size), size, size, c, fill);
    }

    /** drawTriangle: the right-pointing triangle centred on (x, y). */
    method DrawTriangle(x: int, y: int, size: int, c: Rgb)
      requires Valid()
      modifies data
      ensures forall k :: 0 <= k < data.Length ==>
        data[k] == if TriangleCovers(x, y, size, PixelOf(k)) then Channel(c, k % 3) else old(data[k])
    {
      var h := Half(size);
      var py := y - h;
      while py <= y + h
        invariant y - h <= py && (py <= y + h + 1 || py == y - h)
        invariant forall k :: 0 <= k < data.Length ==>
          data[k] == if TriangleCovers(x, y, size, PixelOf(k)) && PixelOf(k).1 < py
                     then Channel(c, k % 3) else old(data[k])
      {
        var px := x - h;
        while px <= x + h
          invariant x - h <= px && (px <= x + h + 1 || px == x - h)
          invariant forall k :: 0 <= k < data.Length ==>
            data[k] == if TriangleCovers(x, y, size, PixelOf(k)) &&
                          (PixelOf(k).1 < py || (PixelOf(k).1 == py && PixelOf(k).0 < px))
                       then Channel(c, k % 3) else old(data[k])
        {
          var dx := px - x;
          var dy := py - y;
          if dx >= -h && dx <= h && Abs(dy) <= h - Abs(dx) && dx >= 0 {
            SetPixel(px, py, c);
          }
          px := px + 1;
        }
        py := py + 1;
      }
    }

    /** One shape of a diagram, drawn by the primitive it names. */
    method Draw(s: Shape)
      requires Valid()
      modifies data
      ensures forall k :: 0 <= k < data.Length ==> data[k] == PaintByte(old(data[k]), k, s)
    {
      match s
      case Line(x1, y1, x2, y2, c, t) => DrawLine(x1, y1, x2, y2, c, t);
      case Rectangle(x, y, w, h, c, f) => DrawRectangle(x, y, w, h, c, f);
      case Square(x, y, n, c, f) => DrawSquare(x, y, n, c, f);
      case Triangle(x, y, n, c) => DrawTriangle(x, y, n, c);
    }
  }
}
