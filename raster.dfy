/**
 * The raster layout shared by every drawing primitive of the image generator:
 * an 800 x 600 canvas stored row-major, three bytes (R, G, B) per pixel.
 */
module Raster {

  /** imageWidth_ and imageHeight_, fixed once by the generator's constructor. */
  const Width: int := 800
  const Height: int := 600
  /** Length of the RGB buffer (width * height * 3 bytes). */
  const BufferSize: int := Width * Height * 3

  /** C++ `unsigned char`. */
  type byte = x: int | 0 <= x < 256

  datatype Rgb = Rgb(r: byte, g: byte, b: byte)

  const Black: Rgb := Rgb(0, 0, 0)
  const Green: Rgb := Rgb(0, 255, 0)
  const Blue: Rgb := Rgb(0, 0, 255)

  /** A pixel position (column, row); it may lie outside the canvas. */
  type Point = (int, int)

  function Abs(n: int): nat {
    if n < 0 then -n else n
  }

  function Max(a: int, b: int): int {
    if a < b then b else a
  }

  /**
   * C++ `a / 2` on `int`: the quotient truncated toward zero (Dafny's own `/`
   * is Euclidean and rounds -1 / 2 down to -1).
   */
  function Half(a: int): (q: int)
    ensures a >= 0 ==> 0 <= a - 2 * q <= 1
    ensures a < 0 ==> -1 <= a - 2 * q <= 0
  {
    if a >= 0 then a / 2 else -((-a) / 2)
  }

  /** The channel `i` (0 = red, 1 = green, 2 = blue) of a colour. */
  function Channel(c: Rgb, i: int): byte {
    if i == 0 then c.r else if i == 1 then c.g else c.b
  }

  /** The bounds test every primitive performs before writing a pixel. */
  predicate InBounds(p: Point) {
    0 <= p.0 < Width && 0 <= p.1 < Height
  }

  /** `(py * imageWidth_ + px) * 3`: the index of the red byte of pixel (px, py). */
  function PixelIndex(px: int, py: int): int {
    (py * Width + px) * 3
  }

  /** The pixel whose three bytes include buffer index `k`. */
  function PixelOf(k: int): Point {
    ((k / 3) % Width, (k / 3) / Width)
  }

  /** The three bytes of an in-bounds pixel lie inside the buffer. */
  lemma PixelIndexInBuffer(px: int, py: int)
    requires InBounds((px, py))
    ensures 0 <= PixelIndex(px, py) && PixelIndex(px, py) + 2 < BufferSize
  {
  }

  /** Every byte of the buffer belongs to an in-bounds pixel. */
  lemma PixelOfInBounds(k: int)
    requires 0 <= k < BufferSize
    ensures InBounds(PixelOf(k))
  {
  }

  /**
   * Buffer index `k` belongs to pixel (px, py) exactly when it is one of that
   * pixel's three bytes, and then `k % 3` names the channel.
   */
  lemma PixelOfIndex(px: int, py: int, k: int)
    requires InBounds((px, py)) && 0 <= k < BufferSize
    ensures PixelOf(k) == (px, py) <==> PixelIndex(px, py) <= k < PixelIndex(px, py) + 3
    ensures PixelOf(k) == (px, py) ==> k % 3 == k - PixelIndex(px, py)
  {
    var q := k / 3;
    assert k == 3 * q + k % 3;
    assert q == (q / Width) * Width + q % Width;
    if PixelOf(k) == (px, py) {
      assert q == py * Width + px;
    }
    if PixelIndex(px, py) <= k < PixelIndex(px, py) + 3 {
      assert q == py * Width + px;
    }
  }
}
