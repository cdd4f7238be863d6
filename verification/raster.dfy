/**
 * The frame buffers the triangle routines of renderer.c write: a depth
 * buffer and a colour buffer of `WIDTH * HEIGHT` entries each, addressed
 * row by row (pixel (x, y) at `y * WIDTH + x`), and the row-by-row scan of
 * a pixel rectangle that both triangle routines perform.
 */
module Raster {
  import MyMath

  /** The depth and colour stored at one pixel. */
  datatype Pixel = Pixel(depth: real, color: int)

  /** Both frame buffers as values. */
  datatype Frame = Frame(depth: seq<real>, color: seq<int>)

  const ScreenSize: int := MyMath.Width * MyMath.Height

  predicate OnScreen(x: int, y: int)
  {
    0 <= x < MyMath.Width && 0 <= y < MyMath.Height
  }

  /** Where pixel (x, y) lives in a buffer. */
  function Index(x: int, y: int): int
  {
    y * MyMath.Width + x
  }

  /** Every buffer index is the index of exactly one on-screen pixel. */
  lemma IndexOfPixel(k: int)
    requires 0 <= k < ScreenSize
    ensures OnScreen(k % MyMath.Width, k / MyMath.Width)
    ensures Index(k % MyMath.Width, k / MyMath.Width) == k
  {
  }

  /** Every on-screen pixel has exactly one buffer index. */
  lemma PixelOfIndex(x: int, y: int)
    requires OnScreen(x, y)
    ensures 0 <= Index(x, y) < ScreenSize
    ensures Index(x, y) % MyMath.Width == x && Index(x, y) / MyMath.Width == y
  {
  }

  predicate IsFrame(f: Frame)
  {
    |f.depth| == ScreenSize && |f.color| == ScreenSize
  }

  function PixelAt(f: Frame, x: int, y: int): Pixel
    requires IsFrame(f) && OnScreen(x, y)
  {
    Pixel(f.depth[Index(x, y)], f.color[Index(x, y)])
  }

  /** The two buffers, read as one frame. */
  function FrameOf(zBuffer: array<real>, outBuffer: array<int>): Frame
    reads zBuffer, outBuffer
  {
    Frame(zBuffer[..], outBuffer[..])
  }

  lemma FramesEqual(f: Frame, g: Frame)
    requires IsFrame(f) && IsFrame(g)
    requires forall k :: 0 <= k < ScreenSize ==> f.depth[k] == g.depth[k] && f.color[k] == g.color[k]
    ensures f == g
  {
    assert f.depth == g.depth;
    assert f.color == g.color;
  }

  /** Frames that agree on every on-screen pixel are equal. */
  lemma FramesEqualByPixel(f: Frame, g: Frame)
    requires IsFrame(f) && IsFrame(g)
    requires forall x, y :: OnScreen(x, y) ==> PixelAt(f, x, y) == PixelAt(g, x, y)
    ensures f == g
  {
    forall k | 0 <= k < ScreenSize
      ensures f.depth[k] == g.depth[k] && f.color[k] == g.color[k]
    {
      IndexOfPixel(k);
      assert PixelAt(f, k % MyMath.Width, k / MyMath.Width) == PixelAt(g, k % MyMath.Width, k / MyMath.Width);
    }
    FramesEqual(f, g);
  }

  /** `f` with pixel (x, y) replaced by `p`. */
  function SetPixel(f: Frame, x: int, y: int, p: Pixel): (r: Frame)
    requires IsFrame(f) && OnScreen(x, y)
    ensures IsFrame(r) && PixelAt(r, x, y) == p
    ensures forall x', y' :: OnScreen(x', y') && (x', y') != (x, y) ==> PixelAt(r, x', y') == PixelAt(f, x', y')
  {
    PixelOfIndex(x, y);
    var r := Frame(f.depth[Index(x, y) := p.depth], f.color[Index(x, y) := p.color]);
    forall x', y' | OnScreen(x', y') && (x', y') != (x, y)
      ensures PixelAt(r, x', y') == PixelAt(f, x', y')
    {
      PixelOfIndex(x', y');
    }
    r
  }

  /** Writing back what a pixel holds leaves the frame as it was. */
  lemma SetPixelSame(f: Frame, x: int, y: int)
    requires IsFrame(f) && OnScreen(x, y)
    ensures SetPixel(f, x, y, PixelAt(f, x, y)) == f
  {
    FramesEqual(SetPixel(f, x, y, PixelAt(f, x, y)), f);
  }

  /** `g` applied to every pixel, given its coordinates. */
  function MapPixels(g: (int, int, Pixel) -> Pixel, f: Frame): (r: Frame)
    requires IsFrame(f)
    ensures IsFrame(r)
    ensures forall x, y :: OnScreen(x, y) ==> PixelAt(r, x, y) == g(x, y, PixelAt(f, x, y))
  {
    var r := Frame(
      seq(ScreenSize, k requires 0 <= k < ScreenSize =>
        g(k % MyMath.Width, k / MyMath.Width, Pixel(f.depth[k], f.color[k])).depth),
      seq(ScreenSize, k requires 0 <= k < ScreenSize =>
        g(k % MyMath.Width, k / MyMath.Width, Pixel(f.depth[k], f.color[k])).color));
    assert forall x, y :: OnScreen(x, y) ==> PixelAt(r, x, y) == g(x, y, PixelAt(f, x, y)) by {
      forall x, y | OnScreen(x, y)
        ensures PixelAt(r, x, y) == g(x, y, PixelAt(f, x, y))
      {
        PixelOfIndex(x, y);
      }
    }
    r
  }

  /** A per-pixel update that, applied twice, does what it does once. */
  ghost predicate Idempotent(g: (int, int, Pixel) -> Pixel)
  {
    forall x, y, p :: g(x, y, g(x, y, p)) == g(x, y, p)
  }

  /** A per-pixel idempotent update is idempotent on whole frames. */
  lemma {:induction false} MapPixelsIdempotent(g: (int, int, Pixel) -> Pixel, f: Frame)
    requires IsFrame(f) && Idempotent(g)
    ensures MapPixels(g, MapPixels(g, f)) == MapPixels(g, f)
  {
    var h := MapPixels(g, f);
    forall x, y | OnScreen(x, y)
      ensures PixelAt(MapPixels(g, h), x, y) == PixelAt(h, x, y)
    {
      assert g(x, y, g(x, y, PixelAt(f, x, y))) == g(x, y, PixelAt(f, x, y));
    }
    FramesEqualByPixel(MapPixels(g, h), h);
  }

  // ---------------------------------------------------------------------
  // Scanning a rectangle

  /** A clipped pixel rectangle, bounds inclusive; empty when a minimum exceeds its maximum. */
  datatype Box = Box(minx: int, miny: int, maxx: int, maxy: int)

  predicate InBox(b: Box, x: int, y: int)
  {
    b.minx <= x <= b.maxx && b.miny <= y <= b.maxy
  }

  /** `g` touches nothing outside box `b`. */
  ghost predicate KeepsOutside(g: (int, int, Pixel) -> Pixel, b: Box)
  {
    forall x, y, p :: !InBox(b, x, y) ==> g(x, y, p) == p
  }

  /** Pixel (x', y') comes before (x, y) in row-by-row order. */
  predicate Before(x': int, y': int, x: int, y: int)
  {
    y' < y || (y' == y && x' < x)
  }

  /**
   * A scan applying `g` has reached (x, y): every pixel before it holds
   * what `g` makes of it, every other pixel is as in `f0`.
   */
  ghost predicate ScannedUpTo(g: (int, int, Pixel) -> Pixel, f0: Frame, cur: Frame, x: int, y: int)
    requires IsFrame(f0) && IsFrame(cur)
  {
    forall x', y' :: OnScreen(x', y') ==>
      PixelAt(cur, x', y') ==
        if Before(x', y', x, y) then g(x', y', PixelAt(f0, x', y')) else PixelAt(f0, x', y')
  }

  /** Nothing before the first pixel of the box needs changing. */
  lemma ScanStart(g: (int, int, Pixel) -> Pixel, b: Box, f0: Frame)
    requires IsFrame(f0) && KeepsOutside(g, b)
    ensures ScannedUpTo(g, f0, f0, b.minx, b.miny)
  {
    forall x', y' | OnScreen(x', y') && Before(x', y', b.minx, b.miny)
      ensures g(x', y', PixelAt(f0, x', y')) == PixelAt(f0, x', y')
    {
      assert !InBox(b, x', y');
    }
  }

  /** Updating pixel (x, y) moves the scan on by one pixel. */
  lemma ScanStep(g: (int, int, Pixel) -> Pixel, f0: Frame, cur: Frame, x: int, y: int)
    requires IsFrame(f0) && IsFrame(cur)
    requires OnScreen(x, y) && ScannedUpTo(g, f0, cur, x, y)
    ensures PixelAt(cur, x, y) == PixelAt(f0, x, y)
    ensures ScannedUpTo(g, f0, SetPixel(cur, x, y, g(x, y, PixelAt(f0, x, y))), x + 1, y)
  {
  }

  /** From the end of one row of the box to the start of the next. */
  lemma ScanNextRow(g: (int, int, Pixel) -> Pixel, b: Box, f0: Frame, cur: Frame, x: int, y: int)
    requires IsFrame(f0) && IsFrame(cur) && KeepsOutside(g, b)
    requires x > b.maxx && ScannedUpTo(g, f0, cur, x, y)
    ensures ScannedUpTo(g, f0, cur, b.minx, y + 1)
  {
    forall x', y' | OnScreen(x', y') && Before(x', y', b.minx, y + 1) && !Before(x', y', x, y)
      ensures g(x', y', PixelAt(f0, x', y')) == PixelAt(f0, x', y')
    {
      assert !InBox(b, x', y');
    }
  }

  /** Past the last row of the box, or for an empty box, the scan has mapped the whole frame. */
  lemma ScanEnd(g: (int, int, Pixel) -> Pixel, b: Box, f0: Frame, cur: Frame, x: int, y: int)
    requires IsFrame(f0) && IsFrame(cur) && KeepsOutside(g, b)
    requires y > b.maxy || b.minx > b.maxx
    requires ScannedUpTo(g, f0, cur, x, y)
    ensures cur == MapPixels(g, f0)
  {
    forall x', y' | OnScreen(x', y')
      ensures PixelAt(cur, x', y') == PixelAt(MapPixels(g, f0), x', y')
    {
      if !Before(x', y', x, y) {
        assert !InBox(b, x', y');
      }
    }
    FramesEqualByPixel(cur, MapPixels(g, f0));
  }
}
