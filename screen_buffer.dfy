/** `ScreenBuffer`: a `width*height` array of 32-bit ARGB words, updated in
    place by `cleanScreen`, `putPixel` and `drawLine`. */
module Screen {
  import opened Numeric
  import opened Geometry
  import opened Raster

  class ScreenBuffer {
    const width: int
    const height: int
    /** `m_data`: row-major cells, pixel (x, y) at `x + y*width`. */
    const data: array<Int32>

    ghost predicate Valid() {
      0 <= width && 0 <= height && data.Length == width * height
    }

    /** Allocates exactly `width*height` cells, all zero (`resize`
        value-initialises). */
    constructor (width: int, height: int)
      requires 0 <= width && 0 <= height
      ensures Valid() && fresh(data)
      ensures this.width == width && this.height == height
      ensures forall k :: 0 <= k < data.Length ==> data[k] == 0
    {
      this.width := width;
      this.height := height;
      data := new Int32[width * height](_ => 0);
    }

    /** `cleanScreen`: every cell becomes `color` (opaque black by default).
        The new contents do not depend on the old ones, so cleaning twice
        with one colour is cleaning once. */
    method CleanScreen(color: Int32 := OpaqueBlack)
      requires Valid()
      modifies data
      ensures forall k :: 0 <= k < data.Length ==> data[k] == color
    {
      for i := 0 to data.Length
        invariant forall k :: 0 <= k < i ==> data[k] == color
      {
        data[i] := color;
      }
    }

    /** `putPixel(x, y, argb)`: asserts the pixel is on screen, then sets its
        cell, and only that cell, to `argb`. */
    method PutPixel(x: int, y: int, argb: Int32)
      requires Valid() && InBounds(Point(x, y), width, height)
      modifies data
      ensures 0 <= CellIndex(Point(x, y), width) < data.Length
      ensures data[..] == old(data[..])[CellIndex(Point(x, y), width) := argb]
    {
      CellIndexInRange(Point(x, y), width, height);
      data[x + y * width] := argb;
    }

    /** `putPixel(point, color)`. */
    method PutPixelAt(point: PointInt32, color: Int32)
      requires Valid() && InBounds(point, width, height)
      modifies data
      ensures 0 <= CellIndex(point, width) < data.Length
      ensures data[..] == old(data[..])[CellIndex(point, width) := color]
    {
      PutPixel(point.x, point.y, color);
    }

    /** `drawLine(x1, y1, x2, y2, argb)`: puts `argb` at every pixel of
        `LinePixels(x1, y1, x2, y2)`, in order, and changes nothing else. The
        caller must keep every visited pixel on screen (`putPixel` asserts it);
        `LineInBoundsExactly` says what that demands of the endpoints. */
    method DrawLine(x1: int, y1: int, x2: int, y2: int, argb: Int32)
      requires Valid() && LineInBounds(x1, y1, x2, y2, width, height)
      modifies data
      ensures AllInBounds(LinePixels(x1, y1, x2, y2), width, height)
      ensures data[..] == Paint(old(data[..]), width, height, LinePixels(x1, y1, x2, y2), argb)
    {
      if x1 == x2 {
        DrawVertical(x1, y1, x2, y2, argb);
        return;
      }
      if y1 == y2 {
        DrawHorizontal(x1, y1, x2, y2, argb);
        return;
      }
      var ax := Slope(y1 - y2, x1 - x2);
      var ay := Slope(x1 - x2, y1 - y2);
      if Abs(ax) < Abs(ay) {
        DrawAlongX(x1, y1, x2, y2, ax, argb);
      } else {
        DrawAlongY(x1, y1, x2, y2, ay, argb);
      }
    }

    /** The `x1 == x2` branch of `drawLine`: order the endpoints by y, then
        put (x1, y) for y from the lower end up to, not including, the upper. */
    method DrawVertical(x1: int, y1: int, x2: int, y2: int, argb: Int32)
      requires Valid() && LineInBounds(x1, y1, x2, y2, width, height)
      requires x1 == x2
      modifies data
      ensures AllInBounds(LinePixels(x1, y1, x2, y2), width, height)
      ensures data[..] == Paint(old(data[..]), width, height, LinePixels(x1, y1, x2, y2), argb)
    {
      ghost var ps := LinePixels(x1, y1, x2, y2);
      ghost var frame := data[..];
      assert AllInBounds(ps, width, height);
      var xa, ya, xb, yb := x1, y1, x2, y2;
      if ya > yb {
        xa, xb := xb, xa;
        ya, yb := yb, ya;
      }
      var y := ya;
      while y < yb
        invariant ya <= y <= yb
        invariant data[..] == Paint(frame, width, height, ps[..y - ya], argb)
      {
        assert ps[y - ya] == Point(xa, y);
        PaintStep(frame, width, height, ps, y - ya, argb);
        PutPixel(xa, y, argb);
        y := y + 1;
      }
      assert ps[..yb - ya] == ps;
    }

    /** The `y1 == y2` branch of `drawLine`: order the endpoints by x, then
        put (x, y1) for x from the left end up to, not including, the right. */
    method DrawHorizontal(x1: int, y1: int, x2: int, y2: int, argb: Int32)
      requires Valid() && LineInBounds(x1, y1, x2, y2, width, height)
      requires x1 != x2 && y1 == y2
      modifies data
      ensures AllInBounds(LinePixels(x1, y1, x2, y2), width, height)
      ensures data[..] == Paint(old(data[..]), width, height, LinePixels(x1, y1, x2, y2), argb)
    {
      ghost var ps := LinePixels(x1, y1, x2, y2);
      ghost var frame := data[..];
      assert AllInBounds(ps, width, height);
      var xa, ya, xb, yb := x1, y1, x2, y2;
      if xa > xb {
        xa, xb := xb, xa;
        ya, yb := yb, ya;
      }
      var x := xa;
      while x < xb
        invariant xa <= x <= xb
        invariant data[..] == Paint(frame, width, height, ps[..x - xa], argb)
      {
        assert ps[x - xa] == Point(x, ya);
        PaintStep(frame, width, height, ps, x - xa, argb);
        PutPixel(x, ya, argb);
        x := x + 1;
      }
      assert ps[..xb - xa] == ps;
    }

    /** The `fabs(ax) < fabs(ay)` branch of `drawLine`: order the endpoints by
        x, fix the intercept by the right end, and put (x, (int)(ax*x + b)) for
        every x from the left end to the right end inclusive. */
    method DrawAlongX(x1: int, y1: int, x2: int, y2: int, ax: real, argb: Int32)
      requires Valid() && LineInBounds(x1, y1, x2, y2, width, height)
      requires x1 != x2 && y1 != y2 && ax == Slope(y1 - y2, x1 - x2)
      requires Abs(ax) < Abs(Slope(x1 - x2, y1 - y2))
      modifies data
      ensures AllInBounds(LinePixels(x1, y1, x2, y2), width, height)
      ensures data[..] == Paint(old(data[..]), width, height, LinePixels(x1, y1, x2, y2), argb)
    {
      ghost var ps := LinePixels(x1, y1, x2, y2);
      assert AllInBounds(ps, width, height);
      var xa, ya, xb, yb := x1, y1, x2, y2;
      if xa > xb {
        xa, xb := xb, xa;
        ya, yb := yb, ya;
      }
      assert ps == WalkX(xa, xb, yb, ax);
      WalkAlongX(xa, xb, yb, ax, argb);
    }

    /** The loop of the x-walking branch, after the swap: with b = yb - ax*xb,
        put (x, (int)(ax*x + b)) for x from xa to xb inclusive. */
    method WalkAlongX(xa: int, xb: int, yb: int, ax: real, argb: Int32)
      requires Valid() && xa <= xb && AllInBounds(WalkX(xa, xb, yb, ax), width, height)
      modifies data
      ensures data[..] == Paint(old(data[..]), width, height, WalkX(xa, xb, yb, ax), argb)
    {
      ghost var ps := WalkX(xa, xb, yb, ax);
      ghost var frame := data[..];
      var b := yb as real - ax * xb as real;
      var x := xa;
      while x <= xb
        invariant xa <= x <= xb + 1
        invariant data[..] == Paint(frame, width, height, ps[..x - xa], argb)
      {
        var y := LineAt(ax, b, x);
        WalkXIndex(xa, xb, yb, ax, x);
        PaintStep(frame, width, height, ps, x - xa, argb);
        PutPixel(x, y, argb);
        x := x + 1;
      }
      assert ps[..xb + 1 - xa] == ps;
    }

    /** The other diagonal branch of `drawLine`: order the endpoints by y, fix
        the intercept by the end with the larger y, and put ((int)(ay*y + b), y)
        for every y from the smaller end to the larger end inclusive. */
    method DrawAlongY(x1: int, y1: int, x2: int, y2: int, ay: real, argb: Int32)
      requires Valid() && LineInBounds(x1, y1, x2, y2, width, height)
      requires x1 != x2 && y1 != y2 && ay == Slope(x1 - x2, y1 - y2)
      requires !(Abs(Slope(y1 - y2, x1 - x2)) < Abs(ay))
      modifies data
      ensures AllInBounds(LinePixels(x1, y1, x2, y2), width, height)
      ensures data[..] == Paint(old(data[..]), width, height, LinePixels(x1, y1, x2, y2), argb)
    {
      ghost var ps := LinePixels(x1, y1, x2, y2);
      assert AllInBounds(ps, width, height);
      var xa, ya, xb, yb := x1, y1, x2, y2;
      if ya > yb {
        xa, xb := xb, xa;
        ya, yb := yb, ya;
      }
      assert ps == WalkY(ya, yb, xb, ay);
      WalkAlongY(ya, yb, xb, ay, argb);
    }

    /** The loop of the y-walking branch, after the swap: with b = xb - ay*yb,
        put ((int)(ay*y + b), y) for y from ya to yb inclusive. */
    method WalkAlongY(ya: int, yb: int, xb: int, ay: real, argb: Int32)
      requires Valid() && ya <= yb && AllInBounds(WalkY(ya, yb, xb, ay), width, height)
      modifies data
      ensures data[..] == Paint(old(data[..]), width, height, WalkY(ya, yb, xb, ay), argb)
    {
      ghost var ps := WalkY(ya, yb, xb, ay);
      ghost var frame := data[..];
      var b := xb as real - ay * yb as real;
      var y := ya;
      while y <= yb
        invariant ya <= y <= yb + 1
        invariant data[..] == Paint(frame, width, height, ps[..y - ya], argb)
      {
        var x := LineAt(ay, b, y);
        WalkYIndex(ya, yb, xb, ay, y);
        PaintStep(frame, width, height, ps, y - ya, argb);
        PutPixel(x, y, argb);
        y := y + 1;
      }
      assert ps[..yb + 1 - ya] == ps;
    }

    /** `drawLine(point1, point2, argb)`. */
    method DrawLineBetween(point1: PointInt32, point2: PointInt32, argb: Int32)
      requires Valid() && LineInBounds(point1.x, point1.y, point2.x, point2.y, width, height)
      modifies data
      ensures AllInBounds(LinePixels(point1.x, point1.y, point2.x, point2.y), width, height)
      ensures data[..] == Paint(old(data[..]), width, height, LinePixels(point1.x, point1.y, point2.x, point2.y), argb)
    {
      DrawLine(point1.x, point1.y, point2.x, point2.y, argb);
    }

    /** `getWidth`: the row length, so the buffer holds `GetWidth()` cells per row. */
    function GetWidth(): (w: int)
      requires Valid()
      ensures w == width && 0 <= w && w * height == data.Length
    {
      width
    }

    /** `getHeight`: the number of rows, so the buffer holds `GetHeight()` rows. */
    function GetHeight(): (h: int)
      requires Valid()
      ensures h == height && 0 <= h && width * h == data.Length
    {
      height
    }
  }
}
