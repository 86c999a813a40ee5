/** The pixel-level specification of `ScreenBuffer`: how a pixel maps to a
    cell of the flat `width*height` buffer, which pixels `drawLine` visits and
    in which order, and what painting a list of pixels does to the buffer. */
module Raster {
  import opened Numeric
  import opened Geometry

  /** The bounds `putPixel` asserts. */
  predicate InBounds(p: PointInt32, width: int, height: int) {
    0 <= p.x < width && 0 <= p.y < height
  }

  /** The cell `putPixel` writes: row-major, `x + y*width`. */
  function CellIndex(p: PointInt32, width: int): int {
    p.x + p.y * width
  }

  /** Every on-screen pixel has a cell inside the `width*height` buffer. */
  lemma CellIndexInRange(p: PointInt32, width: int, height: int)
    requires InBounds(p, width, height)
    ensures 0 <= CellIndex(p, width) < width * height
  {
    assert p.y * width <= (height - 1) * width by {
      MulMonotoneInt(p.y, height - 1, width);
    }
  }

  /** Two on-screen pixels share a cell only if they are the same pixel. */
  lemma CellIndexInjective(p: PointInt32, q: PointInt32, width: int, height: int)
    requires InBounds(p, width, height) && InBounds(q, width, height)
    requires CellIndex(p, width) == CellIndex(q, width)
    ensures p == q
  {
    if p.y < q.y {
      MulMonotoneInt(p.y + 1, q.y, width);
      assert false;
    } else if q.y < p.y {
      MulMonotoneInt(q.y + 1, p.y, width);
      assert false;
    }
  }

  lemma MulMonotoneInt(a: int, b: int, c: int)
    requires a <= b && 0 <= c
    ensures a * c <= b * c
  {
  }

  /** The four walks of `drawLine`. */
  datatype Walk = Vertical | Horizontal | AlongX | AlongY

  /** `float(d1)/d2`: a slope of the line, computed over the reals. */
  function Slope(d1: int, d2: int): real
    requires d2 != 0
  {
    d1 as real / d2 as real
  }

  /** Which walk `drawLine` takes: vertical when x1 == x2, horizontal when
      y1 == y2, otherwise along x when |ax| < |ay| for the slopes
      ax = dy/dx and ay = dx/dy, and along y otherwise. */
  function LineWalk(x1: int, y1: int, x2: int, y2: int): Walk {
    if x1 == x2 then Vertical
    else if y1 == y2 then Horizontal
    else if Abs(Slope(y1 - y2, x1 - x2)) < Abs(Slope(x1 - x2, y1 - y2)) then AlongX
    else AlongY
  }

  /** The pixels `drawLine(x1, y1, x2, y2)` passes to `putPixel`, in order.
      Endpoints are first ordered along the walked axis. The vertical and
      horizontal walks stop before the far end (`<`); the diagonal walks
      include it (`<=`) and compute the other coordinate from the line
      through the (ordered) far endpoint, truncated toward zero. */
  function LinePixels(x1: int, y1: int, x2: int, y2: int): (ps: seq<PointInt32>)
    ensures LineWalk(x1, y1, x2, y2) == Vertical ==> |ps| == AbsInt(y2 - y1)
    ensures LineWalk(x1, y1, x2, y2) == Horizontal ==> |ps| == AbsInt(x2 - x1)
    ensures LineWalk(x1, y1, x2, y2) == AlongX ==> |ps| == AbsInt(x2 - x1) + 1
    ensures LineWalk(x1, y1, x2, y2) == AlongY ==> |ps| == AbsInt(y2 - y1) + 1
  {
    match LineWalk(x1, y1, x2, y2)
    case Vertical =>
      var lo, hi := Min(y1, y2), Max(y1, y2);
      seq(hi - lo, i => Point(x1, lo + i))
    case Horizontal =>
      var lo, hi := Min(x1, x2), Max(x1, x2);
      seq(hi - lo, i => Point(lo + i, y1))
    case AlongX =>
      var ax := Slope(y1 - y2, x1 - x2);
      if x1 > x2 then WalkX(x2, x1, y1, ax) else WalkX(x1, x2, y2, ax)
    case AlongY =>
      var ay := Slope(x1 - x2, y1 - y2);
      if y1 > y2 then WalkY(y2, y1, x1, ay) else WalkY(y1, y2, x2, ay)
  }

  /** The dependent coordinate of a diagonal walk at t: `static_cast<int32_t>(slope*t + b)`. */
  function LineAt(slope: real, b: real, t: int): int {
    Trunc(slope * t as real + b)
  }

  /** The diagonal walk along x from xa to xb inclusive: with the intercept
      b = yb - ax*xb fixed by the far end (xb, yb), column x gets row
      (int)(ax*x + b). */
  function WalkX(xa: int, xb: int, yb: int, ax: real): seq<PointInt32>
    requires xa <= xb
  {
    var b := yb as real - ax * xb as real;
    seq(xb - xa + 1, i => Point(xa + i, LineAt(ax, b, xa + i)))
  }

  /** The diagonal walk along y from ya to yb inclusive: with the intercept
      b = xb - ay*yb fixed by the far end (xb, yb), row y gets column
      (int)(ay*y + b). */
  function WalkY(ya: int, yb: int, xb: int, ay: real): seq<PointInt32>
    requires ya <= yb
  {
    var b := xb as real - ay * yb as real;
    seq(yb - ya + 1, i => Point(LineAt(ay, b, ya + i), ya + i))
  }

  /** Every pixel `drawLine` visits satisfies `putPixel`'s bounds assertions. */
  predicate LineInBounds(x1: int, y1: int, x2: int, y2: int, width: int, height: int) {
    forall i :: 0 <= i < |LinePixels(x1, y1, x2, y2)| ==> InBounds(LinePixels(x1, y1, x2, y2)[i], width, height)
  }

  /** Every pixel of a list is on screen. */
  predicate AllInBounds(pixels: seq<PointInt32>, width: int, height: int) {
    forall i :: 0 <= i < |pixels| ==> InBounds(pixels[i], width, height)
  }

  /** The buffer after `putPixel(p, argb)` for every p of `pixels`, in order. */
  function Paint(frame: seq<Int32>, width: int, height: int, pixels: seq<PointInt32>, argb: Int32): (r: seq<Int32>)
    requires |frame| == width * height
    requires AllInBounds(pixels, width, height)
    ensures |r| == |frame|
    decreases |pixels|
  {
    if pixels == [] then frame
    else
      var last := pixels[|pixels| - 1];
      CellIndexInRange(last, width, height);
      Paint(frame, width, height, pixels[..|pixels| - 1], argb)[CellIndex(last, width) := argb]
  }

  /** Painting writes `argb` into the cell of exactly the pixels it is given
      and leaves the cell of every other on-screen pixel as it was. */
  lemma {:induction false} PaintPixel(frame: seq<Int32>, width: int, height: int, pixels: seq<PointInt32>, argb: Int32, q: PointInt32)
    requires |frame| == width * height
    requires AllInBounds(pixels, width, height)
    requires InBounds(q, width, height)
    ensures 0 <= CellIndex(q, width) < |frame|
    ensures Paint(frame, width, height, pixels, argb)[CellIndex(q, width)] ==
      if q in pixels then argb else frame[CellIndex(q, width)]
  {
    CellIndexInRange(q, width, height);
    if pixels != [] {
      var init, last := pixels[..|pixels| - 1], pixels[|pixels| - 1];
      assert pixels == init + [last];
      PaintPixel(frame, width, height, init, argb, q);
      if CellIndex(last, width) == CellIndex(q, width) {
        CellIndexInjective(last, q, width, height);
      }
    }
  }

  /** Every cell after painting holds either `argb` or its old value. */
  lemma {:induction false} PaintOnlyWritesColour(frame: seq<Int32>, width: int, height: int, pixels: seq<PointInt32>, argb: Int32, k: int)
    requires |frame| == width * height
    requires AllInBounds(pixels, width, height)
    requires 0 <= k < |frame|
    ensures Paint(frame, width, height, pixels, argb)[k] in {argb, frame[k]}
  {
    if pixels != [] {
      PaintOnlyWritesColour(frame, width, height, pixels[..|pixels| - 1], argb, k);
    }
  }

  /** Painting one list and then another is painting their concatenation. */
  lemma {:induction false} PaintConcat(frame: seq<Int32>, width: int, height: int, ps: seq<PointInt32>, qs: seq<PointInt32>, argb: Int32)
    requires |frame| == width * height
    requires AllInBounds(ps, width, height) && AllInBounds(qs, width, height)
    ensures AllInBounds(ps + qs, width, height)
    ensures Paint(frame, width, height, ps + qs, argb) ==
      Paint(Paint(frame, width, height, ps, argb), width, height, qs, argb)
    decreases |qs|
  {
    if qs != [] {
      var init := qs[..|qs| - 1];
      assert (ps + qs)[..|ps + qs| - 1] == ps + init;
      PaintConcat(frame, width, height, ps, init, argb);
    } else {
      assert ps + qs == ps;
    }
  }

  /** Painting the pixels of a list up to one more: the step of a drawing loop. */
  lemma PaintStep(frame: seq<Int32>, width: int, height: int, pixels: seq<PointInt32>, n: nat, argb: Int32)
    requires |frame| == width * height
    requires AllInBounds(pixels, width, height)
    requires n < |pixels|
    ensures 0 <= CellIndex(pixels[n], width) < |frame|
    ensures Paint(frame, width, height, pixels[..n + 1], argb) ==
      Paint(frame, width, height, pixels[..n], argb)[CellIndex(pixels[n], width) := argb]
  {
    CellIndexInRange(pixels[n], width, height);
    assert pixels[..n + 1][..n] == pixels[..n];
  }

  /** Column x of the walk along x is the pixel (x, (int)(ax*x + b)). */
  lemma WalkXIndex(xa: int, xb: int, yb: int, ax: real, x: int)
    requires xa <= x <= xb
    ensures WalkX(xa, xb, yb, ax)[x - xa] == Point(x, LineAt(ax, yb as real - ax * xb as real, x))
  {
    var i := x - xa;
    assert xa + i == x;
  }

  /** Row y of the walk along y is the pixel ((int)(ay*y + b), y). */
  lemma WalkYIndex(ya: int, yb: int, xb: int, ay: real, y: int)
    requires ya <= y <= yb
    ensures WalkY(ya, yb, xb, ay)[y - ya] == Point(LineAt(ay, xb as real - ay * yb as real, y), y)
  {
    var i := y - ya;
    assert ya + i == y;
  }

  // Vertical and horizontal walks

  /** `x1 == x2`: exactly the pixels (x1, y) with min(y1,y2) <= y < max(y1,y2),
      upward; the far end is never drawn and a zero-length line draws nothing. */
  lemma VerticalLine(x1: int, y1: int, x2: int, y2: int)
    requires x1 == x2
    ensures var ps := LinePixels(x1, y1, x2, y2);
      && |ps| == AbsInt(y2 - y1)
      && (forall i :: 0 <= i < |ps| ==> ps[i] == Point(x1, Min(y1, y2) + i))
      && (forall p: PointInt32 :: p in ps <==> p.x == x1 && Min(y1, y2) <= p.y < Max(y1, y2))
      && Point(x1, Max(y1, y2)) !in ps
      && (y1 == y2 ==> ps == [])
  {
    var ps := LinePixels(x1, y1, x2, y2);
    var lo := Min(y1, y2);
    forall p: PointInt32 | p.x == x1 && lo <= p.y < Max(y1, y2)
      ensures p in ps
    {
      assert ps[p.y - lo] == p;
    }
  }

  /** `y1 == y2` and `x1 != x2`: exactly the pixels (x, y1) with
      min(x1,x2) <= x < max(x1,x2), left to right; the far end is never drawn. */
  lemma HorizontalLine(x1: int, y1: int, x2: int, y2: int)
    requires y1 == y2 && x1 != x2
    ensures var ps := LinePixels(x1, y1, x2, y2);
      && |ps| == AbsInt(x2 - x1)
      && (forall i :: 0 <= i < |ps| ==> ps[i] == Point(Min(x1, x2) + i, y1))
      && (forall p: PointInt32 :: p in ps <==> p.y == y1 && Min(x1, x2) <= p.x < Max(x1, x2))
      && Point(Max(x1, x2), y1) !in ps
  {
    var ps := LinePixels(x1, y1, x2, y2);
    var lo := Min(x1, x2);
    forall p: PointInt32 | p.y == y1 && lo <= p.x < Max(x1, x2)
      ensures p in ps
    {
      assert ps[p.x - lo] == p;
    }
  }

  // Diagonal walks

  /** `fabs(ax) < fabs(ay)` with ax = dy/dx and ay = dx/dy is |dy| < |dx|. */
  lemma WalkAxisTest(x1: int, y1: int, x2: int, y2: int)
    requires x1 != x2 && y1 != y2
    ensures LineWalk(x1, y1, x2, y2) == AlongX <==> AbsInt(y1 - y2) < AbsInt(x1 - x2)
  {
    AbsSlope(y1 - y2, x1 - x2);
    AbsSlope(x1 - x2, y1 - y2);
    SlopeCompare(AbsInt(x1 - x2) as real, AbsInt(y1 - y2) as real);
  }

  /** The magnitude of a slope is the ratio of the magnitudes. */
  lemma AbsSlope(d1: int, d2: int)
    requires d2 != 0
    ensures Abs(Slope(d1, d2)) == AbsInt(d1) as real / AbsInt(d2) as real
  {
    var a, b := d1 as real, d2 as real;
    DivNegate(a, b);
    if d2 > 0 {
      DivSign(a, b);
      DivSign(-a, b);
    } else {
      DivSign(a, -b);
      DivSign(-a, -b);
    }
  }

  /** Dividing by a positive number keeps the sign. */
  lemma DivSign(a: real, b: real)
    requires 0.0 < b
    ensures 0.0 <= a ==> 0.0 <= a / b
    ensures a < 0.0 ==> a / b < 0.0
  {
    MulLessIff(a / b, 0.0, b);
    assert a / b * b == a;
  }

  /** Negating the numerator or the denominator negates the quotient. */
  lemma DivNegate(a: real, b: real)
    requires b != 0.0
    ensures (-a) / b == -(a / b) && a / (-b) == -(a / b) && (-a) / (-b) == a / b
  {
  }

  lemma SlopeCompare(dx: real, dy: real)
    requires 0.0 < dx && 0.0 < dy
    ensures dy / dx < dx / dy <==> dy < dx
  {
    assert dy / dx < dx / dy <==> dy * dy < dx * dx by {
      assert dy / dx * (dx * dy) == dy * dy;
      assert dx / dy * (dx * dy) == dx * dx;
      MulLessIff(dy / dx, dx / dy, dx * dy);
    }
    if dy < dx {
      MulLess(dy, dx, dy);
      MulLess(dy, dx, dx);
    } else {
      MulLeq(dx, dy, dx);
      MulLeq(dx, dy, dy);
    }
  }

  lemma MulLessIff(a: real, b: real, c: real)
    requires 0.0 < c
    ensures a < b <==> a * c < b * c
  {
    if a < b {
      MulLess(a, b, c);
    } else {
      MulLeq(b, a, c);
    }
  }

  /** The value of the line through (xa, ya) and (xb, yb) at t, written as
      `drawLine` computes it: slope times t plus the intercept fixed by the far
      end. For t between the ends it lies between ya and yb, and at the two
      ends it is ya and yb. */
  lemma LineValueBetween(xa: int, ya: int, xb: int, yb: int, t: int)
    requires xa < xb && xa <= t <= xb
    ensures var s := Slope(ya - yb, xa - xb);
      var v := s * t as real + (yb as real - s * xb as real);
      && Min(ya, yb) as real <= v <= Max(ya, yb) as real
      && (t == xa ==> v == ya as real)
      && (t == xb ==> v == yb as real)
  {
    var s := Slope(ya - yb, xa - xb);
    var u := (xb - t) as real / (xb - xa) as real;
    LineValueForm(xa, ya, xb, yb, t);
    ScaledBetween(ya as real, yb as real, u);
  }

  /** The line value at t, written from the far end: yb minus the rise scaled
      by the fraction u of the run still ahead of t. */
  lemma LineValueForm(xa: int, ya: int, xb: int, yb: int, t: int)
    requires xa < xb && xa <= t <= xb
    ensures var s := Slope(ya - yb, xa - xb);
      var u := (xb - t) as real / (xb - xa) as real;
      && s * t as real + (yb as real - s * xb as real) == yb as real - (yb - ya) as real * u
      && 0.0 <= u <= 1.0
      && (t == xa ==> u == 1.0)
      && (t == xb ==> u == 0.0)
  {
    var s := Slope(ya - yb, xa - xb);
    var d := (xb - xa) as real;
    var u := (xb - t) as real / d;
    assert s == (yb - ya) as real / d;
    assert s * t as real + (yb as real - s * xb as real) == yb as real - s * (xb - t) as real;
    assert s * (xb - t) as real == (yb - ya) as real * u;
  }

  /** Moving from b toward a by a fraction u in [0, 1] stays between them. */
  lemma ScaledBetween(a: real, b: real, u: real)
    requires 0.0 <= u <= 1.0
    ensures a <= b ==> a <= b - (b - a) * u <= b
    ensures b < a ==> b <= b - (b - a) * u <= a
    ensures u == 1.0 ==> b - (b - a) * u == a
    ensures u == 0.0 ==> b - (b - a) * u == b
  {
    if a <= b {
      MulLeq(0.0, b - a, u);
      MulLeq(u, 1.0, b - a);
    } else {
      MulLeq(0.0, a - b, u);
      MulLeq(u, 1.0, a - b);
    }
  }

  /** The truncated line value at t lies between ya and yb, and is exactly ya
      at xa and yb at xb. */
  lemma LineAtBetween(xa: int, ya: int, xb: int, yb: int, t: int)
    requires xa < xb && xa <= t <= xb
    ensures var s := Slope(ya - yb, xa - xb);
      var n := LineAt(s, yb as real - s * xb as real, t);
      && Min(ya, yb) <= n <= Max(ya, yb)
      && (t == xa ==> n == ya)
      && (t == xb ==> n == yb)
  {
    LineValueBetween(xa, ya, xb, yb, t);
    LineAtPinned(Slope(ya - yb, xa - xb), yb as real - Slope(ya - yb, xa - xb) * xb as real, t,
      Min(ya, yb), Max(ya, yb), xa, ya, xb, yb);
  }

  /** `LineAt` at t when the untruncated value is known to lie between two
      integers, and to be integral at two given places. */
  lemma LineAtPinned(s: real, b: real, t: int, lo: int, hi: int, ta: int, a: int, tc: int, c: int)
    requires lo as real <= s * t as real + b <= hi as real
    requires t == ta ==> s * t as real + b == a as real
    requires t == tc ==> s * t as real + b == c as real
    ensures lo <= LineAt(s, b, t) <= hi
    ensures t == ta ==> LineAt(s, b, t) == a
    ensures t == tc ==> LineAt(s, b, t) == c
  {
    TruncPinned(lo, hi, s * t as real + b, a, c);
  }

  /** Truncating a real between two integers gives an integer between them,
      and an integral value is kept. */
  lemma TruncPinned(lo: int, hi: int, v: real, a: int, b: int)
    requires lo as real <= v <= hi as real
    ensures lo <= Trunc(v) <= hi
    ensures v == a as real ==> Trunc(v) == a
    ensures v == b as real ==> Trunc(v) == b
  {
    TruncBetween(lo, hi, v);
    TruncOfInteger(a);
    TruncOfInteger(b);
  }

  /** The slopes do not depend on the order of the endpoints. */
  lemma SlopeSymmetric(d1: int, d2: int)
    requires d2 != 0
    ensures Slope(-d1, -d2) == Slope(d1, d2)
  {
  }

  /** One column of the walk along x: its row is between ya and yb, and it is
      ya at xa and yb at xb. */
  lemma WalkXAt(xa: int, ya: int, xb: int, yb: int, i: int)
    requires xa < xb && 0 <= i <= xb - xa
    ensures var ps := WalkX(xa, xb, yb, Slope(ya - yb, xa - xb));
      && ps[i].x == xa + i && Min(ya, yb) <= ps[i].y <= Max(ya, yb)
      && (i == 0 ==> ps[i].y == ya)
      && (i == xb - xa ==> ps[i].y == yb)
  {
    var s := Slope(ya - yb, xa - xb);
    var b := yb as real - s * xb as real;
    var ps := WalkX(xa, xb, yb, s);
    WalkXIndex(xa, xb, yb, s, xa + i);
    assert ps[i] == Point(xa + i, LineAt(s, b, xa + i));
    LineAtBetween(xa, ya, xb, yb, xa + i);
  }

  /** One row of the walk along y: its column is between xa and xb, and it is
      xa at ya and xb at yb. */
  lemma WalkYAt(xa: int, ya: int, xb: int, yb: int, i: int)
    requires ya < yb && 0 <= i <= yb - ya
    ensures var ps := WalkY(ya, yb, xb, Slope(xa - xb, ya - yb));
      && ps[i].y == ya + i && Min(xa, xb) <= ps[i].x <= Max(xa, xb)
      && (i == 0 ==> ps[i].x == xa)
      && (i == yb - ya ==> ps[i].x == xb)
  {
    var s := Slope(xa - xb, ya - yb);
    var b := xb as real - s * yb as real;
    var ps := WalkY(ya, yb, xb, s);
    WalkYIndex(ya, yb, xb, s, ya + i);
    assert ps[i] == Point(LineAt(s, b, ya + i), ya + i);
    LineAtBetween(ya, xa, yb, xb, ya + i);
  }

  /** The walk along x between (xa, ya) and (xb, yb), xa < xb: one pixel per
      column from xa to xb, each row between ya and yb, starting at (xa, ya)
      and ending at (xb, yb). */
  lemma WalkXBetween(xa: int, ya: int, xb: int, yb: int)
    requires xa < xb
    ensures var ps := WalkX(xa, xb, yb, Slope(ya - yb, xa - xb));
      && |ps| == xb - xa + 1
      && (forall i :: 0 <= i < |ps| ==> ps[i].x == xa + i && Min(ya, yb) <= ps[i].y <= Max(ya, yb))
      && ps[0] == Point(xa, ya)
      && ps[|ps| - 1] == Point(xb, yb)
  {
    var ps := WalkX(xa, xb, yb, Slope(ya - yb, xa - xb));
    forall i | 0 <= i < |ps|
      ensures ps[i].x == xa + i && Min(ya, yb) <= ps[i].y <= Max(ya, yb)
    {
      WalkXAt(xa, ya, xb, yb, i);
    }
    WalkXAt(xa, ya, xb, yb, 0);
    WalkXAt(xa, ya, xb, yb, xb - xa);
  }

  /** The walk along y between (xa, ya) and (xb, yb), ya < yb: one pixel per
      row from ya to yb, each column between xa and xb, starting at (xa, ya)
      and ending at (xb, yb). */
  lemma WalkYBetween(xa: int, ya: int, xb: int, yb: int)
    requires ya < yb
    ensures var ps := WalkY(ya, yb, xb, Slope(xa - xb, ya - yb));
      && |ps| == yb - ya + 1
      && (forall i :: 0 <= i < |ps| ==> ps[i].y == ya + i && Min(xa, xb) <= ps[i].x <= Max(xa, xb))
      && ps[0] == Point(xa, ya)
      && ps[|ps| - 1] == Point(xb, yb)
  {
    var ps := WalkY(ya, yb, xb, Slope(xa - xb, ya - yb));
    forall i | 0 <= i < |ps|
      ensures ps[i].y == ya + i && Min(xa, xb) <= ps[i].x <= Max(xa, xb)
    {
      WalkYAt(xa, ya, xb, yb, i);
    }
    WalkYAt(xa, ya, xb, yb, 0);
    WalkYAt(xa, ya, xb, yb, yb - ya);
  }

  /** `|dy| < |dx|` (x1 != x2, y1 != y2): x walks from min(x1,x2) to
      max(x1,x2) inclusive, one pixel per column, |x2-x1|+1 writes; every y lies
      between y1 and y2; the first and last pixels are the two endpoints. */
  lemma DiagonalAlongX(x1: int, y1: int, x2: int, y2: int)
    requires x1 != x2 && y1 != y2 && AbsInt(y1 - y2) < AbsInt(x1 - x2)
    ensures LineWalk(x1, y1, x2, y2) == AlongX
    ensures var ps := LinePixels(x1, y1, x2, y2);
      && |ps| == AbsInt(x2 - x1) + 1
      && (forall i :: 0 <= i < |ps| ==> ps[i].x == Min(x1, x2) + i && Min(y1, y2) <= ps[i].y <= Max(y1, y2))
      && ps[0] == (if x1 < x2 then Point(x1, y1) else Point(x2, y2))
      && ps[|ps| - 1] == (if x1 < x2 then Point(x2, y2) else Point(x1, y1))
  {
    WalkAxisTest(x1, y1, x2, y2);
    if x1 > x2 {
      SlopeSymmetric(y1 - y2, x1 - x2);
      assert Slope(y1 - y2, x1 - x2) == Slope(y2 - y1, x2 - x1);
      WalkXBetween(x2, y2, x1, y1);
    } else {
      WalkXBetween(x1, y1, x2, y2);
    }
  }

  /** `|dy| >= |dx|` (x1 != x2, y1 != y2; a 45-degree line included): y walks
      from min(y1,y2) to max(y1,y2) inclusive, one pixel per row, |y2-y1|+1
      writes; every x lies between x1 and x2; the first and last pixels are
      the two endpoints. */
  lemma DiagonalAlongY(x1: int, y1: int, x2: int, y2: int)
    requires x1 != x2 && y1 != y2 && AbsInt(x1 - x2) <= AbsInt(y1 - y2)
    ensures LineWalk(x1, y1, x2, y2) == AlongY
    ensures var ps := LinePixels(x1, y1, x2, y2);
      && |ps| == AbsInt(y2 - y1) + 1
      && (forall i :: 0 <= i < |ps| ==> ps[i].y == Min(y1, y2) + i && Min(x1, x2) <= ps[i].x <= Max(x1, x2))
      && ps[0] == (if y1 < y2 then Point(x1, y1) else Point(x2, y2))
      && ps[|ps| - 1] == (if y1 < y2 then Point(x2, y2) else Point(x1, y1))
  {
    WalkAxisTest(x1, y1, x2, y2);
    if y1 > y2 {
      SlopeSymmetric(x1 - x2, y1 - y2);
      assert Slope(x1 - x2, y1 - y2) == Slope(x2 - x1, y2 - y1);
      WalkYBetween(x2, y2, x1, y1);
    } else {
      WalkYBetween(x1, y1, x2, y2);
    }
  }

  /** Swapping the two endpoints draws the same pixels in the same order. */
  lemma LineSymmetric(x1: int, y1: int, x2: int, y2: int)
    ensures LinePixels(x1, y1, x2, y2) == LinePixels(x2, y2, x1, y1)
  {
    if x1 != x2 && y1 != y2 {
      SlopeSymmetric(y1 - y2, x1 - x2);
      SlopeSymmetric(x1 - x2, y1 - y2);
      assert Slope(y2 - y1, x2 - x1) == Slope(y1 - y2, x1 - x2);
      assert Slope(x2 - x1, y2 - y1) == Slope(x1 - x2, y1 - y2);
    }
  }

  /** When `putPixel`'s assertions hold along the whole line: a vertical line
      needs its column on screen and its rows within [0, height] (the far end
      is not drawn), unless it is empty; a horizontal line likewise; a
      diagonal line needs both endpoints on screen. */
  lemma LineInBoundsExactly(x1: int, y1: int, x2: int, y2: int, width: int, height: int)
    ensures LineInBounds(x1, y1, x2, y2, width, height) <==>
      match LineWalk(x1, y1, x2, y2)
      case Vertical => y1 == y2 || (0 <= x1 < width && 0 <= Min(y1, y2) && Max(y1, y2) <= height)
      case Horizontal => 0 <= y1 < height && 0 <= Min(x1, x2) && Max(x1, x2) <= width
      case _ => InBounds(Point(x1, y1), width, height) && InBounds(Point(x2, y2), width, height)
  {
    if x1 == x2 {
      VerticalInBounds(x1, y1, x2, y2, width, height);
    } else if y1 == y2 {
      HorizontalInBounds(x1, y1, x2, y2, width, height);
    } else if AbsInt(y1 - y2) < AbsInt(x1 - x2) {
      DiagonalAlongX(x1, y1, x2, y2);
      DiagonalInBounds(x1, y1, x2, y2, width, height);
    } else {
      DiagonalAlongY(x1, y1, x2, y2);
      DiagonalInBounds(x1, y1, x2, y2, width, height);
    }
  }

  lemma VerticalInBounds(x1: int, y1: int, x2: int, y2: int, width: int, height: int)
    requires x1 == x2
    ensures LineInBounds(x1, y1, x2, y2, width, height) <==>
      y1 == y2 || (0 <= x1 < width && 0 <= Min(y1, y2) && Max(y1, y2) <= height)
  {
    var ps := LinePixels(x1, y1, x2, y2);
    VerticalLine(x1, y1, x2, y2);
    if y1 != y2 && LineInBounds(x1, y1, x2, y2, width, height) {
      assert InBounds(ps[0], width, height);
      assert InBounds(ps[|ps| - 1], width, height);
    }
  }

  lemma HorizontalInBounds(x1: int, y1: int, x2: int, y2: int, width: int, height: int)
    requires x1 != x2 && y1 == y2
    ensures LineInBounds(x1, y1, x2, y2, width, height) <==>
      0 <= y1 < height && 0 <= Min(x1, x2) && Max(x1, x2) <= width
  {
    var ps := LinePixels(x1, y1, x2, y2);
    HorizontalLine(x1, y1, x2, y2);
    if LineInBounds(x1, y1, x2, y2, width, height) {
      assert InBounds(ps[0], width, height);
      assert InBounds(ps[|ps| - 1], width, height);
    }
  }

  /** A diagonal walk stays within the box spanned by its endpoints and
      starts and ends at them, so it is on screen exactly when they are. */
  lemma DiagonalInBounds(x1: int, y1: int, x2: int, y2: int, width: int, height: int)
    requires var ps := LinePixels(x1, y1, x2, y2);
      && |ps| > 0
      && (forall i :: 0 <= i < |ps| ==>
            Min(x1, x2) <= ps[i].x <= Max(x1, x2) && Min(y1, y2) <= ps[i].y <= Max(y1, y2))
      && (ps[0] == Point(x1, y1) || ps[0] == Point(x2, y2))
      && (ps[|ps| - 1] == Point(x1, y1) || ps[|ps| - 1] == Point(x2, y2))
      && ps[0] != ps[|ps| - 1]
    ensures LineInBounds(x1, y1, x2, y2, width, height) <==>
      InBounds(Point(x1, y1), width, height) && InBounds(Point(x2, y2), width, height)
  {
    var ps := LinePixels(x1, y1, x2, y2);
    if LineInBounds(x1, y1, x2, y2, width, height) {
      assert InBounds(ps[0], width, height);
      assert InBounds(ps[|ps| - 1], width, height);
    }
  }

  /** A line whose two endpoints are on screen is drawn entirely on screen. */
  lemma EndpointsOnScreen(x1: int, y1: int, x2: int, y2: int, width: int, height: int)
    requires InBounds(Point(x1, y1), width, height) && InBounds(Point(x2, y2), width, height)
    ensures LineInBounds(x1, y1, x2, y2, width, height)
  {
    LineInBoundsExactly(x1, y1, x2, y2, width, height);
  }
}
