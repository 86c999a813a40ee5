/** The value types of the pipeline (`Point<T>`, `Vector3D<T>`) and the two
    per-vertex projections: the perspective divide and the mapping from
    normalised device coordinates to screen pixels. Floats are modelled as reals. */
module Geometry {
  import opened Numeric

  /** `Point<T>`: a 2D coordinate. */
  datatype Point<T> = Point(x: T, y: T)

  /** `Vector3D<T>`: a 3D coordinate. */
  datatype Vector3<T> = Vector3(x: T, y: T, z: T)
  {
    /** `as2DPoint`: drops z and keeps x and y. */
    function As2DPoint(): (p: Point<T>)
      ensures p.x == x && p.y == y
    {
      Point(x, y)
    }
  }

  /** `PointInt32`: a screen pixel. */
  type PointInt32 = Point<int>

  /** One axis of `toScreenSpace`: c in [-1, 1] scaled to [0, extent] and cast
      to `int32_t` (truncation toward zero). */
  function ScreenCoord(c: real, extent: int): int {
    TruncScaled(c + 1.0, extent as real / 2.0)
  }

  /** The cast of the product u*half to `int32_t`. */
  function TruncScaled(u: real, half: real): int {
    Trunc(u * half)
  }

  /** `toScreenSpace`: maps x in [-1, 1] to [0, width] and y in [-1, 1] to
      [height, 0] (screen y grows downward, so y is negated first); z is only
      cast. A point of the device square [-1, 1) x (-1, 1] lands on a pixel
      of a non-empty screen. */
  function ToScreenSpace(v: Vector3<real>, screenWidth: int, screenHeight: int): (s: Vector3<int>)
    ensures 0 < screenWidth && -1.0 <= v.x < 1.0 ==> 0 <= s.x < screenWidth
    ensures 0 < screenHeight && -1.0 < v.y <= 1.0 ==> 0 <= s.y < screenHeight
  {
    ScreenCoordInBounds(v.x, screenWidth);
    ScreenCoordInBounds(-v.y, screenHeight);
    Vector3(ScreenCoord(v.x, screenWidth), ScreenCoord(-v.y, screenHeight), Trunc(v.z))
  }

  /** Device coordinates in [-1, 1) land on one of the `extent` pixels. */
  lemma ScreenCoordInBounds(c: real, extent: int)
    ensures 0 < extent && -1.0 <= c < 1.0 ==> 0 <= ScreenCoord(c, extent) < extent
  {
    if 0 < extent && -1.0 <= c < 1.0 {
      TruncScaledBelow(c + 1.0, extent as real / 2.0, extent);
    }
  }

  /** A fraction u in [0, 2) of half an extent truncates to a pixel of it. */
  lemma TruncScaledBelow(u: real, half: real, extent: int)
    requires 0.0 <= u < 2.0 && 0.0 < half && half + half == extent as real
    ensures 0 <= TruncScaled(u, half) < extent
  {
    ScaledBelow(u, half, extent as real);
    TruncBelow(u * half, extent);
  }

  /** A fraction u in [0, 2) of half of e lies in [0, e). */
  lemma ScaledBelow(u: real, half: real, e: real)
    requires 0.0 <= u < 2.0 && 0.0 < half && half + half == e
    ensures 0.0 <= u * half < e
  {
    MulLeq(0.0, u, half);
    MulLess(u, 2.0, half);
  }

  /** `ScreenCoord` is monotone in the device coordinate. */
  lemma ScreenCoordMonotone(c: real, d: real, extent: int)
    requires 0 <= extent && c <= d
    ensures ScreenCoord(c, extent) <= ScreenCoord(d, extent)
  {
    TruncScaledMonotone(c + 1.0, d + 1.0, extent as real / 2.0);
  }

  /** Scaling by a non-negative factor and truncating preserves order. */
  lemma TruncScaledMonotone(u: real, v: real, half: real)
    requires u <= v && 0.0 <= half
    ensures TruncScaled(u, half) <= TruncScaled(v, half)
  {
    MulLeq(u, v, half);
    TruncMonotone(u * half, v * half);
  }

  /** The mapping preserves the order of x and reverses the order of y. */
  lemma ScreenSpaceOrientation(v: Vector3<real>, w: Vector3<real>, screenWidth: int, screenHeight: int)
    requires 0 <= screenWidth && 0 <= screenHeight
    requires v.x <= w.x && v.y <= w.y
    ensures ToScreenSpace(v, screenWidth, screenHeight).x <= ToScreenSpace(w, screenWidth, screenHeight).x
    ensures ToScreenSpace(v, screenWidth, screenHeight).y >= ToScreenSpace(w, screenWidth, screenHeight).y
  {
    ScreenCoordMonotone(v.x, w.x, screenWidth);
    ScreenCoordMonotone(-w.y, -v.y, screenHeight);
  }

  /** `applyNonOrthoProj`: the perspective divide by z; z itself is kept.
      Multiplying back by z recovers the original x and y. */
  function ApplyNonOrthoProj(v: Vector3<real>): (r: Vector3<real>)
    requires v.z != 0.0
    ensures r.z == v.z
    ensures r.x * v.z == v.x && r.y * v.z == v.y
  {
    Vector3(v.x / v.z, v.y / v.z, v.z)
  }
}
