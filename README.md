# 3D_From_Scratch_X11: software frame buffer and wireframe cube

This project models the rendering core of `src/main.cpp`. The core has three parts.

- `ScreenBuffer` is a flat `width*height` array of 32-bit ARGB words. It is filled by `cleanScreen`, written one cell at a time by `putPixel`, and drawn on by `drawLine`.
- `drawLine` has three cases:
  - a vertical walk;
  - a horizontal walk;
  - a diagonal walk along x or along y, chosen by comparing the two slopes.
- Around the buffer sit the cube pipeline and a helper:
  - the `CubeModel` vertex table and its transforms (translate, rotate about z, x and y);
  - `toScreenSpace`/`applyNonOrthoProj`, which project a vertex to a pixel;
  - the loop of `drawCube`, which walks the posed cube in triples and draws each triangle's three edges;
  - `clampAngle`.

Modules:

- `Numeric`: the `int32_t` range, the cast `static_cast<int32_t>` of a float (truncation toward zero), and the default colour `0xFF000000` as an `int32_t`.
- `Geometry`: `Point`, `Vector3D`, `toScreenSpace` and `applyNonOrthoProj`. Floats are modelled as reals. `toScreenSpace` casts z to `int32_t`; the model truncates it.
- `CubeModel`: the 36-vertex table and the transforms. These are pure functions over a `seq`, because each transform copies the vertex list and returns a new model. `cosf`/`sinf` of an angle are passed in as a `Rotation(cos, sin)` value.
- `Raster`: the specification of what a line draws.
  - `LinePixels(x1, y1, x2, y2)` is the sequence of pixels `drawLine` visits, in order.
  - `Paint` applies a sequence of pixel writes to a buffer's contents.
  - The lemmas characterise each case of the walk.
- `Screen`: `ScreenBuffer` as a class over an `array<Int32>`, with methods that update it in place. Each drawing method is proved to leave the buffer equal to `Paint` of the old contents with `LinePixels`.
- `Render`: `clampAngle`, the triple-walking loop of `drawCube` (`DrawTriangles`), and `DrawCube`.

## Model

| member | source | states |
|---|---|---|
| Numeric.WrapToInt32 | src/main.cpp:232 | The default argument `0xFF000000` becomes the `int32_t` that is congruent to it modulo 2^32. In-range values are kept. |
| Numeric.Trunc | src/main.cpp:289 | The cast of a float to `int32_t` truncates toward zero. The result lies within 1 of the value, on the side toward zero. |
| Geometry.Vector3.As2DPoint | src/main.cpp:37-40 | `as2DPoint` keeps x and y and drops z. |
| Geometry.ToScreenSpace | src/main.cpp:52-59 | `toScreenSpace` maps device x in [-1, 1) onto a column of a non-empty screen and device y in (-1, 1] onto a row. `ScreenSpaceOrientation` states the order it keeps. |
| Geometry.ScreenSpaceOrientation | src/main.cpp:52-59 | `toScreenSpace` keeps the order of x and reverses the order of y, because screen y grows downward. |
| Geometry.ApplyNonOrthoProj | src/main.cpp:61-68 | The perspective divide keeps z. Multiplying the new x and y by z gives back the original x and y. |
| CubeModel.GetTranslated | src/main.cpp:72-86 | The result has the same vertex count. Each coordinate of each vertex is shifted by the offset. |
| CubeModel.GetRotatedZ | src/main.cpp:88-107 | The result has the same vertex count. The rotation about z keeps every vertex's z. |
| CubeModel.GetRotatedX | src/main.cpp:109-128 | The result has the same vertex count. The rotation about x keeps every vertex's x. |
| CubeModel.GetRotatedY | src/main.cpp:130-149 | The result has the same vertex count. The rotation about y keeps every vertex's y. |
| CubeModel.TranslatedRoundTrip | src/main.cpp:72-86 | Translating by an offset and then by its negation gives back the model. |
| CubeModel.RotatedZRoundTrip | src/main.cpp:88-107 | When cos² + sin² = 1, rotating about z and then by the inverse angle gives back the model. |
| CubeModel.RotatedXRoundTrip | src/main.cpp:109-128 | When cos² + sin² = 1, rotating about x and then by the inverse angle gives back the model. |
| CubeModel.RotatedYRoundTrip | src/main.cpp:130-149 | When cos² + sin² = 1, rotating about y and then by the inverse angle gives back the model. |
| CubeModel.RotateZRoundTrip | src/main.cpp:97-104 | The per-vertex round trip of the z rotation. |
| CubeModel.RotateXRoundTrip | src/main.cpp:118-125 | The per-vertex round trip of the x rotation. |
| CubeModel.RotateYRoundTrip | src/main.cpp:139-146 | The per-vertex round trip of the y rotation. |
| CubeModel.RotatedZKeepsRadius | src/main.cpp:88-107 | With a unit rotation, each vertex keeps its distance from the z axis. |
| CubeModel.UnitCubeShape | src/main.cpp:151-211 | The vertex table has 36 vertices, a multiple of three. Every coordinate is 0 or 1. |
| CubeModel.PosedCube | src/main.cpp:351-360 | The posed cube still has 36 vertices, so the `size % 3 == 0` assertion holds. |
| Raster.LinePixels | src/main.cpp:245-308 | The pixels `drawLine` passes to `putPixel`, in order. The vertical and horizontal walks visit abs(dy) and abs(dx) pixels; the diagonal walks visit one more than the walked axis's distance. `VerticalLine`, `HorizontalLine`, `DiagonalAlongX`, `DiagonalAlongY` and `LineSymmetric` state which pixels they are. |
| Raster.Paint | src/main.cpp:315-323 | The buffer after `putPixel` of each listed pixel in turn keeps its size. `PaintPixel`, `PaintOnlyWritesColour` and `PaintConcat` state its contents. |
| Raster.CellIndexInRange | src/main.cpp:315-323 | An on-screen pixel's cell `x + y*width` lies inside the `width*height` array. |
| Raster.CellIndexInjective | src/main.cpp:322 | Two on-screen pixels with the same cell are the same pixel. |
| Raster.PaintPixel | src/main.cpp:315-323 | After a sequence of writes, a cell holds `argb` exactly when its pixel was written. Otherwise it holds its old value. |
| Raster.PaintOnlyWritesColour | src/main.cpp:245-308 | Drawing writes no colour other than `argb`. Every cell ends up holding `argb` or its old value. |
| Raster.PaintConcat | src/main.cpp:379-381 | Drawing one sequence of pixels and then another is the same as drawing their concatenation. |
| Raster.VerticalLine | src/main.cpp:247-259 | When `x1 == x2`, the line visits exactly (x1, y) for min(y1, y2) <= y < max(y1, y2), in increasing y. It has abs(y2 - y1) pixels and never the far end. A zero-length line visits nothing. |
| Raster.HorizontalLine | src/main.cpp:261-273 | When `y1 == y2` and `x1 != x2`, the line visits exactly (x, y1) for min(x1, x2) <= x < max(x1, x2), in increasing x. It has abs(x2 - x1) pixels and never the far end. |
| Raster.WalkAxisTest | src/main.cpp:275-278 | `fabs(ax) < fabs(ay)` holds exactly when abs(y1 - y2) < abs(x1 - x2). |
| Raster.DiagonalAlongX | src/main.cpp:278-292 | When abs(dy) < abs(dx), the line walks x from min(x1, x2) to max(x1, x2) inclusive. It makes abs(dx) + 1 writes, one per column, with y between y1 and y2. Its first and last pixels are the two endpoints. |
| Raster.DiagonalAlongY | src/main.cpp:293-307 | When abs(dx) <= abs(dy), the line walks y from min(y1, y2) to max(y1, y2) inclusive. It makes abs(dy) + 1 writes, one per row, with x between x1 and x2. Its first and last pixels are the two endpoints. |
| Raster.LineSymmetric | src/main.cpp:249-253 | Swapping the two endpoints gives the same pixel sequence, in every case. |
| Raster.LineInBoundsExactly | src/main.cpp:245-323 | The `putPixel` assertions hold on every visited pixel exactly when a per-case condition on the endpoints holds. For the vertical and horizontal cases the condition is on the visited range; for the diagonal case it is that both endpoints are on screen. |
| Raster.EndpointsOnScreen | src/main.cpp:245-323 | When both endpoints are on screen, every pixel the line visits is on screen. |
| Screen.ScreenBuffer.constructor | src/main.cpp:216-223 | The buffer gets exactly `width*height` cells, all zero. |
| Screen.ScreenBuffer.CleanScreen | src/main.cpp:232-238 | Every cell becomes `color`, which is opaque black by default. The size is kept. The result does not depend on the old contents, so cleaning is idempotent. |
| Screen.ScreenBuffer.PutPixel | src/main.cpp:315-323 | The pixel must be on screen. Cell `x + y*width` becomes `argb` and every other cell is unchanged. |
| Screen.ScreenBuffer.PutPixelAt | src/main.cpp:310-313 | The `Point` overload has the same effect on `(point.x, point.y)`. |
| Screen.ScreenBuffer.DrawLine | src/main.cpp:245-308 | The new contents are the old contents painted with `argb` at the pixels of `LinePixels`, in order. Nothing else changes. |
| Screen.ScreenBuffer.DrawVertical | src/main.cpp:247-259 | The vertical branch: after the swap, its loop paints exactly `LinePixels`. |
| Screen.ScreenBuffer.DrawHorizontal | src/main.cpp:261-273 | The horizontal branch: after the swap, its loop paints exactly `LinePixels`. |
| Screen.ScreenBuffer.DrawAlongX | src/main.cpp:278-292 | The x-walking diagonal branch: after the swap, its loop paints exactly `LinePixels`. |
| Screen.ScreenBuffer.DrawAlongY | src/main.cpp:293-307 | The y-walking diagonal branch: after the swap, its loop paints exactly `LinePixels`. |
| Screen.ScreenBuffer.WalkAlongX | src/main.cpp:285-291 | The x loop: with the intercept fixed by the right end, it paints column x at row (int)(ax*x + b) for every x from the left end to the right end inclusive. |
| Screen.ScreenBuffer.WalkAlongY | src/main.cpp:300-306 | The y loop: with the intercept fixed by the end with the larger y, it paints row y at column (int)(ay*y + b) for every y from the smaller y to the larger y inclusive. |
| Screen.ScreenBuffer.GetWidth | src/main.cpp:325-328 | `getWidth` returns the row length; it times the height is the cell count. |
| Screen.ScreenBuffer.GetHeight | src/main.cpp:330-333 | `getHeight` returns the number of rows; the width times it is the cell count. |
| Screen.ScreenBuffer.DrawLineBetween | src/main.cpp:240-243 | The `Point` overload has the same effect as `drawLine` on the four coordinates. |
| Render.ClampAngle | src/main.cpp:385-397 | A value above π becomes -π, a value below -π becomes π, and any other value is returned unchanged. The result always lies in [-π, π]. |
| Render.ClampAngleIdempotent | src/main.cpp:385-397 | Clamping a clamped angle changes nothing. |
| Render.ScreenPoint | src/main.cpp:369-376 | A vertex is divided by its z, mapped to screen space and reduced to a 2D point. When the divided x lies in [-1, 1) and y in (-1, 1], the point is on screen. |
| Render.ScreenPoints | src/main.cpp:362-376 | Projecting the vertex list gives one screen point per vertex. |
| Render.TriangleEdges | src/main.cpp:362-382 | Vertex i is joined to the next vertex of its own triple, wrapping from the third vertex back to the first. This gives one edge per vertex. |
| Render.WireframePixelsInBounds | src/main.cpp:379-381 | When every triangle edge stays on screen, all the pixels the wireframe draws are on screen. |
| Render.TrianglePixelsStep | src/main.cpp:362-382 | The pixels of the first k+1 triangles are those of the first k, then p1-p2, p2-p3, p3-p1. |
| Render.DrawTriangle | src/main.cpp:379-381 | Drawing the three edges of one triangle paints exactly their pixels, in order. |
| Render.DrawTriangles | src/main.cpp:360-382 | Walking the vertices in triples leaves the buffer painted with exactly the pixels of every triangle's three edges, in drawing order. Nothing else changes. |
| Render.DrawCube | src/main.cpp:349-383 | `drawCube` poses the unit cube (centre it, rotate about z, then x, then y, then move it to `pos`) and draws the posed cube's wireframe. |

## Left out

- The X11 window, the event loop, `on_delete`, the `quited` flag, `XImage`/`XPutImage` and `main`'s pixel allocation. These are display I/O.
- `fillOutBuffer`: it copies the buffer into memory owned by the display layer.
- The frame counter, the angle updates and the colour cycling in `main`: these are demo logic around the core.
- `Matrix3D`: the code declares it and never uses it.
- Bit-exact float arithmetic. The model computes over exact reals.
  - The diagonal line's intercept and slope are exact, so its endpoint claims hold over the reals. A float rounding could put a different row at an end.
  - Only the truncation of the cast is modelled.
- Render.ClampAngleIdempotent: holds over reals only. The program stores `-M_PI` and `M_PI` into a float, which rounds them to just outside [-M_PI, M_PI]. So the program's clamp of a snapped value flips its sign again and is not idempotent there.
- `cosf`/`sinf`: their values are parameters (`Rotation`). The rotation round trips assume cos² + sin² = 1 exactly.
- Geometry.ApplyNonOrthoProj: requires z != 0. At z == 0 the float divide would give infinity or NaN, which reals cannot represent.
- Numeric.Trunc: a float outside the `int32_t` range has no defined cast. The model returns the unbounded truncation instead.
- Screen.ScreenBuffer.constructor: requires width and height >= 0 and computes `width*height` without 32-bit overflow. Pixel coordinates and `x + y*width` are unbounded integers for the same reason.
- Depth buffering, triangle fill, texture sampling and backface culling: none of them exists in this source file.
