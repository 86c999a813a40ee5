/** The free functions around the frame buffer: `clampAngle`, and `drawCube`,
    which poses the cube, projects every vertex to the screen and draws each
    triangle (three consecutive vertices) as three lines. The global
    `g_screenBuffer` becomes a parameter. */
module Render {
  import opened Numeric
  import opened Geometry
  import opened CubeModel
  import opened Raster
  import opened Screen

  /** `M_PI`. */
  const Pi: real := 3.141592653589793

  /** `clampAngle`: a saturating snap, not a modulo. An angle above pi becomes
      -pi, one below -pi becomes pi, any other is returned unchanged; so the
      result always lies in [-pi, pi]. */
  function ClampAngle(angle: real): (r: real)
    ensures -Pi <= r <= Pi
    ensures angle > Pi ==> r == -Pi
    ensures angle < -Pi ==> r == Pi
    ensures -Pi <= angle <= Pi ==> r == angle
  {
    if angle > Pi then -Pi
    else if angle < -Pi then Pi
    else angle
  }

  /** Clamping an angle already clamped changes nothing. */
  lemma ClampAngleIdempotent(angle: real)
    ensures ClampAngle(ClampAngle(angle)) == ClampAngle(angle)
  {
  }

  /** A line of the wireframe, from one projected vertex to the next. */
  datatype Edge = Edge(from: PointInt32, to: PointInt32)

  /** The vertex that vertex i is joined to in its triangle: the next one, or
      the first of the triple for the third. */
  function NextInTriangle(i: nat): nat {
    if i % 3 == 2 then i - 2 else i + 1
  }

  /** The lines `drawCube` draws, in order: for each triple (p1, p2, p3),
      p1-p2, p2-p3 and p3-p1. Edge i runs from vertex i to the vertex after it
      in its triangle. */
  function TriangleEdges(points: seq<PointInt32>): (edges: seq<Edge>)
    requires |points| % 3 == 0
    ensures |edges| == |points|
    ensures forall i :: 0 <= i < |edges| ==> edges[i] == Edge(points[i], points[NextInTriangle(i)])
    decreases |points|
  {
    if points == [] then []
    else
      var n := |points| - 3;
      TriangleEdges(points[..n]) + [Edge(points[n], points[n + 1]), Edge(points[n + 1], points[n + 2]), Edge(points[n + 2], points[n])]
  }

  /** The pixels `drawLine` visits along each edge, edge after edge. */
  function EdgePixels(edges: seq<Edge>): seq<PointInt32>
    decreases |edges|
  {
    if edges == [] then []
    else
      var e := edges[|edges| - 1];
      EdgePixels(edges[..|edges| - 1]) + LinePixels(e.from.x, e.from.y, e.to.x, e.to.y)
  }

  predicate EdgeInBounds(e: Edge, width: int, height: int) {
    LineInBounds(e.from.x, e.from.y, e.to.x, e.to.y, width, height)
  }

  /** `drawCube`'s `size % 3 == 0` assertion, and `putPixel`'s bounds along
      every line it draws. */
  predicate WireframeInBounds(points: seq<PointInt32>, width: int, height: int) {
    && |points| % 3 == 0
    && forall i :: 0 <= i < |points| ==> EdgeInBounds(Edge(points[i], points[NextInTriangle(i)]), width, height)
  }

  /** Lines that each stay on screen give only on-screen pixels. */
  lemma {:induction false} EdgePixelsInBounds(edges: seq<Edge>, width: int, height: int)
    requires forall i :: 0 <= i < |edges| ==> EdgeInBounds(edges[i], width, height)
    ensures AllInBounds(EdgePixels(edges), width, height)
    decreases |edges|
  {
    if edges != [] {
      var e := edges[|edges| - 1];
      EdgePixelsInBounds(edges[..|edges| - 1], width, height);
      var ps, qs := EdgePixels(edges[..|edges| - 1]), LinePixels(e.from.x, e.from.y, e.to.x, e.to.y);
      assert EdgeInBounds(e, width, height);
      assert forall i :: 0 <= i < |ps + qs| ==> (ps + qs)[i] == if i < |ps| then ps[i] else qs[i - |ps|];
    }
  }

  /** A whole wireframe that stays on screen gives only on-screen pixels. */
  lemma WireframePixelsInBounds(points: seq<PointInt32>, width: int, height: int)
    requires WireframeInBounds(points, width, height)
    ensures AllInBounds(EdgePixels(TriangleEdges(points)), width, height)
  {
    var edges := TriangleEdges(points);
    forall i | 0 <= i < |edges|
      ensures EdgeInBounds(edges[i], width, height)
    {
      assert edges[i] == Edge(points[i], points[NextInTriangle(i)]);
    }
    EdgePixelsInBounds(edges, width, height);
  }

  /** The screen pixel of a vertex: perspective divide, `toScreenSpace`,
      `as2DPoint`. */
  function ScreenPoint(v: Vertex, screenWidth: int, screenHeight: int): (p: PointInt32)
    requires v.z != 0.0
    ensures 0 < screenWidth && 0 < screenHeight && -1.0 <= v.x / v.z < 1.0 && -1.0 < v.y / v.z <= 1.0
      ==> InBounds(p, screenWidth, screenHeight)
  {
    ToScreenSpace(ApplyNonOrthoProj(v), screenWidth, screenHeight).As2DPoint()
  }

  /** No vertex lies in the plane z == 0, where the divide has no finite result. */
  predicate Projectable(vertices: seq<Vertex>) {
    forall i :: 0 <= i < |vertices| ==> vertices[i].z != 0.0
  }

  /** The screen pixel of every vertex, in order. */
  function ScreenPoints(vertices: seq<Vertex>, screenWidth: int, screenHeight: int): (points: seq<PointInt32>)
    requires Projectable(vertices)
    ensures |points| == |vertices|
  {
    seq(|vertices|, i requires 0 <= i < |vertices| => ScreenPoint(vertices[i], screenWidth, screenHeight))
  }

  /** The lines of one more triangle follow those of the triangles before it. */
  lemma TriangleEdgesStep(points: seq<PointInt32>, n: nat)
    requires n % 3 == 0 && n + 3 <= |points|
    ensures TriangleEdges(points[..n + 3]) == TriangleEdges(points[..n]) +
      [Edge(points[n], points[n + 1]), Edge(points[n + 1], points[n + 2]), Edge(points[n + 2], points[n])]
  {
    assert points[..n + 3][..n] == points[..n];
  }

  /** The pixels of one more line follow those of the lines before it. */
  lemma EdgePixelsAppend(edges: seq<Edge>, e: Edge)
    ensures EdgePixels(edges + [e]) == EdgePixels(edges) + LinePixels(e.from.x, e.from.y, e.to.x, e.to.y)
  {
    assert (edges + [e])[..|edges|] == edges;
  }

  /** The three lines of triangle n/3 stay on screen. */
  lemma TriangleInBounds(points: seq<PointInt32>, width: int, height: int, n: nat)
    requires WireframeInBounds(points, width, height)
    requires n % 3 == 0 && n + 3 <= |points|
    ensures EdgeInBounds(Edge(points[n], points[n + 1]), width, height)
    ensures EdgeInBounds(Edge(points[n + 1], points[n + 2]), width, height)
    ensures EdgeInBounds(Edge(points[n + 2], points[n]), width, height)
  {
    assert NextInTriangle(n) == n + 1 && NextInTriangle(n + 1) == n + 2 && NextInTriangle(n + 2) == n;
  }

  /** The pixels of the first n/3 + 1 triangles: those of the first n/3, then
      the three lines of the next. */
  lemma TrianglePixelsStep(points: seq<PointInt32>, n: nat)
    requires n % 3 == 0 && n + 3 <= |points|
    ensures EdgePixels(TriangleEdges(points[..n + 3])) ==
      EdgePixels(TriangleEdges(points[..n])) + TrianglePixels(points[n], points[n + 1], points[n + 2])
  {
    var before := TriangleEdges(points[..n]);
    var e1, e2, e3 := Edge(points[n], points[n + 1]), Edge(points[n + 1], points[n + 2]), Edge(points[n + 2], points[n]);
    TriangleEdgesStep(points, n);
    assert before + [e1, e2, e3] == before + [e1] + [e2] + [e3];
    EdgePixelsAppend(before, e1);
    EdgePixelsAppend(before + [e1], e2);
    EdgePixelsAppend(before + [e1] + [e2], e3);
    ConcatAssoc(EdgePixels(before), LinePixels(e1.from.x, e1.from.y, e1.to.x, e1.to.y),
      LinePixels(e2.from.x, e2.from.y, e2.to.x, e2.to.y), LinePixels(e3.from.x, e3.from.y, e3.to.x, e3.to.y));
  }

  lemma ConcatAssoc<T>(a: seq<T>, b: seq<T>, c: seq<T>, d: seq<T>)
    ensures a + b + c + d == a + (b + c + d)
  {
  }

  /** A triangle starting at a multiple of three below a multiple of three fits whole. */
  lemma WholeTriangle(i: int, n: int)
    requires 0 <= i < n && i % 3 == 0 && n % 3 == 0
    ensures i + 3 <= n && (i + 3) % 3 == 0
  {
    var a, b := i / 3, n / 3;
    assert i == 3 * a && n == 3 * b;
  }

  /** The pixels of the three lines of one triangle, in drawing order. */
  function TrianglePixels(p1: PointInt32, p2: PointInt32, p3: PointInt32): seq<PointInt32> {
    LinePixels(p1.x, p1.y, p2.x, p2.y) + LinePixels(p2.x, p2.y, p3.x, p3.y) + LinePixels(p3.x, p3.y, p1.x, p1.y)
  }

  /** The body of `drawCube`'s loop after projection: the lines p1-p2, p2-p3, p3-p1. */
  method DrawTriangle(screen: ScreenBuffer, p1: PointInt32, p2: PointInt32, p3: PointInt32, color: Int32)
    requires screen.Valid()
    requires EdgeInBounds(Edge(p1, p2), screen.width, screen.height)
    requires EdgeInBounds(Edge(p2, p3), screen.width, screen.height)
    requires EdgeInBounds(Edge(p3, p1), screen.width, screen.height)
    modifies screen.data
    ensures AllInBounds(TrianglePixels(p1, p2, p3), screen.width, screen.height)
    ensures screen.data[..] == Paint(old(screen.data[..]), screen.width, screen.height, TrianglePixels(p1, p2, p3), color)
  {
    ghost var frame := screen.data[..];
    ghost var l1, l2, l3 := LinePixels(p1.x, p1.y, p2.x, p2.y), LinePixels(p2.x, p2.y, p3.x, p3.y), LinePixels(p3.x, p3.y, p1.x, p1.y);
    screen.DrawLineBetween(p1, p2, color);
    screen.DrawLineBetween(p2, p3, color);
    PaintConcat(frame, screen.width, screen.height, l1, l2, color);
    screen.DrawLineBetween(p3, p1, color);
    PaintConcat(frame, screen.width, screen.height, l1 + l2, l3, color);
  }

  /** The loop of `drawCube`: walk the vertices three at a time, project the
      three, and draw p1-p2, p2-p3, p3-p1. The buffer ends up painted with
      exactly the pixels of those lines, in that order. */
  method DrawTriangles(screen: ScreenBuffer, vertices: seq<Vertex>, color: Int32)
    requires screen.Valid() && Projectable(vertices) && |vertices| % 3 == 0
    requires WireframeInBounds(ScreenPoints(vertices, screen.width, screen.height), screen.width, screen.height)
    modifies screen.data
    ensures AllInBounds(EdgePixels(TriangleEdges(ScreenPoints(vertices, screen.width, screen.height))), screen.width, screen.height)
    ensures screen.data[..] == Paint(old(screen.data[..]), screen.width, screen.height,
      EdgePixels(TriangleEdges(ScreenPoints(vertices, screen.width, screen.height))), color)
  {
    var width, height := screen.GetWidth(), screen.GetHeight();
    ghost var points := ScreenPoints(vertices, width, height);
    ghost var frame := screen.data[..];
    WireframePixelsInBounds(points, width, height);
    assert points[..0] == [];
    var i := 0;
    while i < |vertices|
      invariant 0 <= i <= |vertices| && i % 3 == 0
      invariant AllInBounds(EdgePixels(TriangleEdges(points[..i])), width, height)
      invariant screen.data[..] == Paint(frame, width, height, EdgePixels(TriangleEdges(points[..i])), color)
    {
      WholeTriangle(i, |vertices|);
      var p1 := ScreenPoint(vertices[i], width, height);
      var p2 := ScreenPoint(vertices[i + 1], width, height);
      var p3 := ScreenPoint(vertices[i + 2], width, height);
      TriangleInBounds(points, width, height, i);
      TrianglePixelsStep(points, i);
      ghost var painted := EdgePixels(TriangleEdges(points[..i]));
      ghost var triangle := TrianglePixels(p1, p2, p3);
      DrawTriangle(screen, p1, p2, p3, color);
      PaintConcat(frame, width, height, painted, triangle, color);
      i := i + 3;
    }
    assert points[..i] == points;
  }

  /** `drawCube`: pose the unit cube (centre it, rotate about z, x, y, move it
      to `pos`), then draw its twelve triangles as wireframe. `rz`, `rx`,
      `ry` carry `cosf`/`sinf` of `anglez`, `anglex`, `angley`. */
  method DrawCube(screen: ScreenBuffer, rz: Rotation, rx: Rotation, ry: Rotation, pos: Vertex, color: Int32)
    requires screen.Valid() && Projectable(PosedCube(rz, rx, ry, pos).vertices)
    requires WireframeInBounds(ScreenPoints(PosedCube(rz, rx, ry, pos).vertices, screen.width, screen.height), screen.width, screen.height)
    modifies screen.data
    ensures AllInBounds(EdgePixels(TriangleEdges(ScreenPoints(PosedCube(rz, rx, ry, pos).vertices, screen.width, screen.height))), screen.width, screen.height)
    ensures screen.data[..] == Paint(old(screen.data[..]), screen.width, screen.height,
      EdgePixels(TriangleEdges(ScreenPoints(PosedCube(rz, rx, ry, pos).vertices, screen.width, screen.height))), color)
  {
    var cb := UnitCube;
    cb := GetTranslated(cb, Vector3(-0.5, -0.5, -0.5));
    cb := GetRotatedZ(cb, rz);
    cb := GetRotatedX(cb, rx);
    cb := GetRotatedY(cb, ry);
    cb := GetTranslated(cb, pos);
    assert cb == PosedCube(rz, rx, ry, pos);
    assert |cb.vertices| % 3 == 0;
    DrawTriangles(screen, cb.vertices, color);
  }
}
