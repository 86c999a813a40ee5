/** `CubeModel`: the cube's vertex list and its rigid transforms. Each
    transform copies the vertex list and maps every vertex, returning a new
    model; the receiver is never changed. `cosf`/`sinf` of the angle are not
    computed here: a `Rotation` carries the two values. */
module CubeModel {
  import opened Geometry

  type Vertex = Vector3<real>

  /** The values `cosf(angle)` and `sinf(angle)` a rotation uses. */
  datatype Rotation = Rotation(cos: real, sin: real)

  /** A rotation whose two values lie on the unit circle, as cosine and sine do. */
  predicate IsUnit(r: Rotation) {
    r.cos * r.cos + r.sin * r.sin == 1.0
  }

  /** The rotation by the opposite angle: cos is even and sin is odd. */
  function Inverse(r: Rotation): Rotation {
    Rotation(r.cos, -r.sin)
  }

  /** `CubeModel`: a flat vertex list, read in consecutive triples (triangles). */
  datatype CubeModel = CubeModel(vertices: seq<Vertex>)

  function Translate(v: Vertex, d: Vertex): Vertex {
    Vector3(v.x + d.x, v.y + d.y, v.z + d.z)
  }

  function RotateZ(v: Vertex, r: Rotation): Vertex {
    Vector3(r.cos * v.x - r.sin * v.y, r.sin * v.x + r.cos * v.y, v.z)
  }

  function RotateX(v: Vertex, r: Rotation): Vertex {
    Vector3(v.x, r.cos * v.y - r.sin * v.z, r.sin * v.y + r.cos * v.z)
  }

  function RotateY(v: Vertex, r: Rotation): Vertex {
    Vector3(r.cos * v.x + r.sin * v.z, v.y, -r.sin * v.x + r.cos * v.z)
  }

  /** `getTranslated`: the same number of vertices, each moved by exactly `transl`. */
  function GetTranslated(m: CubeModel, transl: Vertex): (r: CubeModel)
    ensures |r.vertices| == |m.vertices|
    ensures forall i :: 0 <= i < |r.vertices| ==>
      r.vertices[i].x - m.vertices[i].x == transl.x &&
      r.vertices[i].y - m.vertices[i].y == transl.y &&
      r.vertices[i].z - m.vertices[i].z == transl.z
  {
    CubeModel(seq(|m.vertices|, i requires 0 <= i < |m.vertices| => Translate(m.vertices[i], transl)))
  }

  /** `getRotatedZ`: the same number of vertices; z is never changed. */
  function GetRotatedZ(m: CubeModel, r: Rotation): (res: CubeModel)
    ensures |res.vertices| == |m.vertices|
    ensures forall i :: 0 <= i < |res.vertices| ==> res.vertices[i].z == m.vertices[i].z
  {
    CubeModel(seq(|m.vertices|, i requires 0 <= i < |m.vertices| => RotateZ(m.vertices[i], r)))
  }

  /** `getRotatedX`: the same number of vertices; x is never changed. */
  function GetRotatedX(m: CubeModel, r: Rotation): (res: CubeModel)
    ensures |res.vertices| == |m.vertices|
    ensures forall i :: 0 <= i < |res.vertices| ==> res.vertices[i].x == m.vertices[i].x
  {
    CubeModel(seq(|m.vertices|, i requires 0 <= i < |m.vertices| => RotateX(m.vertices[i], r)))
  }

  /** `getRotatedY`: the same number of vertices; y is never changed. */
  function GetRotatedY(m: CubeModel, r: Rotation): (res: CubeModel)
    ensures |res.vertices| == |m.vertices|
    ensures forall i :: 0 <= i < |res.vertices| ==> res.vertices[i].y == m.vertices[i].y
  {
    CubeModel(seq(|m.vertices|, i requires 0 <= i < |m.vertices| => RotateY(m.vertices[i], r)))
  }

  /** Translating by `d` and then by `-d` gives back the model. */
  lemma TranslatedRoundTrip(m: CubeModel, d: Vertex)
    ensures GetTranslated(GetTranslated(m, d), Vector3(-d.x, -d.y, -d.z)) == m
  {
    var back := GetTranslated(GetTranslated(m, d), Vector3(-d.x, -d.y, -d.z));
    assert back.vertices == m.vertices;
  }

  /** Rotating about z by an angle and then by its opposite gives back the model. */
  lemma {:induction false} RotatedZRoundTrip(m: CubeModel, r: Rotation)
    requires IsUnit(r)
    ensures GetRotatedZ(GetRotatedZ(m, r), Inverse(r)) == m
  {
    var back := GetRotatedZ(GetRotatedZ(m, r), Inverse(r));
    forall i | 0 <= i < |m.vertices|
      ensures back.vertices[i] == m.vertices[i]
    {
      var v := m.vertices[i];
      assert GetRotatedZ(m, r).vertices[i] == RotateZ(v, r);
      assert back.vertices[i] == RotateZ(RotateZ(v, r), Inverse(r));
      RotateZRoundTrip(v, r);
    }
    assert back.vertices == m.vertices;
  }

  /** Rotating about x by an angle and then by its opposite gives back the model. */
  lemma {:induction false} RotatedXRoundTrip(m: CubeModel, r: Rotation)
    requires IsUnit(r)
    ensures GetRotatedX(GetRotatedX(m, r), Inverse(r)) == m
  {
    var back := GetRotatedX(GetRotatedX(m, r), Inverse(r));
    forall i | 0 <= i < |m.vertices|
      ensures back.vertices[i] == m.vertices[i]
    {
      var v := m.vertices[i];
      assert GetRotatedX(m, r).vertices[i] == RotateX(v, r);
      assert back.vertices[i] == RotateX(RotateX(v, r), Inverse(r));
      RotateXRoundTrip(v, r);
    }
    assert back.vertices == m.vertices;
  }

  /** Rotating about y by an angle and then by its opposite gives back the model. */
  lemma {:induction false} RotatedYRoundTrip(m: CubeModel, r: Rotation)
    requires IsUnit(r)
    ensures GetRotatedY(GetRotatedY(m, r), Inverse(r)) == m
  {
    var back := GetRotatedY(GetRotatedY(m, r), Inverse(r));
    forall i | 0 <= i < |m.vertices|
      ensures back.vertices[i] == m.vertices[i]
    {
      var v := m.vertices[i];
      assert GetRotatedY(m, r).vertices[i] == RotateY(v, r);
      assert back.vertices[i] == RotateY(RotateY(v, r), Inverse(r));
      RotateYRoundTrip(v, r);
    }
    assert back.vertices == m.vertices;
  }

  /** A plane rotation by (c, s) followed by (c, -s) is the identity when c^2 + s^2 = 1. */
  lemma PlaneRoundTrip(a: real, b: real, c: real, s: real)
    requires c * c + s * s == 1.0
    ensures c * (c * a - s * b) - (-s) * (s * a + c * b) == a
    ensures (-s) * (c * a - s * b) + c * (s * a + c * b) == b
  {
    assert c * (c * a - s * b) - (-s) * (s * a + c * b) == (c * c + s * s) * a;
    assert (-s) * (c * a - s * b) + c * (s * a + c * b) == (c * c + s * s) * b;
  }

  lemma RotateZRoundTrip(v: Vertex, r: Rotation)
    requires IsUnit(r)
    ensures RotateZ(RotateZ(v, r), Inverse(r)) == v
  {
    PlaneRoundTrip(v.x, v.y, r.cos, r.sin);
    var u := RotateZ(RotateZ(v, r), Inverse(r));
    assert u.x == v.x && u.y == v.y && u.z == v.z;
  }

  lemma RotateXRoundTrip(v: Vertex, r: Rotation)
    requires IsUnit(r)
    ensures RotateX(RotateX(v, r), Inverse(r)) == v
  {
    PlaneRoundTrip(v.y, v.z, r.cos, r.sin);
    var u := RotateX(RotateX(v, r), Inverse(r));
    assert u.x == v.x && u.y == v.y && u.z == v.z;
  }

  lemma RotateYRoundTrip(v: Vertex, r: Rotation)
    requires IsUnit(r)
    ensures RotateY(RotateY(v, r), Inverse(r)) == v
  {
    var c, s := r.cos, r.sin;
    var w := RotateY(v, r);
    assert w.x == c * v.x + s * v.z && w.z == (-s) * v.x + c * v.z;
    PlaneRoundTrip(v.z, v.x, c, s);
    var u := RotateY(w, Inverse(r));
    assert u.x == v.x && u.y == v.y && u.z == v.z;
  }

  /** A rotation about z keeps every vertex's distance from the z axis. */
  lemma {:induction false} RotatedZKeepsRadius(m: CubeModel, r: Rotation)
    requires IsUnit(r)
    ensures var res := GetRotatedZ(m, r);
      forall i :: 0 <= i < |m.vertices| ==>
        res.vertices[i].x * res.vertices[i].x + res.vertices[i].y * res.vertices[i].y ==
        m.vertices[i].x * m.vertices[i].x + m.vertices[i].y * m.vertices[i].y
  {
    var res := GetRotatedZ(m, r);
    forall i | 0 <= i < |m.vertices|
      ensures res.vertices[i].x * res.vertices[i].x + res.vertices[i].y * res.vertices[i].y ==
        m.vertices[i].x * m.vertices[i].x + m.vertices[i].y * m.vertices[i].y
    {
      assert res.vertices[i] == RotateZ(m.vertices[i], r);
      RotateZKeepsRadius(m.vertices[i], r);
    }
  }

  /** One vertex keeps its distance from the z axis under a rotation about z. */
  lemma RotateZKeepsRadius(v: Vertex, r: Rotation)
    requires IsUnit(r)
    ensures var w := RotateZ(v, r);
      w.x * w.x + w.y * w.y == v.x * v.x + v.y * v.y
  {
    var w := RotateZ(v, r);
    assert w.x == r.cos * v.x - r.sin * v.y && w.y == r.sin * v.x + r.cos * v.y;
    PlaneKeepsRadius(v.x, v.y, r.cos, r.sin);
  }

  /** A plane rotation by (c, s) with c^2 + s^2 = 1 keeps a^2 + b^2. */
  lemma PlaneKeepsRadius(a: real, b: real, c: real, s: real)
    requires c * c + s * s == 1.0
    ensures (c * a - s * b) * (c * a - s * b) + (s * a + c * b) * (s * a + c * b) == a * a + b * b
  {
    assert (c * a - s * b) * (c * a - s * b) + (s * a + c * b) * (s * a + c * b)
        == (c * c + s * s) * (a * a + b * b);
  }

  /** The default vertex list of `CubeModel`: the unit cube [0, 1]^3 as twelve triangles. */
  const UnitCube: CubeModel := CubeModel([
      // face y = 0
      Vector3(0.0, 0.0, 0.0),
      Vector3(1.0, 0.0, 1.0),
      Vector3(1.0, 0.0, 0.0),

      // face y = 0
      Vector3(0.0, 0.0, 0.0),
      Vector3(0.0, 0.0, 1.0),
      Vector3(1.0, 0.0, 1.0),

      // face z = 1
      Vector3(0.0, 0.0, 1.0),
      Vector3(0.0, 1.0, 1.0),
      Vector3(1.0, 0.0, 1.0),

      // face z = 1
      Vector3(0.0, 1.0, 1.0),
      Vector3(1.0, 1.0, 1.0),
      Vector3(1.0, 0.0, 1.0),

      // face x = 0
      Vector3(0.0, 0.0, 0.0),
      Vector3(0.0, 1.0, 0.0),
      Vector3(0.0, 0.0, 1.0),

      // face x = 0
      Vector3(0.0, 0.0, 1.0),
      Vector3(0.0, 1.0, 1.0),
      Vector3(0.0, 1.0, 0.0),

      // face x = 1
      Vector3(1.0, 0.0, 0.0),
      Vector3(1.0, 0.0, 1.0),
      Vector3(1.0, 1.0, 0.0),

      // face x = 1
      Vector3(1.0, 0.0, 1.0),
      Vector3(1.0, 1.0, 1.0),
      Vector3(1.0, 1.0, 0.0),

      // face z = 0
      Vector3(1.0, 0.0, 0.0),
      Vector3(0.0, 1.0, 0.0),
      Vector3(0.0, 0.0, 0.0),

      // face z = 0
      Vector3(1.0, 0.0, 0.0),
      Vector3(1.0, 1.0, 0.0),
      Vector3(0.0, 1.0, 0.0),

      // face y = 1
      Vector3(1.0, 1.0, 1.0),
      Vector3(0.0, 1.0, 1.0),
      Vector3(0.0, 1.0, 0.0),

      // face y = 1
      Vector3(1.0, 1.0, 0.0),
      Vector3(1.0, 1.0, 1.0),
      Vector3(0.0, 1.0, 0.0)
  ])

  /** The cube has twelve triangles, so its vertex count passes `drawCube`'s
      `size % 3 == 0` assertion; every vertex is a corner of the unit cube. */
  lemma UnitCubeShape()
    ensures |UnitCube.vertices| == 36 && |UnitCube.vertices| % 3 == 0
    ensures forall i :: 0 <= i < |UnitCube.vertices| ==>
      var v := UnitCube.vertices[i];
      (v.x == 0.0 || v.x == 1.0) && (v.y == 0.0 || v.y == 1.0) && (v.z == 0.0 || v.z == 1.0)
  {
  }

  /** `drawCube`'s pose: centre the cube on the origin, rotate about z, then x,
      then y, then move it to `pos`. The pose keeps the 36 vertices. */
  function PosedCube(rz: Rotation, rx: Rotation, ry: Rotation, pos: Vertex): (m: CubeModel)
    ensures |m.vertices| == 36 && |m.vertices| % 3 == 0
  {
    var cb := GetTranslated(UnitCube, Vector3(-0.5, -0.5, -0.5));
    GetTranslated(GetRotatedY(GetRotatedX(GetRotatedZ(cb, rz), rx), ry), pos)
  }
}
