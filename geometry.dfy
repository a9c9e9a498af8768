/**
  Vectors, triangles and the flat float-buffer layout shared by the terrain
  pipeline. Coordinates are exact reals; `==` on `Vec3` is exact, component by
  component, as the source's `operator==` on Vector3 is.
 */
module Geometry {

  /** A horizontal coordinate: `x` and `y`, where `y` is the world z axis. */
  datatype Vec2 = Vec2(x: real, y: real)

  /** A point or direction in space; `y` is the elevation. */
  datatype Vec3 = Vec3(x: real, y: real, z: real)

  /** An ordered triple of corners; the winding fixes the face normal's sign. */
  datatype Triangle = Triangle(A: Vec3, B: Vec3, C: Vec3)

  const Zero: Vec3 := Vec3(0.0, 0.0, 0.0)

  function Add(u: Vec3, v: Vec3): Vec3 {
    Vec3(u.x + v.x, u.y + v.y, u.z + v.z)
  }

  function Sub(u: Vec3, v: Vec3): Vec3 {
    Vec3(u.x - v.x, u.y - v.y, u.z - v.z)
  }

  function Scale(k: real, v: Vec3): Vec3 {
    Vec3(k * v.x, k * v.y, k * v.z)
  }

  /** The right-handed cross product, component for component as raymath computes it. */
  function Cross(u: Vec3, v: Vec3): Vec3 {
    Vec3(u.y * v.z - u.z * v.y, u.z * v.x - u.x * v.z, u.x * v.y - u.y * v.x)
  }

  /** The unnormalised face normal `(B - A) x (C - A)` of a triangle. */
  function FaceCross(t: Triangle): Vec3 {
    Cross(Sub(t.B, t.A), Sub(t.C, t.A))
  }

  /** Coordinate `k` (0 = x, 1 = y, 2 = z) of a point. */
  function Coord(p: Vec3, k: nat): real
    requires k < 3
  {
    if k == 0 then p.x else if k == 1 then p.y else p.z
  }

  /** Corner `j` (0 = A, 1 = B, 2 = C) of a triangle. */
  function Corner(t: Triangle, j: nat): Vec3
    requires j < 3
  {
    if j == 0 then t.A else if j == 1 then t.B else t.C
  }

  /** The corners of a triangle list in buffer order: A, B, C of the first triangle, then of the next. */
  function Corners(tris: seq<Triangle>): (ps: seq<Vec3>)
    ensures |ps| == 3 * |tris|
  {
    if tris == [] then []
    else
      var t := tris[|tris| - 1];
      Corners(tris[..|tris| - 1]) + [t.A, t.B, t.C]
  }

  /** Vertex `j` of triangle `i` is corner `3i + j` of the list. */
  lemma {:induction false} CornersAt(tris: seq<Triangle>, i: nat, j: nat)
    requires i < |tris| && j < 3
    ensures Corners(tris)[3 * i + j] == Corner(tris[i], j)
    decreases |tris|
  {
    var front := tris[..|tris| - 1];
    if i < |tris| - 1 {
      CornersAt(front, i, j);
      assert tris[i] == front[i];
    }
  }

  /** Appending one triangle appends its three corners. */
  lemma CornersSnoc(tris: seq<Triangle>, t: Triangle)
    ensures Corners(tris + [t]) == Corners(tris) + [t.A, t.B, t.C]
  {
    assert (tris + [t])[..|tris|] == tris;
  }

  /** The three floats a point occupies in a buffer. */
  function Coords(p: Vec3): seq<real> {
    [p.x, p.y, p.z]
  }

  /** A list of points written as a dense float buffer, three floats per point. */
  function Flatten(ps: seq<Vec3>): (r: seq<real>)
    ensures |r| == 3 * |ps|
  {
    if ps == [] then [] else Flatten(ps[..|ps| - 1]) + Coords(ps[|ps| - 1])
  }

  /** Float `3k + c` of a flattened buffer is coordinate `c` of point `k`. */
  lemma {:induction false} FlattenAt(ps: seq<Vec3>, k: nat, c: nat)
    requires k < |ps| && c < 3
    ensures Flatten(ps)[3 * k + c] == Coord(ps[k], c)
    decreases |ps|
  {
    var front := ps[..|ps| - 1];
    if k < |ps| - 1 {
      FlattenAt(front, k, c);
      assert ps[k] == front[k];
    }
  }

  /** Point `k` of a flattened buffer occupies floats `3k`, `3k + 1` and `3k + 2`. */
  lemma FlattenPoint(ps: seq<Vec3>, k: nat)
    requires k < |ps|
    ensures Flatten(ps)[3 * k] == ps[k].x && Flatten(ps)[3 * k + 1] == ps[k].y && Flatten(ps)[3 * k + 2] == ps[k].z
  {
    FlattenAt(ps, k, 0);
    FlattenAt(ps, k, 1);
    FlattenAt(ps, k, 2);
  }

  /** Reads a float buffer back as points, three floats per point. */
  function Points(buf: seq<real>): (ps: seq<Vec3>)
    requires |buf| % 3 == 0
    ensures |ps| == |buf| / 3
    ensures forall k :: 0 <= k < |ps| ==> ps[k] == Vec3(buf[3 * k], buf[3 * k + 1], buf[3 * k + 2])
  {
    seq(|buf| / 3, k requires 0 <= k < |buf| / 3 => Vec3(buf[3 * k], buf[3 * k + 1], buf[3 * k + 2]))
  }

  /** Flattening a buffer read back as points gives the buffer itself. */
  lemma FlattenPoints(buf: seq<real>)
    requires |buf| % 3 == 0
    ensures Flatten(Points(buf)) == buf
  {
    var ps := Points(buf);
    forall i | 0 <= i < |buf|
      ensures Flatten(ps)[i] == buf[i]
    {
      var k, c := i / 3, i % 3;
      FlattenAt(ps, k, c);
    }
  }

  /**
    Point `m` of a buffer read back as points is the three floats from `at = 3m` on.
    The caller passes its own offset term as `at`, so the index arithmetic matches syntactically.
   */
  lemma PointAt(buf: seq<real>, m: nat, at: nat)
    requires |buf| % 3 == 0 && 3 * m + 3 <= |buf| && at == 3 * m
    ensures m < |Points(buf)| && Points(buf)[m] == Vec3(buf[at], buf[at + 1], buf[at + 2])
  {
  }

  /** The three floats of point `k` form the slice from `3k` to `3k + 3` of the flattened buffer. */
  lemma FlattenSlot(ps: seq<Vec3>, k: nat)
    requires k < |ps|
    ensures 3 * k + 3 <= |Flatten(ps)| && Flatten(ps)[3 * k..3 * k + 3] == Coords(ps[k])
  {
    FlattenPoint(ps, k);
    assert Flatten(ps)[3 * k..3 * k + 3] == [ps[k].x, ps[k].y, ps[k].z];
  }

  /** Reading a flattened buffer back gives the original points. */
  lemma PointsFlatten(ps: seq<Vec3>)
    ensures Points(Flatten(ps)) == ps
  {
    var buf := Flatten(ps);
    forall k | 0 <= k < |ps|
      ensures Points(buf)[k] == ps[k]
    {
      FlattenPoint(ps, k);
    }
  }

  /** A list of 2D coordinates as a dense float buffer, two floats per entry. */
  function Flatten2(us: seq<Vec2>): (r: seq<real>)
    ensures |r| == 2 * |us|
  {
    if us == [] then [] else Flatten2(us[..|us| - 1]) + [us[|us| - 1].x, us[|us| - 1].y]
  }

  /** Floats `2k` and `2k + 1` of a flattened buffer are entry `k`. */
  lemma {:induction false} Flatten2At(us: seq<Vec2>, k: nat)
    requires k < |us|
    ensures Flatten2(us)[2 * k] == us[k].x && Flatten2(us)[2 * k + 1] == us[k].y
    decreases |us|
  {
    var front := us[..|us| - 1];
    if k < |us| - 1 {
      Flatten2At(front, k);
      assert us[k] == front[k];
    }
  }
}
