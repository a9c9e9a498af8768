/**
  The mesh builder `GenMeshTriangles`: it flattens a triangle list into three
  dense float buffers (positions, flat normals, texture coordinates) for a
  non-indexed mesh, every triangle owning three vertex slots of its own.
  Texture coordinates are normalised to a bounding box whose accumulators
  start at the origin rather than at the first vertex.
 */
module MeshBuilder {
  import opened Geometry

  /** The mesh record: counts and three buffers, `vertexCount == 3 * triangleCount`. */
  class Mesh {
    var triangleCount: nat
    var vertexCount: nat
    var vertices: array<real>
    var normals: array<real>
    var texcoords: array<real>

    /** Buffer sizes follow the counts: 3 floats per vertex, 3 per normal, 2 per texcoord. */
    ghost predicate Valid()
      reads this
    {
      vertexCount == 3 * triangleCount &&
      vertices.Length == 3 * vertexCount &&
      normals.Length == 3 * vertexCount &&
      texcoords.Length == 2 * vertexCount &&
      vertices != normals && vertices != texcoords && normals != texcoords
    }

    /** A zeroed mesh with its counts set for `triangleCount` triangles and its buffers allocated. */
    constructor (triangleCount: nat)
      ensures Valid() && this.triangleCount == triangleCount
      ensures fresh(vertices) && fresh(normals) && fresh(texcoords)
    {
      this.triangleCount := triangleCount;
      vertexCount := triangleCount * 3;
      vertices := new real[triangleCount * 3 * 3];
      normals := new real[triangleCount * 3 * 3];
      texcoords := new real[triangleCount * 3 * 2];
    }
  }

  // ---------------------------------------------------------------------------
  // Bounding box

  /** The `min` accumulator's step on one axis: take `v` when it is smaller. */
  function Lower(m: real, v: real): real {
    if v < m then v else m
  }

  /** The `max` accumulator's step on one axis: take `v` when it is larger. */
  function Upper(m: real, v: real): real {
    if v > m then v else m
  }

  function Shrink(lo: Vec3, p: Vec3): Vec3 {
    Vec3(Lower(lo.x, p.x), Lower(lo.y, p.y), Lower(lo.z, p.z))
  }

  function Grow(hi: Vec3, p: Vec3): Vec3 {
    Vec3(Upper(hi.x, p.x), Upper(hi.y, p.y), Upper(hi.z, p.z))
  }

  /** The `min` corner after visiting `ps` in order, starting from the origin. */
  function BoxMin(ps: seq<Vec3>): Vec3 {
    if ps == [] then Zero else Shrink(BoxMin(ps[..|ps| - 1]), ps[|ps| - 1])
  }

  /** The `max` corner after visiting `ps` in order, starting from the origin. */
  function BoxMax(ps: seq<Vec3>): Vec3 {
    if ps == [] then Zero else Grow(BoxMax(ps[..|ps| - 1]), ps[|ps| - 1])
  }

  /** `m` is the least of 0 and coordinate `k` of every point of `ps`. */
  ghost predicate IsLeast(ps: seq<Vec3>, k: nat, m: real)
    requires k < 3
  {
    m <= 0.0 &&
    (forall p | p in ps :: m <= Coord(p, k)) &&
    (m == 0.0 || exists p | p in ps :: Coord(p, k) == m)
  }

  /** `m` is the greatest of 0 and coordinate `k` of every point of `ps`. */
  ghost predicate IsGreatest(ps: seq<Vec3>, k: nat, m: real)
    requires k < 3
  {
    0.0 <= m &&
    (forall p | p in ps :: Coord(p, k) <= m) &&
    (m == 0.0 || exists p | p in ps :: Coord(p, k) == m)
  }

  /**
    Because both accumulators start at the origin, the box is the tightest
    one around the points together with the origin: on each axis
    `min <= 0 <= max`, every point lies between, and each bound is either 0
    or attained by a point.
   */
  lemma {:induction false} BoxBounds(ps: seq<Vec3>, k: nat)
    requires k < 3
    ensures IsLeast(ps, k, Coord(BoxMin(ps), k))
    ensures IsGreatest(ps, k, Coord(BoxMax(ps), k))
  {
    if ps != [] {
      var front, p := ps[..|ps| - 1], ps[|ps| - 1];
      BoxBounds(front, k);
      assert ps == front + [p];
      var lo := Coord(BoxMin(front), k);
      var hi := Coord(BoxMax(front), k);
      assert Coord(BoxMin(ps), k) == Lower(lo, Coord(p, k));
      assert Coord(BoxMax(ps), k) == Upper(hi, Coord(p, k));
      if lo != 0.0 {
        var q :| q in front && Coord(q, k) == lo;
        assert q in ps;
      }
      if hi != 0.0 {
        var q :| q in front && Coord(q, k) == hi;
        assert q in ps;
      }
    }
  }

  /** Visiting three more points applies one accumulator step per point. */
  lemma BoxSnoc(ps: seq<Vec3>, a: Vec3, b: Vec3, c: Vec3)
    ensures BoxMin(ps + [a, b, c]) == Shrink(Shrink(Shrink(BoxMin(ps), a), b), c)
    ensures BoxMax(ps + [a, b, c]) == Grow(Grow(Grow(BoxMax(ps), a), b), c)
  {
    assert (ps + [a, b, c])[..|ps| + 2] == ps + [a, b];
    assert (ps + [a, b])[..|ps| + 1] == ps + [a];
    assert (ps + [a])[..|ps|] == ps;
    assert BoxMin(ps + [a]) == Shrink(BoxMin(ps), a);
    assert BoxMin(ps + [a, b]) == Shrink(BoxMin(ps + [a]), b);
    assert BoxMin(ps + [a, b, c]) == Shrink(BoxMin(ps + [a, b]), c);
    assert BoxMax(ps + [a]) == Grow(BoxMax(ps), a);
    assert BoxMax(ps + [a, b]) == Grow(BoxMax(ps + [a]), b);
    assert BoxMax(ps + [a, b, c]) == Grow(BoxMax(ps + [a, b]), c);
  }

  /** The bounding box of all corners, visited in order, with both accumulators seeded at the origin. */
  method BoundingBox(tris: seq<Triangle>) returns (lo: Vec3, hi: Vec3)
    ensures lo == BoxMin(Corners(tris)) && hi == BoxMax(Corners(tris))
    ensures forall k | 0 <= k < 3 ::
              IsLeast(Corners(tris), k, Coord(lo, k)) && IsGreatest(Corners(tris), k, Coord(hi, k))
  {
    lo, hi := Zero, Zero;
    for i := 0 to |tris|
      invariant lo == BoxMin(Corners(tris[..i])) && hi == BoxMax(Corners(tris[..i]))
    {
      var t := tris[i];
      hi := Grow(Grow(Grow(hi, t.A), t.B), t.C);
      lo := Shrink(Shrink(Shrink(lo, t.A), t.B), t.C);
      assert tris[..i + 1] == tris[..i] + [t];
      CornersSnoc(tris[..i], t);
      BoxSnoc(Corners(tris[..i]), t.A, t.B, t.C);
    }
    assert tris[..|tris|] == tris;
    forall k | 0 <= k < 3
      ensures IsLeast(Corners(tris), k, Coord(lo, k)) && IsGreatest(Corners(tris), k, Coord(hi, k))
    {
      BoxBounds(Corners(tris), k);
    }
  }

  // ---------------------------------------------------------------------------
  // Texture coordinates and flat normals

  /**
    The float quotient `a / b`. A zero divisor yields NaN in the source; the
    model has no NaN and gives 0 there.
   */
  function Ratio(a: real, b: real): real {
    if b == 0.0 then 0.0 else a / b
  }

  /** The texcoord of a point: its x and z measured from `lo` in units of the box extent. */
  function TexCoord(p: Vec3, lo: Vec3, hi: Vec3): Vec2 {
    var space := Sub(hi, lo);
    Vec2(Ratio(p.x - lo.x, space.x), Ratio(p.z - lo.z, space.z))
  }

  /** The texcoords of every corner, in buffer order. */
  function TexCoords(tris: seq<Triangle>, lo: Vec3, hi: Vec3): (uvs: seq<Vec2>)
    ensures |uvs| == 3 * |tris|
  {
    if tris == [] then []
    else
      var t := tris[|tris| - 1];
      TexCoords(tris[..|tris| - 1], lo, hi) + [TexCoord(t.A, lo, hi), TexCoord(t.B, lo, hi), TexCoord(t.C, lo, hi)]
  }

  lemma {:induction false} TexCoordsAt(tris: seq<Triangle>, lo: Vec3, hi: Vec3, i: nat, j: nat)
    requires i < |tris| && j < 3
    ensures TexCoords(tris, lo, hi)[3 * i + j] == TexCoord(Corner(tris[i], j), lo, hi)
    decreases |tris|
  {
    var front := tris[..|tris| - 1];
    if i < |tris| - 1 {
      TexCoordsAt(front, lo, hi, i, j);
      assert tris[i] == front[i];
    }
  }

  /** The flat normal of every corner: the triangle's normalised face normal, three times. */
  function FlatNormals(tris: seq<Triangle>, norm: Vec3 -> Vec3): (ns: seq<Vec3>)
    ensures |ns| == 3 * |tris|
  {
    if tris == [] then []
    else
      var n := norm(FaceCross(tris[|tris| - 1]));
      FlatNormals(tris[..|tris| - 1], norm) + [n, n, n]
  }

  /** The three normal slots of triangle `i` all hold `Normalize((B - A) x (C - A))`. */
  lemma {:induction false} FlatNormalsAt(tris: seq<Triangle>, norm: Vec3 -> Vec3, i: nat, j: nat)
    requires i < |tris| && j < 3
    ensures FlatNormals(tris, norm)[3 * i + j] == norm(FaceCross(tris[i]))
    decreases |tris|
  {
    var front := tris[..|tris| - 1];
    if i < |tris| - 1 {
      FlatNormalsAt(front, norm, i, j);
      assert tris[i] == front[i];
    }
  }

  /**
    Every texcoord of a triangle list lies in [0, 1] on each axis where the
    bounding box has nonzero extent, since every coordinate lies within the box.
   */
  lemma TexCoordsInUnit(tris: seq<Triangle>, i: nat, j: nat)
    requires i < |tris| && j < 3
    ensures var ps := Corners(tris);
            var lo, hi := BoxMin(ps), BoxMax(ps);
            var uv := TexCoords(tris, lo, hi)[3 * i + j];
            (hi.x != lo.x ==> 0.0 <= uv.x <= 1.0) &&
            (hi.z != lo.z ==> 0.0 <= uv.y <= 1.0)
  {
    var ps := Corners(tris);
    var lo, hi := BoxMin(ps), BoxMax(ps);
    var p := Corner(tris[i], j);
    TexCoordsAt(tris, lo, hi, i, j);
    CornersAt(tris, i, j);
    assert p in ps;
    BoxBounds(ps, 0);
    BoxBounds(ps, 2);
    assert lo.x <= Coord(p, 0) <= hi.x && lo.z <= Coord(p, 2) <= hi.z;
    UnitTexCoord(p, lo, hi);
  }

  /** A point inside the box has both texcoords in [0, 1] on each axis where the box has extent. */
  lemma UnitTexCoord(p: Vec3, lo: Vec3, hi: Vec3)
    requires lo.x <= p.x <= hi.x && lo.z <= p.z <= hi.z
    ensures hi.x != lo.x ==> 0.0 <= TexCoord(p, lo, hi).x <= 1.0
    ensures hi.z != lo.z ==> 0.0 <= TexCoord(p, lo, hi).y <= 1.0
  {
    UnitRatio(p.x - lo.x, hi.x - lo.x);
    UnitRatio(p.z - lo.z, hi.z - lo.z);
  }

  lemma UnitRatio(a: real, b: real)
    requires 0.0 <= a <= b
    ensures 0.0 <= Ratio(a, b) <= 1.0
  {
    if b != 0.0 {
      DivMono(a, b);
    }
  }

  lemma DivMono(a: real, b: real)
    requires 0.0 <= a <= b && b > 0.0
    ensures 0.0 <= a / b <= 1.0
  {
    assert (a / b) * b == a;
  }

  /**
    The origin-seeded box in action: when every corner has a positive x, the
    box's `min.x` stays at 0, so no corner gets texcoord u = 0 and the
    texture is not stretched over the mesh's own extent.
   */
  lemma OriginSeededBox(tris: seq<Triangle>, i: nat, j: nat)
    requires i < |tris| && j < 3
    requires forall p | p in Corners(tris) :: p.x > 0.0
    ensures var ps := Corners(tris);
            var lo, hi := BoxMin(ps), BoxMax(ps);
            lo.x == 0.0 && TexCoords(tris, lo, hi)[3 * i + j].x > 0.0
  {
    var ps := Corners(tris);
    var lo, hi := BoxMin(ps), BoxMax(ps);
    var p := Corner(tris[i], j);
    CornersAt(tris, i, j);
    assert p in ps;
    BoxBounds(ps, 0);
    TexCoordsAt(tris, lo, hi, i, j);
    assert 0.0 < Coord(p, 0) <= hi.x && Coord(lo, 0) == 0.0;
    PositiveTexCoord(p, lo, hi);
  }

  /** With the box's low x at 0, a point with positive x has a positive u. */
  lemma PositiveTexCoord(p: Vec3, lo: Vec3, hi: Vec3)
    requires lo.x == 0.0 && 0.0 < p.x <= hi.x
    ensures TexCoord(p, lo, hi).x > 0.0
  {
    PositiveRatio(p.x, hi.x);
  }

  lemma PositiveRatio(a: real, b: real)
    requires 0.0 < a <= b
    ensures Ratio(a, b) > 0.0
  {
    assert (a / b) * b == a;
  }

  // ---------------------------------------------------------------------------
  // The builder

  /** Nine floats that hold `p`, `q` and `r` in order form the slice `Coords(p) + Coords(q) + Coords(r)`. */
  lemma NineSlice(buf: seq<real>, at: nat, p: Vec3, q: Vec3, r: Vec3)
    requires at + 9 <= |buf|
    requires buf[at] == p.x && buf[at + 1] == p.y && buf[at + 2] == p.z
    requires buf[at + 3] == q.x && buf[at + 4] == q.y && buf[at + 5] == q.z
    requires buf[at + 6] == r.x && buf[at + 7] == r.y && buf[at + 8] == r.z
    ensures buf[at..at + 9] == Coords(p) + Coords(q) + Coords(r)
  {
  }

  /** The nine position floats of triangle `i`: A, B, C, three coordinates each. */
  lemma VertexBlock(tris: seq<Triangle>, i: nat)
    requires i < |tris|
    ensures 9 * i + 9 <= |Flatten(Corners(tris))|
    ensures Flatten(Corners(tris))[9 * i..9 * i + 9] == Coords(tris[i].A) + Coords(tris[i].B) + Coords(tris[i].C)
  {
    var ps := Corners(tris);
    CornersAt(tris, i, 0);
    CornersAt(tris, i, 1);
    CornersAt(tris, i, 2);
    FlattenPoint(ps, 3 * i);
    FlattenPoint(ps, 3 * i + 1);
    FlattenPoint(ps, 3 * i + 2);
    NineSlice(Flatten(ps), 9 * i, tris[i].A, tris[i].B, tris[i].C);
  }

  /** The nine normal floats of triangle `i`: its normalised face normal, three times. */
  lemma NormalBlock(tris: seq<Triangle>, norm: Vec3 -> Vec3, i: nat)
    requires i < |tris|
    ensures 9 * i + 9 <= |Flatten(FlatNormals(tris, norm))|
    ensures var n := norm(FaceCross(tris[i]));
            Flatten(FlatNormals(tris, norm))[9 * i..9 * i + 9] == Coords(n) + Coords(n) + Coords(n)
  {
    var ns := FlatNormals(tris, norm);
    var n := norm(FaceCross(tris[i]));
    FlatNormalsAt(tris, norm, i, 0);
    FlatNormalsAt(tris, norm, i, 1);
    FlatNormalsAt(tris, norm, i, 2);
    FlattenPoint(ns, 3 * i);
    FlattenPoint(ns, 3 * i + 1);
    FlattenPoint(ns, 3 * i + 2);
    NineSlice(Flatten(ns), 9 * i, n, n, n);
  }

  /** The six texcoord floats of triangle `i`: u and v of A, B and C. */
  lemma TexBlock(tris: seq<Triangle>, lo: Vec3, hi: Vec3, i: nat)
    requires i < |tris|
    ensures 6 * i + 6 <= |Flatten2(TexCoords(tris, lo, hi))|
    ensures var t := tris[i];
            var a, b, c := TexCoord(t.A, lo, hi), TexCoord(t.B, lo, hi), TexCoord(t.C, lo, hi);
            Flatten2(TexCoords(tris, lo, hi))[6 * i..6 * i + 6] == [a.x, a.y, b.x, b.y, c.x, c.y]
  {
    var uvs := TexCoords(tris, lo, hi);
    TexCoordsAt(tris, lo, hi, i, 0);
    TexCoordsAt(tris, lo, hi, i, 1);
    TexCoordsAt(tris, lo, hi, i, 2);
    Flatten2At(uvs, 3 * i);
    Flatten2At(uvs, 3 * i + 1);
    Flatten2At(uvs, 3 * i + 2);
    SixSlice(Flatten2(uvs), 6 * i, uvs[3 * i], uvs[3 * i + 1], uvs[3 * i + 2]);
  }

  /** Six floats that hold `a`, `b` and `c` in order form the slice of their coordinates. */
  lemma SixSlice(buf: seq<real>, at: nat, a: Vec2, b: Vec2, c: Vec2)
    requires at + 6 <= |buf|
    requires buf[at] == a.x && buf[at + 1] == a.y && buf[at + 2] == b.x
    requires buf[at + 3] == b.y && buf[at + 4] == c.x && buf[at + 5] == c.y
    ensures buf[at..at + 6] == [a.x, a.y, b.x, b.y, c.x, c.y]
  {
  }

  /** A buffer that agrees with `want` up to `at` and on the block after it agrees up to the block's end. */
  lemma Glue(a: seq<real>, want: seq<real>, at: nat, len: nat)
    requires at + len <= |a| && at + len <= |want|
    requires a[..at] == want[..at] && a[at..at + len] == want[at..at + len]
    ensures a[..at + len] == want[..at + len]
  {
    assert a[..at + len] == a[..at] + a[at..at + len];
    assert want[..at + len] == want[..at] + want[at..at + len];
  }

  /**
    Writes three points, three floats each, into the nine slots from `at` on;
    a buffer that matched `want` before `at` then matches it past the block.
   */
  method StoreThree(a: array<real>, ghost want: seq<real>, at: nat, p: Vec3, q: Vec3, r: Vec3)
    requires at + 9 <= a.Length && at + 9 <= |want|
    requires a[..at] == want[..at] && want[at..at + 9] == Coords(p) + Coords(q) + Coords(r)
    modifies a
    ensures a[..at + 9] == want[..at + 9]
    ensures a[at + 9..] == old(a[at + 9..])
  {
    a[at] := p.x;
    a[at + 1] := p.y;
    a[at + 2] := p.z;

    a[at + 3] := q.x;
    a[at + 4] := q.y;
    a[at + 5] := q.z;

    a[at + 6] := r.x;
    a[at + 7] := r.y;
    a[at + 8] := r.z;
    Glue(a[..], want, at, 9);
  }

  /** Writes three texcoords, two floats each, into the six slots from `at` on, extending a prefix that matches `want`. */
  method StoreUVs(a: array<real>, ghost want: seq<real>, at: nat, u: Vec2, v: Vec2, w: Vec2)
    requires at + 6 <= a.Length && at + 6 <= |want|
    requires a[..at] == want[..at] && want[at..at + 6] == [u.x, u.y, v.x, v.y, w.x, w.y]
    modifies a
    ensures a[..at + 6] == want[..at + 6]
    ensures a[at + 6..] == old(a[at + 6..])
  {
    a[at] := u.x;
    a[at + 1] := u.y;

    a[at + 2] := v.x;
    a[at + 3] := v.y;

    a[at + 4] := w.x;
    a[at + 5] := w.y;
    Glue(a[..], want, at, 6);
  }

  /**
    One pass of the builder's loop: the positions, texcoords and normal of
    triangle `i`, written at `9i`, `6i` and `9i`; each buffer that matched its
    target before the triangle matches it past the triangle. Returns the
    normal it wrote.
   */
  method EmitTriangle(vertices: array<real>, texcoords: array<real>, normals: array<real>,
                      ghost wantV: seq<real>, ghost wantT: seq<real>, ghost wantN: seq<real>,
                      i: nat, t: Triangle, lo: Vec3, hi: Vec3, space: Vec3, norm: Vec3 -> Vec3)
    returns (vN: Vec3)
    requires vertices != normals && vertices != texcoords && normals != texcoords
    requires space == Sub(hi, lo)
    requires 9 * i + 9 <= vertices.Length && 9 * i + 9 <= |wantV|
    requires 6 * i + 6 <= texcoords.Length && 6 * i + 6 <= |wantT|
    requires 9 * i + 9 <= normals.Length && 9 * i + 9 <= |wantN|
    requires vertices[..9 * i] == wantV[..9 * i]
    requires texcoords[..6 * i] == wantT[..6 * i]
    requires normals[..9 * i] == wantN[..9 * i]
    requires wantV[9 * i..9 * i + 9] == Coords(t.A) + Coords(t.B) + Coords(t.C)
    requires var a, b, c := TexCoord(t.A, lo, hi), TexCoord(t.B, lo, hi), TexCoord(t.C, lo, hi);
             wantT[6 * i..6 * i + 6] == [a.x, a.y, b.x, b.y, c.x, c.y]
    requires var n := norm(FaceCross(t)); wantN[9 * i..9 * i + 9] == Coords(n) + Coords(n) + Coords(n)
    modifies vertices, texcoords, normals
    ensures vN == norm(FaceCross(t))
    ensures vertices[..9 * i + 9] == wantV[..9 * i + 9]
    ensures texcoords[..6 * i + 6] == wantT[..6 * i + 6]
    ensures normals[..9 * i + 9] == wantN[..9 * i + 9]
    ensures vertices[9 * i + 9..] == old(vertices[9 * i + 9..])
    ensures texcoords[6 * i + 6..] == old(texcoords[6 * i + 6..])
    ensures normals[9 * i + 9..] == old(normals[9 * i + 9..])
  {
    StoreThree(vertices, wantV, 9 * i, t.A, t.B, t.C);

    var uvA := Vec2(Ratio(t.A.x - lo.x, space.x), Ratio(t.A.z - lo.z, space.z));
    var uvB := Vec2(Ratio(t.B.x - lo.x, space.x), Ratio(t.B.z - lo.z, space.z));
    var uvC := Vec2(Ratio(t.C.x - lo.x, space.x), Ratio(t.C.z - lo.z, space.z));
    StoreUVs(texcoords, wantT, 6 * i, uvA, uvB, uvC);

    vN := norm(Cross(Sub(t.B, t.A), Sub(t.C, t.A)));
    StoreThree(normals, wantN, 9 * i, vN, vN, vN);
  }

  /**
    The builder's loop: walks the triangles once, writing through the three
    running counters, so that the buffers end up as the positions, the
    texcoords against `lo` and `hi`, and the flat normals of the list.
   */
  method FillBuffers(vertices: array<real>, texcoords: array<real>, normals: array<real>,
                     tris: seq<Triangle>, lo: Vec3, hi: Vec3, norm: Vec3 -> Vec3)
    requires vertices != normals && vertices != texcoords && normals != texcoords
    requires vertices.Length == 9 * |tris| && normals.Length == 9 * |tris| && texcoords.Length == 6 * |tris|
    modifies vertices, texcoords, normals
    ensures vertices[..] == Flatten(Corners(tris))
    ensures texcoords[..] == Flatten2(TexCoords(tris, lo, hi))
    ensures normals[..] == Flatten(FlatNormals(tris, norm))
  {
    var space := Sub(hi, lo);
    ghost var wantV := Flatten(Corners(tris));
    ghost var wantT := Flatten2(TexCoords(tris, lo, hi));
    ghost var wantN := Flatten(FlatNormals(tris, norm));

    var vCounter := 0;
    var tcCounter := 0;
    var nCounter := 0;
    var vN := Zero;

    for i := 0 to |tris|
      invariant vCounter == 9 * i && tcCounter == 6 * i && nCounter == 9 * i
      invariant vertices[..vCounter] == wantV[..vCounter]
      invariant texcoords[..tcCounter] == wantT[..tcCounter]
      invariant normals[..nCounter] == wantN[..nCounter]
    {
      var t := tris[i];
      VertexBlock(tris, i);
      TexBlock(tris, lo, hi, i);
      NormalBlock(tris, norm, i);
      vN := EmitTriangle(vertices, texcoords, normals, wantV, wantT, wantN, i, t, lo, hi, space, norm);
      vCounter, tcCounter, nCounter := vCounter + 9, tcCounter + 6, nCounter + 9;
    }
    assert vertices[..] == vertices[..vCounter];
    assert texcoords[..] == texcoords[..tcCounter];
    assert normals[..] == normals[..nCounter];
  }

  /**
    `GenMeshTriangles` without the GPU upload: positions verbatim, one
    texcoord per corner from the origin-seeded bounding box, and the
    normalised face normal written to all three slots of its triangle.
    `norm` stands for `Vector3Normalize`.
   */
  method GenMeshTriangles(tris: seq<Triangle>, norm: Vec3 -> Vec3) returns (mesh: Mesh)
    ensures fresh(mesh) && fresh(mesh.vertices) && fresh(mesh.normals) && fresh(mesh.texcoords)
    ensures mesh.Valid() && mesh.triangleCount == |tris| && mesh.vertexCount == 3 * |tris|
    ensures mesh.vertices[..] == Flatten(Corners(tris))
    ensures mesh.texcoords[..] == Flatten2(TexCoords(tris, BoxMin(Corners(tris)), BoxMax(Corners(tris))))
    ensures mesh.normals[..] == Flatten(FlatNormals(tris, norm))
  {
    var lo, hi := BoundingBox(tris);
    mesh := new Mesh(|tris|);
    FillBuffers(mesh.vertices, mesh.texcoords, mesh.normals, tris, lo, hi, norm);
  }
}
