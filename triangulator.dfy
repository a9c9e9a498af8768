/**
  The grid triangulator `Terrain::triangles`: it walks a square chunk in
  `detail`-sized steps, x in the outer loop and z in the inner one, samples the
  height field at the four corners of every cell and emits two triangles per
  cell. `Grid` gives the result cell by cell with every corner evaluated
  directly; the method, which rolls two corners over from one z-step to the
  next, is proved to produce exactly that list.
 */
module Triangulator {
  import opened Geometry

  /** The terrain's height field; with its cache disabled a lookup is a plain call. */
  datatype Terrain = Terrain(f: Vec2 -> real) {
    /** `Terrain::operator[]`: the elevation at horizontal coordinate `p`. */
    function At(p: Vec2): real {
      f(p)
    }
  }

  /** The surface point above `(x, z)`. */
  function Sample(t: Terrain, x: real, z: real): Vec3 {
    Vec3(x, t.At(Vec2(x, z)), z)
  }

  /** A float loop variable that starts at `o` after `k` increments of `d`. */
  function Advance(o: real, k: nat, d: real): real {
    if k == 0 then o else Advance(o, k - 1, d) + d
  }

  /** `k` increments of `d` move a loop variable by exactly `k * d`. */
  lemma {:induction false} AdvanceIsProduct(o: real, k: nat, d: real)
    ensures Advance(o, k, d) == o + k as real * d
  {
    if k > 0 {
      AdvanceIsProduct(o, k - 1, d);
      assert (k - 1) as real * d + d == k as real * d;
    }
  }

  /** The two triangles of the cell whose low corner is at grid index `(i, j)`. */
  function CellAt(t: Terrain, origin: Vec2, d: real, i: nat, j: nat): seq<Triangle> {
    var x := Advance(origin.x, i, d);
    var z := Advance(origin.y, j, d);
    var A := Sample(t, x, z);
    var B := Sample(t, x + d, z);
    var C := Sample(t, x, z + d);
    var D := Sample(t, x + d, z + d);
    [Triangle(C, B, A), Triangle(B, C, D)]
  }

  /** The first `m` cells of column `i` (one pass of the inner loop), in order of z. */
  function Strip(t: Terrain, origin: Vec2, d: real, i: nat, m: nat): (r: seq<Triangle>)
    ensures |r| == 2 * m
  {
    if m == 0 then [] else Strip(t, origin, d, i, m - 1) + CellAt(t, origin, d, i, m - 1)
  }

  /** The first `m` columns of `n` cells each, in order of x. */
  function Columns(t: Terrain, origin: Vec2, d: real, m: nat, n: nat): seq<Triangle> {
    if m == 0 then [] else Columns(t, origin, d, m - 1, n) + Strip(t, origin, d, m - 1, n)
  }

  /** Whether `k` steps of `d` from 0 stay below `span`. */
  predicate Fits(k: nat, span: real, d: real) {
    k as real * d < span
  }

  lemma DivTimes(a: real, d: real)
    requires d > 0.0
    ensures (a / d) * d == a
  {
  }

  lemma ZeroFactor(a: real, d: real)
    requires d > 0.0 && a * d == 0.0
    ensures a == 0.0
  {
  }

  /** One step less to go: `(span - d) / d == span / d - 1`. */
  lemma DivShift(span: real, d: real)
    requires d > 0.0
    ensures (span - d) / d == span / d - 1.0
  {
    DivTimes(span, d);
    DivTimes(span - d, d);
    var q := span / d;
    var r := (span - d) / d;
    assert (r - q + 1.0) * d == r * d - q * d + d;
    ZeroFactor(r - q + 1.0, d);
  }

  lemma FloorDrop(q: real)
    ensures (q - 1.0).Floor < q.Floor
  {
  }

  /** How many times a loop `for (v = o; v < o + span; v += d)` runs. */
  function StepCount(span: real, d: real): nat
    requires d > 0.0
    decreases if span <= 0.0 then 0 else (span / d).Floor + 1
  {
    if span <= 0.0 then 0
    else
      DivShift(span, d);
      FloorDrop(span / d);
      1 + StepCount(span - d, d)
  }

  /** `StepCount` counts exactly the steps that stay below the bound. */
  lemma {:induction false} StepCountSpec(span: real, d: real)
    requires d > 0.0
    ensures forall k: nat :: k < StepCount(span, d) <==> Fits(k, span, d)
    decreases if span <= 0.0 then 0 else (span / d).Floor + 1
  {
    if span <= 0.0 {
      forall k: nat ensures !Fits(k, span, d) {
        assert 0.0 <= k as real * d;
      }
    } else {
      DivShift(span, d);
      FloorDrop(span / d);
      StepCountSpec(span - d, d);
      forall k: nat ensures k < StepCount(span, d) <==> Fits(k, span, d) {
        if k > 0 {
          assert Fits(k - 1, span - d, d) <==> Fits(k, span, d);
        }
      }
    }
  }

  /**
    The loop `for (v = o; v < o + span; v += d)` visits `v` at step `k`
    exactly when `k < StepCount(span, d)`.
   */
  lemma LoopSteps(o: real, span: real, d: real)
    requires d > 0.0
    ensures forall k: nat :: k < StepCount(span, d) <==> Advance(o, k, d) < o + span
  {
    StepCountSpec(span, d);
    forall k: nat ensures k < StepCount(span, d) <==> Advance(o, k, d) < o + span {
      AdvanceIsProduct(o, k, d);
      assert Fits(k, span, d) <==> Advance(o, k, d) < o + span;
    }
  }

  /** Cells per axis of a chunk: the loop bound is `origin + chunkSize - detail`. */
  function CellCount(chunkSize: nat, detail: real): nat
    requires detail > 0.0
  {
    StepCount(chunkSize as real - detail, detail)
  }

  /** The triangles of a chunk, every corner evaluated directly, x-major then z. */
  function Grid(t: Terrain, origin: Vec2, chunkSize: nat, detail: real): seq<Triangle>
    requires detail > 0.0
  {
    var n := CellCount(chunkSize, detail);
    Columns(t, origin, detail, n, n)
  }

  /**
    `Terrain::triangles`. The float loop variables are exact reals here;
    `C` and `D` are carried from one z-step to the next as `A` and `B`.
   */
  method Triangles(t: Terrain, origin: Vec2, chunkSize: nat, detail: real) returns (tris: seq<Triangle>)
    requires detail > 0.0
    ensures tris == Grid(t, origin, chunkSize, detail)
  {
    var n := CellCount(chunkSize, detail);
    LoopSteps(origin.x, chunkSize as real - detail, detail);
    LoopSteps(origin.y, chunkSize as real - detail, detail);
    tris := [];
    var x := origin.x;
    ghost var i: nat := 0;
    while x < origin.x + chunkSize as real - detail
      invariant i <= n
      invariant x == Advance(origin.x, i, detail)
      invariant tris == Columns(t, origin, detail, i, n)
      decreases n - i
    {
      var c := Vec2(x, origin.y);
      var d := Vec2(x + detail, origin.y);
      var C := Vec3(x, t.At(c), origin.y);
      var D := Vec3(x + detail, t.At(d), origin.y);
      var z := origin.y;
      ghost var j: nat := 0;
      while z < origin.y + chunkSize as real - detail
        invariant j <= n
        invariant z == Advance(origin.y, j, detail)
        invariant C == Sample(t, x, z) && D == Sample(t, x + detail, z)
        invariant tris == Columns(t, origin, detail, i, n) + Strip(t, origin, detail, i, j)
        decreases n - j
      {
        c := Vec2(x, z + detail);
        d := Vec2(x + detail, z + detail);
        var A := C;
        var B := D;
        C := Vec3(x, t.At(c), z + detail);
        D := Vec3(x + detail, t.At(d), z + detail);
        tris := tris + [Triangle(C, B, A)];
        tris := tris + [Triangle(B, C, D)];
        assert [Triangle(C, B, A), Triangle(B, C, D)] == CellAt(t, origin, detail, i, j);
        z := z + detail;
        j := j + 1;
      }
      x := x + detail;
      i := i + 1;
    }
  }

  /** Two triangles per cell: `2 * n * n` in all, `n` cells along each axis. */
  lemma {:induction false} GridLength(t: Terrain, origin: Vec2, chunkSize: nat, detail: real)
    requires detail > 0.0
    ensures |Grid(t, origin, chunkSize, detail)| == 2 * CellCount(chunkSize, detail) * CellCount(chunkSize, detail)
  {
    var n := CellCount(chunkSize, detail);
    ColumnsLength(t, origin, detail, n, n);
  }

  lemma {:induction false} ColumnsLength(t: Terrain, origin: Vec2, d: real, m: nat, n: nat)
    ensures |Columns(t, origin, d, m, n)| == 2 * m * n
  {
    if m > 0 {
      ColumnsLength(t, origin, d, m - 1, n);
      assert 2 * m * n == 2 * (m - 1) * n + 2 * n;
    }
  }

  /** Cell `(i, j)` of column `i` occupies positions `2j` and `2j + 1` of the strip. */
  lemma {:induction false} StripAt(t: Terrain, origin: Vec2, d: real, i: nat, m: nat, j: nat, s: nat)
    requires j < m && s < 2
    ensures Strip(t, origin, d, i, m)[2 * j + s] == CellAt(t, origin, d, i, j)[s]
  {
    if j < m - 1 {
      StripAt(t, origin, d, i, m - 1, j, s);
    }
  }

  lemma {:induction false} ColumnsAt(t: Terrain, origin: Vec2, d: real, m: nat, n: nat, i: nat, j: nat, s: nat)
    requires i < m && j < n && s < 2
    ensures 2 * (i * n + j) + s < |Columns(t, origin, d, m, n)|
    ensures Columns(t, origin, d, m, n)[2 * (i * n + j) + s] == CellAt(t, origin, d, i, j)[s]
  {
    var mm := m - 1;
    var front := Columns(t, origin, d, mm, n);
    var strip := Strip(t, origin, d, mm, n);
    assert Columns(t, origin, d, m, n) == front + strip;
    ColumnsLength(t, origin, d, mm, n);
    var k := 2 * (i * n + j) + s;
    if i < mm {
      ColumnsAt(t, origin, d, mm, n, i, j, s);
      RowMajorBound(i, j, s, n, mm);
      assert k < |front|;
    } else {
      RowMajorSplit(i, j, s, n);
      assert k == |front| + (2 * j + s);
      StripAt(t, origin, d, i, n, j, s);
    }
  }

  /** Row-major positions of the first `m` rows stay below `2 m n`. */
  lemma RowMajorBound(i: nat, j: nat, s: nat, n: nat, m: nat)
    requires i < m && j < n && s < 2
    ensures 2 * (i * n + j) + s < 2 * m * n
  {
    assert m * n == (i + 1) * n + (m - i - 1) * n;
    assert (m - i - 1) * n >= 0;
  }

  /** Position `2(i n + j) + s` lies `2j + s` past the `2 i n` entries of the earlier rows. */
  lemma RowMajorSplit(i: nat, j: nat, s: nat, n: nat)
    ensures 2 * (i * n + j) + s == 2 * i * n + (2 * j + s)
  {
  }

  /**
    Output order: triangle `2(i n + j)` is `(C, B, A)` and triangle
    `2(i n + j) + 1` is `(B, C, D)` of the cell at step `i` along x and step
    `j` along z, with A, B, C, D its corners at `(x, z)`, `(x + d, z)`,
    `(x, z + d)`, `(x + d, z + d)`, each sampled directly from the height field.
   */
  lemma GridAt(t: Terrain, origin: Vec2, chunkSize: nat, detail: real, i: nat, j: nat)
    requires detail > 0.0
    requires i < CellCount(chunkSize, detail) && j < CellCount(chunkSize, detail)
    ensures var n := CellCount(chunkSize, detail);
            var g := Grid(t, origin, chunkSize, detail);
            var x := origin.x + i as real * detail;
            var z := origin.y + j as real * detail;
            var A := Sample(t, x, z);
            var B := Sample(t, x + detail, z);
            var C := Sample(t, x, z + detail);
            var D := Sample(t, x + detail, z + detail);
            2 * (i * n + j) + 1 < |g| &&
            g[2 * (i * n + j)] == Triangle(C, B, A) &&
            g[2 * (i * n + j) + 1] == Triangle(B, C, D)
  {
    var n := CellCount(chunkSize, detail);
    ColumnsAt(t, origin, detail, n, n, i, j, 0);
    ColumnsAt(t, origin, detail, n, n, i, j, 1);
    AdvanceIsProduct(origin.x, i, detail);
    AdvanceIsProduct(origin.y, j, detail);
  }

  /** A triangle belongs to the cell at grid index `(i, j)`. */
  ghost predicate InCell(t: Terrain, origin: Vec2, d: real, tri: Triangle, i: nat, j: nat) {
    tri in CellAt(t, origin, d, i, j)
  }

  lemma {:induction false} StripMembers(t: Terrain, origin: Vec2, d: real, i: nat, m: nat)
    ensures forall tri :: tri in Strip(t, origin, d, i, m) ==>
              exists j: nat :: j < m && InCell(t, origin, d, tri, i, j)
  {
    if m > 0 {
      StripMembers(t, origin, d, i, m - 1);
      forall tri | tri in Strip(t, origin, d, i, m)
        ensures exists j: nat :: j < m && InCell(t, origin, d, tri, i, j)
      {
        if tri in CellAt(t, origin, d, i, m - 1) {
          assert InCell(t, origin, d, tri, i, m - 1);
        } else {
          assert tri in Strip(t, origin, d, i, m - 1);
          var j: nat :| j < m - 1 && InCell(t, origin, d, tri, i, j);
          assert j < m;
        }
      }
    }
  }

  lemma {:induction false} ColumnsMembers(t: Terrain, origin: Vec2, d: real, m: nat, n: nat)
    ensures forall tri :: tri in Columns(t, origin, d, m, n) ==>
              exists i: nat, j: nat :: i < m && j < n && InCell(t, origin, d, tri, i, j)
  {
    if m > 0 {
      ColumnsMembers(t, origin, d, m - 1, n);
      StripMembers(t, origin, d, m - 1, n);
      forall tri | tri in Columns(t, origin, d, m, n)
        ensures exists i: nat, j: nat :: i < m && j < n && InCell(t, origin, d, tri, i, j)
      {
        if tri in Strip(t, origin, d, m - 1, n) {
          var j: nat :| j < n && InCell(t, origin, d, tri, m - 1, j);
          assert m - 1 < m;
        } else {
          assert tri in Columns(t, origin, d, m - 1, n);
          var i: nat, j: nat :| i < m - 1 && j < n && InCell(t, origin, d, tri, i, j);
          assert i < m;
        }
      }
    }
  }

  /** Every triangle of the chunk is one of the two of some cell inside the chunk. */
  lemma GridMembers(t: Terrain, origin: Vec2, chunkSize: nat, detail: real, tri: Triangle)
    requires detail > 0.0
    requires tri in Grid(t, origin, chunkSize, detail)
    ensures exists i: nat, j: nat :: i < CellCount(chunkSize, detail) && j < CellCount(chunkSize, detail) &&
              InCell(t, origin, detail, tri, i, j)
  {
    var n := CellCount(chunkSize, detail);
    ColumnsMembers(t, origin, detail, n, n);
  }

  /** A point lies on the height field. */
  predicate OnSurface(t: Terrain, p: Vec3) {
    p.y == t.At(Vec2(p.x, p.z))
  }

  /** A point lies over the half-open chunk `[origin, origin + chunkSize)` on both axes. */
  predicate OverChunk(origin: Vec2, chunkSize: nat, p: Vec3) {
    origin.x <= p.x < origin.x + chunkSize as real &&
    origin.y <= p.z < origin.y + chunkSize as real
  }

  /**
    Every emitted vertex is the height field sampled at its own horizontal
    coordinates (so the rolled-over corners agree with direct evaluation),
    and lies over the chunk: a trailing strip narrower than `detail` is dropped.
   */
  lemma GridVertices(t: Terrain, origin: Vec2, chunkSize: nat, detail: real, tri: Triangle, c: nat)
    requires detail > 0.0
    requires tri in Grid(t, origin, chunkSize, detail) && c < 3
    ensures OnSurface(t, Corner(tri, c))
    ensures OverChunk(origin, chunkSize, Corner(tri, c))
  {
    var n := CellCount(chunkSize, detail);
    GridMembers(t, origin, chunkSize, detail, tri);
    var i: nat, j: nat :| i < n && j < n && InCell(t, origin, detail, tri, i, j);
    LoopSteps(origin.x, chunkSize as real - detail, detail);
    LoopSteps(origin.y, chunkSize as real - detail, detail);
    AdvanceIsProduct(origin.x, i, detail);
    AdvanceIsProduct(origin.y, j, detail);
    assert 0.0 <= i as real * detail && 0.0 <= j as real * detail;
  }

  /**
    The fixed winding makes every face point up: the unnormalised face normal
    of each triangle has y component `detail * detail`, whatever the heights.
   */
  lemma GridFacesUp(t: Terrain, origin: Vec2, chunkSize: nat, detail: real, tri: Triangle)
    requires detail > 0.0
    requires tri in Grid(t, origin, chunkSize, detail)
    ensures FaceCross(tri).y == detail * detail
  {
    GridMembers(t, origin, chunkSize, detail, tri);
    var i: nat, j: nat :| InCell(t, origin, detail, tri, i, j);
  }

  /** Over a flat height field every face normal is straight up, `(0, detail^2, 0)`. */
  lemma FlatGridFaces(t: Terrain, origin: Vec2, chunkSize: nat, detail: real, h: real, tri: Triangle)
    requires detail > 0.0
    requires forall p :: t.At(p) == h
    requires tri in Grid(t, origin, chunkSize, detail)
    ensures FaceCross(tri) == Vec3(0.0, detail * detail, 0.0)
  {
    GridMembers(t, origin, chunkSize, detail, tri);
    var i: nat, j: nat :| InCell(t, origin, detail, tri, i, j);
  }
}
