/**
  The normal smoother. A first pass walks the position buffer triangle by
  triangle and accumulates, per distinct position, the sum of the corner
  cross products of every triangle that has a vertex there; a second pass
  overwrites every normal slot with the normalised accumulator of its
  position, so that vertices shared between triangles get one common normal.
 */
module Smoother {
  import opened Geometry
  import opened MeshBuilder
  import opened Triangulator

  /** The per-triangle sum of the three corner cross products, each taken as `(next - v) x (prev - v)`. */
  function TriSum(v1: Vec3, v2: Vec3, v3: Vec3): Vec3 {
    Add(Add(Cross(Sub(v2, v1), Sub(v3, v1)), Cross(Sub(v3, v2), Sub(v1, v2))), Cross(Sub(v1, v3), Sub(v2, v3)))
  }

  /** Over exact arithmetic the three corner cross products agree, so their sum is three face normals. */
  lemma TriSumIsTriple(v1: Vec3, v2: Vec3, v3: Vec3)
    ensures TriSum(v1, v2, v3) == Scale(3.0, FaceCross(Triangle(v1, v2, v3)))
  {
  }

  /** The per-triangle sums of a position list read three corners at a time. */
  function Sums(P: seq<Vec3>): (W: seq<Vec3>)
    requires |P| % 3 == 0
    ensures 3 * |W| == |P|
  {
    seq(|P| / 3, k requires 0 <= k < |P| / 3 => TriSum(P[3 * k], P[3 * k + 1], P[3 * k + 2]))
  }

  lemma SumsAt(P: seq<Vec3>, k: nat)
    requires |P| % 3 == 0 && 3 * k + 3 <= |P|
    ensures k < |Sums(P)| && Sums(P)[k] == TriSum(P[3 * k], P[3 * k + 1], P[3 * k + 2])
  {
  }

  /** How many of a triangle's corners sit at `p`. */
  function Hits(p: Vec3, a: Vec3, b: Vec3, c: Vec3): nat {
    (if a == p then 1 else 0) + (if b == p then 1 else 0) + (if c == p then 1 else 0)
  }

  /** The positions among the first `n` vertices. */
  function Seen(P: seq<Vec3>, n: nat): set<Vec3>
    requires n <= |P|
  {
    set m | 0 <= m < n :: P[m]
  }

  /** One more vertex adds its position. */
  lemma SeenOne(P: seq<Vec3>, m: nat, m1: nat)
    requires m1 == m + 1 && m1 <= |P|
    ensures Seen(P, m1) == Seen(P, m) + {P[m]}
  {
  }

  /**
    The three vertices of triangle `k` add their three positions. The successor
    `k1` is a parameter so that `3 * k1` matches the caller's term as written.
   */
  lemma SeenStep(P: seq<Vec3>, k: nat, k1: nat)
    requires k1 == k + 1 && 3 * k1 <= |P|
    ensures Seen(P, 3 * k1) == Seen(P, 3 * k) + {P[3 * k], P[3 * k + 1], P[3 * k + 2]}
  {
    var n := 3 * k;
    SeenOne(P, n, n + 1);
    SeenOne(P, n + 1, n + 2);
    SeenOne(P, n + 2, 3 * k1);
  }

  /**
    What the first pass has accumulated for position `p` after `n`
    triangles, triangle `k` carrying the sum `W[k]`: each triangle adds its
    sum once per corner at `p`.
   */
  function Share(P: seq<Vec3>, W: seq<Vec3>, p: Vec3, n: nat): Vec3
    requires 3 * n <= |P| && n <= |W|
    decreases n
  {
    if n == 0 then Zero
    else
      var k := n - 1;
      Add(Share(P, W, p, k), Scale(Hits(p, P[3 * k], P[3 * k + 1], P[3 * k + 2]) as real, W[k]))
  }

  /** The same accumulation read slot by slot: every vertex slot at `p` contributes its triangle's sum. */
  function SlotShare(P: seq<Vec3>, W: seq<Vec3>, p: Vec3, s: nat): Vec3
    requires |P| == 3 * |W| && s <= |P|
    decreases s
  {
    if s == 0 then Zero
    else Add(SlotShare(P, W, p, s - 1), if P[s - 1] == p then W[(s - 1) / 3] else Zero)
  }

  /** Per triangle and per slot accumulation agree: a triangle with two corners at `p` counts twice. */
  lemma {:induction false} ShareBySlot(P: seq<Vec3>, W: seq<Vec3>, p: Vec3, n: nat)
    requires |P| == 3 * |W| && n <= |W|
    ensures Share(P, W, p, n) == SlotShare(P, W, p, 3 * n)
    decreases n
  {
    if n > 0 {
      var k := n - 1;
      ShareBySlot(P, W, p, k);
      ShareStep(P, W, p, k, n);
      SlotTriple(P, W, p, k, n);
    }
  }

  /**
    One more triangle adds its sum once per corner at `p`: `Share` unfolded once,
    with `n == k + 1` passed in so that the terms match the caller's.
   */
  lemma ShareStep(P: seq<Vec3>, W: seq<Vec3>, p: Vec3, k: nat, n: nat)
    requires 3 * k + 3 <= |P| && k < |W| && n == k + 1
    ensures Share(P, W, p, n) ==
            Add(Share(P, W, p, k), Scale(Hits(p, P[3 * k], P[3 * k + 1], P[3 * k + 2]) as real, W[k]))
  {
  }

  /**
    The three slots of triangle `k` add its sum once per corner at `p`
    (`n == k + 1` is passed in so that `3 * n` matches the caller's term).
   */
  lemma SlotTriple(P: seq<Vec3>, W: seq<Vec3>, p: Vec3, k: nat, n: nat)
    requires |P| == 3 * |W| && k < |W| && n == k + 1
    ensures SlotShare(P, W, p, 3 * n) ==
            Add(SlotShare(P, W, p, 3 * k), Scale(Hits(p, P[3 * k], P[3 * k + 1], P[3 * k + 2]) as real, W[k]))
  {
    var w := W[k];
    var a, b, c := P[3 * k], P[3 * k + 1], P[3 * k + 2];
    var s1, s2, s3 := 3 * k + 1, 3 * k + 2, 3 * n;
    SlotStep(P, W, p, 3 * k, s1, k);
    SlotStep(P, W, p, s1, s2, k);
    SlotStep(P, W, p, s2, s3, k);
    HitsScale(p, a, b, c, w);
    AddRegroup(SlotShare(P, W, p, 3 * k), if a == p then w else Zero, if b == p then w else Zero, if c == p then w else Zero);
  }

  /** One more slot adds its triangle's sum when it sits at `p` (`t == s + 1` passed in, as above). */
  lemma SlotStep(P: seq<Vec3>, W: seq<Vec3>, p: Vec3, s: nat, t: nat, k: nat)
    requires |P| == 3 * |W| && t == s + 1 && s < |P| && 3 * k <= s < 3 * k + 3
    ensures k < |W|
    ensures SlotShare(P, W, p, t) == Add(SlotShare(P, W, p, s), if P[s] == p then W[k] else Zero)
  {
    assert s / 3 == k;
  }

  /** Vector addition regrouped: adding a sum of three is adding its terms one at a time. */
  lemma AddRegroup(x: Vec3, a: Vec3, b: Vec3, c: Vec3)
    ensures Add(x, Add(Add(a, b), c)) == Add(Add(Add(x, a), b), c)
  {
  }

  /** Scaling by the number of corners at `p` adds the vector once per such corner. */
  lemma HitsScale(p: Vec3, a: Vec3, b: Vec3, c: Vec3, s: Vec3)
    ensures Scale(Hits(p, a, b, c) as real, s) ==
            Add(Add(if a == p then s else Zero, if b == p then s else Zero), if c == p then s else Zero)
  {
    var h := Hits(p, a, b, c);
    assert h == 0 || h == 1 || h == 2 || h == 3;
  }

  /** The map's value at `p`, or the zero vector where the map has no entry. */
  function Entry(linked: map<Vec3, Vec3>, p: Vec3): Vec3 {
    if p in linked then linked[p] else Zero
  }

  /**
    One triangle's contribution to the first pass: the corners' entries are
    created as zero where missing, then the sum is added to each corner's
    entry in turn, so a position at two corners receives it twice.
   */
  method Link(linked: map<Vec3, Vec3>, v1: Vec3, v2: Vec3, v3: Vec3, sum: Vec3) returns (out: map<Vec3, Vec3>)
    ensures out.Keys == linked.Keys + {v1, v2, v3}
    ensures forall p :: Entry(out, p) == Add(Entry(linked, p), Scale(Hits(p, v1, v2, v3) as real, sum))
  {
    out := linked;
    if v1 !in out { out := out[v1 := Zero]; }
    ZeroEntry(linked, v1, out);
    ghost var m1 := out;
    if v2 !in out { out := out[v2 := Zero]; }
    ZeroEntry(m1, v2, out);
    ghost var m2 := out;
    if v3 !in out { out := out[v3 := Zero]; }
    ZeroEntry(m2, v3, out);
    ghost var m3 := out;

    out := out[v1 := Add(out[v1], sum)];
    AddEntry(m3, v1, sum, out);
    ghost var m4 := out;
    out := out[v2 := Add(out[v2], sum)];
    AddEntry(m4, v2, sum, out);
    ghost var m5 := out;
    out := out[v3 := Add(out[v3], sum)];
    AddEntry(m5, v3, sum, out);

    LinkChain(linked, m3, m4, m5, out, v1, v2, v3, sum);
  }

  /** The three additions of `Link`, taken together, add the sum once per corner at each position. */
  lemma LinkChain(linked: map<Vec3, Vec3>, m3: map<Vec3, Vec3>, m4: map<Vec3, Vec3>, m5: map<Vec3, Vec3>,
                  out: map<Vec3, Vec3>, v1: Vec3, v2: Vec3, v3: Vec3, sum: Vec3)
    requires forall p :: Entry(m3, p) == Entry(linked, p)
    requires forall p :: Entry(m4, p) == Add(Entry(m3, p), if v1 == p then sum else Zero)
    requires forall p :: Entry(m5, p) == Add(Entry(m4, p), if v2 == p then sum else Zero)
    requires forall p :: Entry(out, p) == Add(Entry(m5, p), if v3 == p then sum else Zero)
    ensures forall p :: Entry(out, p) == Add(Entry(linked, p), Scale(Hits(p, v1, v2, v3) as real, sum))
  {
    forall p
      ensures Entry(out, p) == Add(Entry(linked, p), Scale(Hits(p, v1, v2, v3) as real, sum))
    {
      var a, b, c := if v1 == p then sum else Zero, if v2 == p then sum else Zero, if v3 == p then sum else Zero;
      assert Entry(out, p) == Add(Add(Add(Entry(linked, p), a), b), c);
      HitsScale(p, v1, v2, v3, sum);
      AddRegroup(Entry(linked, p), a, b, c);
    }
  }

  /** Giving a missing key the zero vector changes no entry. */
  lemma ZeroEntry(m: map<Vec3, Vec3>, v: Vec3, m2: map<Vec3, Vec3>)
    requires m2 == if v in m then m else m[v := Zero]
    ensures m2.Keys == m.Keys + {v}
    ensures forall p :: Entry(m2, p) == Entry(m, p)
  {
  }

  /** Adding to the entry of a present key adds to that entry and to no other. */
  lemma AddEntry(m: map<Vec3, Vec3>, v: Vec3, sum: Vec3, m2: map<Vec3, Vec3>)
    requires v in m && m2 == m[v := Add(m[v], sum)]
    ensures m2.Keys == m.Keys
    ensures forall p :: Entry(m2, p) == Add(Entry(m, p), if v == p then sum else Zero)
  {
  }

  /**
    One step of the first pass: reads triangle `k` from floats `i = 9k` on,
    forms its sum and links it, so the map moves from `k` triangles to `k1`.
   */
  method LinkTriangle(vertices: array<real>, i: nat, linked: map<Vec3, Vec3>,
                      ghost P: seq<Vec3>, ghost W: seq<Vec3>, ghost k: nat, ghost k1: nat)
    returns (out: map<Vec3, Vec3>)
    requires vertices.Length % 3 == 0 && P == Points(vertices[..])
    requires vertices.Length == 3 * |P| && |P| % 3 == 0 && W == Sums(P)
    requires i == 9 * k && k1 == k + 1 && i + 9 <= vertices.Length && 3 * k1 <= |P|
    requires linked.Keys == Seen(P, 3 * k)
    requires forall p :: Entry(linked, p) == Share(P, W, p, k)
    ensures out.Keys == Seen(P, 3 * k1)
    ensures forall p :: Entry(out, p) == Share(P, W, p, k1)
  {
    var v1 := Vec3(vertices[i], vertices[i + 1], vertices[i + 2]);
    var v2 := Vec3(vertices[i + 3], vertices[i + 4], vertices[i + 5]);
    var v3 := Vec3(vertices[i + 6], vertices[i + 7], vertices[i + 8]);
    PointAt(vertices[..], 3 * k, i);
    PointAt(vertices[..], 3 * k + 1, i + 3);
    PointAt(vertices[..], 3 * k + 2, i + 6);

    var normalV1 := Cross(Sub(v2, v1), Sub(v3, v1));
    var normalV2 := Cross(Sub(v3, v2), Sub(v1, v2));
    var normalV3 := Cross(Sub(v1, v3), Sub(v2, v3));
    var sum := Add(Add(normalV1, normalV2), normalV3);

    assert v1 == P[3 * k] && v2 == P[3 * k + 1] && v3 == P[3 * k + 2];
    SumsAt(P, k);
    assert sum == TriSum(v1, v2, v3) == W[k];
    out := Link(linked, v1, v2, v3, sum);
    forall p
      ensures Entry(out, p) == Share(P, W, p, k1)
    {
      ShareStep(P, W, p, k, k1);
    }
    SeenStep(P, k, k1);
  }

  /**
    The first pass of `Smooth`: for each triangle of the position buffer,
    give each corner's position an entry if it has none, then add the
    triangle's sum to the entry of each corner in turn. Afterwards the keys
    are exactly the positions in the buffer and each value is `Share`.
   */
  method LinkNormals(vertices: array<real>, vertexCount: nat) returns (linked: map<Vec3, Vec3>)
    requires vertices.Length == 3 * vertexCount && vertexCount % 3 == 0
    ensures linked.Keys == Seen(Points(vertices[..]), vertexCount)
    ensures forall p :: Entry(linked, p) == Share(Points(vertices[..]), Sums(Points(vertices[..])), p, vertexCount / 3)
  {
    ghost var P := Points(vertices[..]);
    ghost var W := Sums(P);
    ghost var q := vertexCount / 3;
    linked := map[];
    var i := 0;
    ghost var k := 0;
    while i < vertexCount * 3
      invariant i == 9 * k && k <= q
      invariant linked.Keys == Seen(P, 3 * k)
      invariant forall p :: Entry(linked, p) == Share(P, W, p, k)
      decreases vertexCount * 3 - i
    {
      ghost var k1 := k + 1;
      linked := LinkTriangle(vertices, i, linked, P, W, k, k1);
      i := i + 9;
      k := k1;
    }
    assert k == q && 3 * k == vertexCount;
  }

  /** The smoothed normal of every vertex: the normalised accumulator of its position. */
  function SmoothNormals(P: seq<Vec3>, norm: Vec3 -> Vec3): (ns: seq<Vec3>)
    requires |P| % 3 == 0
    ensures |ns| == |P|
  {
    seq(|P|, k requires 0 <= k < |P| => norm(Share(P, Sums(P), P[k], |P| / 3)))
  }

  /** Two vertices at the same position get the same smoothed normal. */
  lemma SharedPositionsShareNormals(P: seq<Vec3>, norm: Vec3 -> Vec3, a: nat, b: nat)
    requires |P| % 3 == 0 && a < |P| && b < |P| && P[a] == P[b]
    ensures SmoothNormals(P, norm)[a] == SmoothNormals(P, norm)[b]
  {
  }

  /** The three floats of normal `k` in the smoothed buffer. */
  lemma SmoothSlot(P: seq<Vec3>, norm: Vec3 -> Vec3, k: nat)
    requires |P| % 3 == 0 && k < |P|
    ensures 3 * k + 3 <= |Flatten(SmoothNormals(P, norm))|
    ensures Flatten(SmoothNormals(P, norm))[3 * k..3 * k + 3] == Coords(norm(Share(P, Sums(P), P[k], |P| / 3)))
  {
    var ns := SmoothNormals(P, norm);
    assert ns[k] == norm(Share(P, Sums(P), P[k], |P| / 3));
    FlattenSlot(ns, k);
  }

  /** Writes one vector into the three slots from `at` on, extending a prefix that matches `want`. */
  method StorePoint(a: array<real>, ghost want: seq<real>, at: nat, p: Vec3)
    requires at + 3 <= a.Length && at + 3 <= |want|
    requires a[..at] == want[..at] && want[at..at + 3] == Coords(p)
    modifies a
    ensures a[..at + 3] == want[..at + 3]
    ensures a[at + 3..] == old(a[at + 3..])
  {
    a[at] := p.x;
    a[at + 1] := p.y;
    a[at + 2] := p.z;
    Glue(a[..], want, at, 3);
  }

  /**
    One step of the second pass: looks up the accumulator of vertex `k`'s
    position (read from floats `v = 3k` on) and writes its normalised value
    into normal slots `v` to `v + 3`.
   */
  method SmoothVertex(vertices: array<real>, normals: array<real>, linked: map<Vec3, Vec3>,
                      norm: Vec3 -> Vec3, ghost P: seq<Vec3>, ghost want: seq<real>, v: nat, ghost k: nat)
    requires vertices != normals && vertices.Length % 3 == 0 && P == Points(vertices[..])
    requires vertices.Length == 3 * |P| && |P| % 3 == 0 && normals.Length == vertices.Length && want == Flatten(SmoothNormals(P, norm))
    requires v == 3 * k && k < |P|
    requires linked.Keys == Seen(P, |P|)
    requires forall p :: Entry(linked, p) == Share(P, Sums(P), p, |P| / 3)
    requires normals[..v] == want[..v]
    modifies normals
    ensures normals[..v + 3] == want[..v + 3]
    ensures normals[v + 3..] == old(normals[v + 3..])
  {
    var cur := Vec3(vertices[v], vertices[v + 1], vertices[v + 2]);
    PointAt(vertices[..], k, v);
    assert cur in Seen(P, |P|);
    assert linked[cur] == Entry(linked, cur) == Share(P, Sums(P), P[k], |P| / 3);
    var nor := norm(linked[cur]);
    SmoothSlot(P, norm, k);
    StorePoint(normals, want, v, nor);
  }

  /**
    The second pass of `Smooth`: walks the vertices three floats at a time
    and writes each vertex's smoothed normal into its three normal slots.
   */
  method WriteNormals(vertices: array<real>, normals: array<real>, vertexCount: nat,
                      linked: map<Vec3, Vec3>, norm: Vec3 -> Vec3)
    requires vertices != normals && vertices.Length == 3 * vertexCount && vertexCount % 3 == 0
    requires normals.Length == vertices.Length
    requires linked.Keys == Seen(Points(vertices[..]), vertexCount)
    requires forall p :: Entry(linked, p) == Share(Points(vertices[..]), Sums(Points(vertices[..])), p, vertexCount / 3)
    modifies normals
    ensures normals[..] == Flatten(SmoothNormals(Points(vertices[..]), norm))
  {
    ghost var P := Points(vertices[..]);
    ghost var want := Flatten(SmoothNormals(P, norm));
    assert |P| == vertexCount;

    var idx := 0;
    var v := 0;
    ghost var k := 0;
    while v < vertexCount * 3
      invariant v == idx == 3 * k && k <= vertexCount
      invariant normals[..idx] == want[..idx]
      modifies normals
      decreases vertexCount * 3 - v
    {
      SmoothVertex(vertices, normals, linked, norm, P, want, v, k);
      idx := idx + 3;
      v := v + 3;
      k := k + 1;
    }
    assert normals[..] == normals[..idx];
  }

  /**
    `Smooth` without the GPU update: after the first pass, every normal slot
    is overwritten with the normalised accumulator of its vertex's position.
    Only the normals change. `norm` stands for `Vector3Normalize`.
   */
  method Smooth(mesh: Mesh, norm: Vec3 -> Vec3)
    requires mesh.Valid()
    modifies mesh.normals
    ensures mesh.Valid()
    ensures unchanged(mesh.vertices) && unchanged(mesh.texcoords)
    ensures mesh.vertexCount == old(mesh.vertexCount) && mesh.triangleCount == old(mesh.triangleCount)
    ensures mesh.normals[..] == Flatten(SmoothNormals(Points(mesh.vertices[..]), norm))
  {
    var linked := LinkNormals(mesh.vertices, mesh.vertexCount);
    WriteNormals(mesh.vertices, mesh.normals, mesh.vertexCount, linked, norm);
  }

  /**
    When every triangle's sum points straight up, every accumulator points
    straight up: zero x and z, a y that is never negative and positive for
    every position the first `n` triangles touch.
   */
  lemma {:induction false} UpwardShare(P: seq<Vec3>, W: seq<Vec3>, p: Vec3, n: nat)
    requires 3 * n <= |P| && n <= |W|
    requires forall k :: 0 <= k < n ==> W[k].x == 0.0 && W[k].z == 0.0 && W[k].y > 0.0
    ensures Share(P, W, p, n).x == 0.0 && Share(P, W, p, n).z == 0.0 && Share(P, W, p, n).y >= 0.0
    ensures p in Seen(P, 3 * n) ==> Share(P, W, p, n).y > 0.0
    decreases n
  {
    if n > 0 {
      var k := n - 1;
      UpwardShare(P, W, p, k);
      var a, b, d := P[3 * k], P[3 * k + 1], P[3 * k + 2];
      ShareStep(P, W, p, k, n);
      if p in Seen(P, 3 * n) && p !in Seen(P, 3 * k) {
        var m :| 0 <= m < 3 * n && P[m] == p;
        assert p == a || p == b || p == d;
      }
      UpStep(Share(P, W, p, k), W[k], Hits(p, a, b, d) as real);
    }
  }

  /** Adding a non-negative multiple of an upward vector keeps an upward accumulator upward. */
  lemma UpStep(acc: Vec3, w: Vec3, h: real)
    requires acc.x == 0.0 && acc.z == 0.0 && acc.y >= 0.0
    requires w.x == 0.0 && w.z == 0.0 && w.y > 0.0 && h >= 0.0
    ensures Add(acc, Scale(h, w)).x == 0.0 && Add(acc, Scale(h, w)).z == 0.0
    ensures Add(acc, Scale(h, w)).y >= acc.y
    ensures h >= 1.0 ==> Add(acc, Scale(h, w)).y > 0.0
  {
    assert Scale(h, w) == Vec3(0.0, h * w.y, 0.0);
    assert h * w.y >= 0.0;
    if h >= 1.0 {
      assert h * w.y == w.y + (h - 1.0) * w.y;
      assert (h - 1.0) * w.y >= 0.0;
    }
  }

  lemma PositiveSquare(d: real, c: real)
    requires d > 0.0 && c == d * d
    ensures c > 0.0
  {
    calc {
      c;
    == d * d;
    > 0.0;
    }
  }

  /** On a flat chunk every triangle's corner sum is `(0, 3 d^2, 0)`, which points up. */
  lemma FlatSums(t: Terrain, origin: Vec2, chunkSize: nat, detail: real, h: real, k: nat)
    requires detail > 0.0
    requires forall q :: t.At(q) == h
    requires k < |Grid(t, origin, chunkSize, detail)|
    ensures var W := Sums(Corners(Grid(t, origin, chunkSize, detail)));
            k < |W| && W[k] == Vec3(0.0, 3.0 * (detail * detail), 0.0) && W[k].y > 0.0
  {
    var tris := Grid(t, origin, chunkSize, detail);
    var P := Corners(tris);
    CornersAt(tris, k, 0);
    CornersAt(tris, k, 1);
    CornersAt(tris, k, 2);
    assert Triangle(P[3 * k], P[3 * k + 1], P[3 * k + 2]) == tris[k];
    TriSumIsTriple(P[3 * k], P[3 * k + 1], P[3 * k + 2]);
    FlatGridFaces(t, origin, chunkSize, detail, h, tris[k]);
    var c := detail * detail;
    PositiveSquare(detail, c);
    assert Sums(P)[k] == Scale(3.0, Vec3(0.0, c, 0.0));
  }

  /**
    On a flat terrain every vertex of the chunk smooths to the normalised
    straight-up vector: the smoothed normal of each vertex is `norm` applied
    to some `(0, y, 0)` with `y > 0`.
   */
  lemma FlatTerrainSmoothsUp(t: Terrain, origin: Vec2, chunkSize: nat, detail: real, h: real,
                             norm: Vec3 -> Vec3, s: nat)
    requires detail > 0.0
    requires forall q :: t.At(q) == h
    requires s < |Corners(Grid(t, origin, chunkSize, detail))|
    ensures exists y: real :: y > 0.0 &&
              SmoothNormals(Corners(Grid(t, origin, chunkSize, detail)), norm)[s] == norm(Vec3(0.0, y, 0.0))
  {
    var tris := Grid(t, origin, chunkSize, detail);
    var P := Corners(tris);
    var W := Sums(P);
    forall k | 0 <= k < |tris|
      ensures W[k].x == 0.0 && W[k].z == 0.0 && W[k].y > 0.0
    {
      FlatSums(t, origin, chunkSize, detail, h, k);
    }
    assert P[s] in Seen(P, 3 * |tris|);
    UpwardShare(P, W, P[s], |tris|);
    var sh := Share(P, W, P[s], |P| / 3);
    assert sh == Vec3(0.0, sh.y, 0.0);
  }
}
