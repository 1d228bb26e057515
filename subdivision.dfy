/**
 * Midpoint subdivision as `IcosahedronGeometry.subdivide` and
 * `PlaneGeometry.subdivide` perform it (the two files carry the same code):
 * each pass splits every triangle into four, appending one vertex per
 * edge midpoint and reusing it through a per-pass `midCache` looked up in
 * both orientations.
 *
 * The functions below give the state after each triangle of a pass; the
 * method `Subdivide` is the source's loop and is proved to compute them;
 * the lemmas state what a pass guarantees.
 */
module Subdivision {
  import opened Wrappers
  import opened Utils
  import opened Mesh

  /** A cache key `${i0}-${i1}`; the string is injective on vertex numbers, so a pair stands for it. */
  type Edge = (int, int)

  /** The unordered edge {p, q}, smaller vertex first. */
  function Norm(p: int, q: int): (e: Edge)
    ensures e.0 <= e.1 && (e == (p, q) || e == (q, p))
  {
    if p <= q then (p, q) else (q, p)
  }

  /** The midpoint cached for {p, q}, in whichever orientation it was stored (-1 if none). */
  ghost function MidOf(cache: map<Edge, int>, p: int, q: int): int
  {
    if (p, q) in cache then cache[(p, q)] else if (q, p) in cache then cache[(q, p)] else -1
  }

  /**
   * `midCache[`${p}-${q}`] || midCache[`${q}-${p}`]`, where both `undefined`
   * and 0 are falsy. With no cached 0 it is the plain lookup of {p, q}.
   */
  function CachedMidpoint(cache: map<Edge, int>, p: int, q: int): (r: Option<int>)
    ensures ((p, q) in cache || (q, p) in cache) && (forall k | k in cache :: cache[k] != 0) ==>
              r == Some(MidOf(cache, p, q))
    ensures (p, q) !in cache && (q, p) !in cache ==> r == None
  {
    if (p, q) in cache && cache[(p, q)] != 0 then Some(cache[(p, q)])
    else if (q, p) in cache then Some(cache[(q, p)])
    else None
  }

  /** The working state of one pass: `this.vertices`, `midCache` and `newIndices`. */
  datatype PassState = PassState(verts: seq<real>, cache: map<Edge, int>, out: seq<int>)

  /**
   * What holds throughout a pass that started from `verts0`: vertices are only
   * appended, and every cache entry maps an edge between original vertices
   * to an appended vertex.
   */
  ghost predicate PassOk(verts0: seq<real>, s: PassState)
  {
    && |verts0| % 3 == 0 && |s.verts| % 3 == 0
    && |verts0| <= |s.verts| && s.verts[..|verts0|] == verts0
    && forall k | k in s.cache ::
         && 0 <= k.0 < VertexCount(verts0) && 0 <= k.1 < VertexCount(verts0)
         && VertexCount(verts0) <= s.cache[k] < VertexCount(s.verts)
  }

  /**
   * One of the three blocks of the loop body: reuse the cached midpoint of
   * {p, q}, or append `0.5 * (v_p + v_q)` and cache its number under `p-q`.
   */
  function MidpointFor(verts0: seq<real>, s: PassState, p: int, q: int): (r: (PassState, int))
    requires PassOk(verts0, s)
    requires 0 <= p < VertexCount(verts0) && 0 <= q < VertexCount(verts0)
    ensures PassOk(verts0, r.0) && r.0.out == s.out
    ensures |s.verts| <= |r.0.verts|
    ensures VertexCount(verts0) <= r.1 < VertexCount(r.0.verts)
    ensures (p, q) in s.cache || (q, p) in s.cache ==> r == (s, MidOf(s.cache, p, q))
    ensures (p, q) !in s.cache && (q, p) !in s.cache ==>
              && r.1 == VertexCount(s.verts)
              && r.0.cache == s.cache[(p, q) := r.1]
              && r.0.verts == s.verts + Coords(Midpoint(VertexAt(verts0, p), VertexAt(verts0, q)))
  {
    SameVertex(verts0, s.verts, p);
    SameVertex(verts0, s.verts, q);
    if (p, q) !in s.cache && (q, p) !in s.cache then
      var m := VertexCount(s.verts);
      var v := Midpoint(VertexAt(s.verts, p), VertexAt(s.verts, q));
      (s.(verts := s.verts + Coords(v), cache := s.cache[(p, q) := m]), m)
    else
      (s, CachedMidpoint(s.cache, p, q).value)
  }

  /** The pass state when the loop counter reaches `i`, i.e. after the triangles before `idx[i]`. */
  function PassUpTo(verts: seq<real>, idx: seq<int>, i: nat): (s: PassState)
    requires MeshOk(verts, idx) && i % 3 == 0 && i <= |idx|
    ensures PassOk(verts, s)
    ensures |s.out| == 4 * i && IndicesBelow(s.out, VertexCount(s.verts))
    decreases i, 0
  {
    if i == 0 then PassState(verts, map[], []) else AfterTriangle(verts, idx, i - 3)
  }

  /** The pass state once the triangle `idx[i], idx[i + 1], idx[i + 2]` has been split. */
  function AfterTriangle(verts: seq<real>, idx: seq<int>, i: nat): (s: PassState)
    requires MeshOk(verts, idx) && i % 3 == 0 && i + 3 <= |idx|
    ensures PassOk(verts, s)
    ensures |s.out| == 4 * i + 12 && IndicesBelow(s.out, VertexCount(s.verts))
    decreases i, 1
  {
    assert idx[i] in idx && idx[i + 1] in idx && idx[i + 2] in idx;
    SplitTriangle(verts, PassUpTo(verts, idx, i), idx[i], idx[i + 1], idx[i + 2])
  }

  /** The four triangles that replace (i0, i1, i2), given its edge midpoints. */
  function Split(i0: int, i1: int, i2: int, i01: int, i12: int, i20: int): seq<int>
  {
    [i0, i01, i20, i1, i12, i01, i2, i20, i12, i01, i12, i20]
  }

  /** The loop body for one triangle: three midpoint blocks, then the four new triangles. */
  function SplitTriangle(verts0: seq<real>, s0: PassState, i0: int, i1: int, i2: int): (s: PassState)
    requires PassOk(verts0, s0) && IndicesBelow(s0.out, VertexCount(s0.verts))
    requires 0 <= i0 < VertexCount(verts0) && 0 <= i1 < VertexCount(verts0) && 0 <= i2 < VertexCount(verts0)
    ensures PassOk(verts0, s)
    ensures |s.out| == |s0.out| + 12 && IndicesBelow(s.out, VertexCount(s.verts))
  {
    var (s1, i01) := MidpointFor(verts0, s0, i0, i1);
    var (s2, i12) := MidpointFor(verts0, s1, i1, i2);
    var (s3, i20) := MidpointFor(verts0, s2, i2, i0);
    var added := Split(i0, i1, i2, i01, i12, i20);
    SplitBelow(i0, i1, i2, i01, i12, i20, VertexCount(s3.verts));
    IndicesBelowAppend(s3.out, added, VertexCount(s0.verts), VertexCount(s3.verts));
    s3.(out := s3.out + added)
  }

  lemma SplitBelow(i0: int, i1: int, i2: int, i01: int, i12: int, i20: int, n: int)
    requires 0 <= i0 < n && 0 <= i1 < n && 0 <= i2 < n && 0 <= i01 < n && 0 <= i12 < n && 0 <= i20 < n
    ensures IndicesBelow(Split(i0, i1, i2, i01, i12, i20), n)
  {
  }

  lemma IndicesBelowAppend(a: seq<int>, b: seq<int>, n: int, m: int)
    requires IndicesBelow(a, n) && n <= m && IndicesBelow(b, m)
    ensures IndicesBelow(a + b, m)
  {
  }

  /** One subdivision pass: the grown vertex buffer and the new index list. */
  function SubdividePass(verts: seq<real>, idx: seq<int>): (r: (seq<real>, seq<int>))
    requires MeshOk(verts, idx)
    ensures MeshOk(r.0, r.1)
    ensures |r.1| == 4 * |idx|
    ensures |verts| <= |r.0| && r.0[..|verts|] == verts
  {
    var s := PassUpTo(verts, idx, |idx|);
    FourfoldKeepsTriangles(|idx|);
    (s.verts, s.out)
  }

  /** `subdivide(detail)`: `detail` passes, none when `detail <= 0`. */
  function Subdivided(verts: seq<real>, idx: seq<int>, detail: int): (r: (seq<real>, seq<int>))
    requires MeshOk(verts, idx)
    ensures MeshOk(r.0, r.1)
    ensures |verts| <= |r.0| && r.0[..|verts|] == verts
    decreases detail
  {
    if detail <= 0 then (verts, idx)
    else
      var p := Subdivided(verts, idx, detail - 1);
      var r := SubdividePass(p.0, p.1);
      PrefixTrans(verts, p.0, r.0);
      r
  }

  /** Each pass multiplies the number of triangles by four. */
  lemma {:induction false} SubdividedCount(verts: seq<real>, idx: seq<int>, detail: nat)
    requires MeshOk(verts, idx)
    ensures |Subdivided(verts, idx, detail).1| == |idx| * Pow4(detail)
  {
    if detail > 0 {
      SubdividedCount(verts, idx, detail - 1);
      var p := Subdivided(verts, idx, detail - 1);
      var n := |SubdividePass(p.0, p.1).1|;
      var k := Pow4(detail - 1);
      assert |p.1| == |idx| * k;
      FourfoldCount(|idx|, k, |p.1|, n);
    }
  }

  lemma FourfoldCount(n: int, p: int, a: int, b: int)
    requires a == n * p && b == 4 * a
    ensures b == n * (4 * p)
  {
  }

  lemma PrefixTrans(a: seq<real>, b: seq<real>, c: seq<real>)
    requires |a| <= |b| && b[..|a|] == a
    requires |b| <= |c| && c[..|b|] == b
    ensures |a| <= |c| && c[..|a|] == a
  {
    assert c[..|a|] == c[..|b|][..|a|];
  }

  /** A vertex of the pass's starting buffer reads the same from the grown buffer. */
  lemma SameVertex(verts0: seq<real>, verts: seq<real>, p: int)
    requires |verts0| <= |verts| && verts[..|verts0|] == verts0
    requires 0 <= p && 3 * p + 2 < |verts0|
    ensures VertexAt(verts, p) == VertexAt(verts0, p)
  {
    assert verts[3 * p] == verts0[3 * p];
    assert verts[3 * p + 1] == verts0[3 * p + 1];
    assert verts[3 * p + 2] == verts0[3 * p + 2];
  }

  /**
   * One of the three identical blocks of the loop body, for the edge
   * (p, q) whose end vertices the loop read as `vp` and `vq`.
   */
  method CacheMidpoint(ghost verts0: seq<real>, verts: seq<real>, midCache: map<Edge, int>, ghost out: seq<int>,
                       p: int, q: int, vp: Vec3, vq: Vec3)
    returns (verts': seq<real>, midCache': map<Edge, int>, m: int)
    requires PassOk(verts0, PassState(verts, midCache, out))
    requires 0 <= p < VertexCount(verts0) && 0 <= q < VertexCount(verts0)
    requires vp == VertexAt(verts0, p) && vq == VertexAt(verts0, q)
    ensures (PassState(verts', midCache', out), m) == MidpointFor(verts0, PassState(verts, midCache, out), p, q)
  {
    SameVertex(verts0, verts, p);
    SameVertex(verts0, verts, q);
    if (p, q) !in midCache && (q, p) !in midCache {
      var v := Midpoint(vp, vq);
      m := |verts| / 3;
      verts' := verts + [v.x, v.y, v.z];
      midCache' := midCache[(p, q) := m];
    } else {
      verts', midCache' := verts, midCache;
      m := CachedMidpoint(midCache, p, q).value;
    }
  }

  /** The body of the inner loop for the triangle (i0, i1, i2). */
  method SplitOne(ghost verts0: seq<real>, verts: seq<real>, midCache: map<Edge, int>, newIndices: seq<int>,
                  i0: int, i1: int, i2: int)
    returns (verts': seq<real>, midCache': map<Edge, int>, newIndices': seq<int>)
    requires PassOk(verts0, PassState(verts, midCache, newIndices))
    requires IndicesBelow(newIndices, VertexCount(verts))
    requires 0 <= i0 < VertexCount(verts0) && 0 <= i1 < VertexCount(verts0) && 0 <= i2 < VertexCount(verts0)
    ensures PassState(verts', midCache', newIndices')
            == SplitTriangle(verts0, PassState(verts, midCache, newIndices), i0, i1, i2)
  {
    var v0, v1, v2 := VertexAt(verts, i0), VertexAt(verts, i1), VertexAt(verts, i2);
    SameVertex(verts0, verts, i0);
    SameVertex(verts0, verts, i1);
    SameVertex(verts0, verts, i2);
    var i01, i12, i20;
    verts', midCache', i01 := CacheMidpoint(verts0, verts, midCache, newIndices, i0, i1, v0, v1);
    verts', midCache', i12 := CacheMidpoint(verts0, verts', midCache', newIndices, i1, i2, v1, v2);
    verts', midCache', i20 := CacheMidpoint(verts0, verts', midCache', newIndices, i2, i0, v2, v0);
    // the four `newIndices.push` calls
    newIndices' := newIndices + Split(i0, i1, i2, i01, i12, i20);
  }

  lemma FourfoldKeepsTriangles(n: int)
    requires n % 3 == 0
    ensures (4 * n) % 3 == 0
  {
  }

  lemma NextTriangle(i: int, n: int)
    requires i % 3 == 0 && n % 3 == 0 && 0 <= i < n
    ensures i + 3 <= n && (i + 3) % 3 == 0
  {
  }

  lemma PassUpToStep(verts: seq<real>, idx: seq<int>, i: nat)
    requires MeshOk(verts, idx) && i % 3 == 0 && i + 3 <= |idx|
    ensures idx[i] in idx && idx[i + 1] in idx && idx[i + 2] in idx
    ensures PassUpTo(verts, idx, i + 3)
            == SplitTriangle(verts, PassUpTo(verts, idx, i), idx[i], idx[i + 1], idx[i + 2])
  {
  }

  /** One iteration of the outer loop of `subdivide`: the inner loop over the triangles. */
  method SubdivisionPass(vertices: seq<real>, indices: seq<int>) returns (verts: seq<real>, newIndices: seq<int>)
    requires MeshOk(vertices, indices)
    ensures (verts, newIndices) == SubdividePass(vertices, indices)
  {
    verts := vertices;
    var i := 0;
    newIndices := [];
    var midCache: map<Edge, int> := map[];
    while i < |indices|
      invariant i % 3 == 0 && i <= |indices|
      invariant PassState(verts, midCache, newIndices) == PassUpTo(vertices, indices, i)
    {
      NextTriangle(i, |indices|);
      var i0, i1, i2 := indices[i], indices[i + 1], indices[i + 2];
      PassUpToStep(vertices, indices, i);
      verts, midCache, newIndices := SplitOne(vertices, verts, midCache, newIndices, i0, i1, i2);
      i := i + 3;
    }
  }

  /** `subdivide(detail)`: the outer loop, one pass per iteration. */
  method Subdivide(vertices: seq<real>, indices: seq<int>, detail: int)
    returns (verts: seq<real>, idx: seq<int>)
    requires MeshOk(vertices, indices)
    ensures (verts, idx) == Subdivided(vertices, indices, detail)
  {
    verts, idx := vertices, indices;
    var subdivisionIterations := 0;
    while subdivisionIterations < detail
      invariant 0 <= subdivisionIterations
      invariant detail >= 0 ==> subdivisionIterations <= detail
      invariant detail < 0 ==> subdivisionIterations == 0
      invariant (verts, idx) == Subdivided(vertices, indices, subdivisionIterations)
    {
      verts, idx := SubdivisionPass(verts, idx);
      subdivisionIterations := subdivisionIterations + 1;
    }
  }
}
