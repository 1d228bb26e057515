/**
 * What one subdivision pass guarantees about `midCache` and its output:
 * the cache holds exactly one entry per unordered edge seen so far, the
 * vertex appended for an edge is the average of its two end vertices, no
 * two edges share a midpoint, every appended vertex is some edge's
 * midpoint, and each triangle is replaced by the four triangles built from
 * the final cache's midpoints.
 */
module EdgeCache {
  import opened Utils
  import opened Mesh
  import opened Subdivision

  /** The three unordered edges of triangle (a, b, c). */
  function TriangleEdges(a: int, b: int, c: int): (es: set<Edge>)
    ensures |es| <= 3
    ensures forall e | e in es :: e.0 <= e.1
  {
    {Norm(a, b), Norm(b, c), Norm(c, a)}
  }

  /** The unordered edges of the triangles before position `i` of `idx`. */
  ghost function EdgesUpTo(idx: seq<int>, i: int): set<Edge>
    requires i <= |idx|
    decreases i
  {
    if i < 3 then {} else EdgesUpTo(idx, i - 3) + TriangleEdges(idx[i - 3], idx[i - 2], idx[i - 1])
  }

  /** Every unordered edge of the mesh `idx`. */
  ghost function EdgesOf(idx: seq<int>): set<Edge>
  {
    EdgesUpTo(idx, |idx|)
  }

  /** Entries of `c` survive in `c2` with the same value. */
  ghost predicate Grows(c: map<Edge, int>, c2: map<Edge, int>)
  {
    forall k | k in c :: k in c2 && c2[k] == c[k]
  }

  /** No edge is cached under both of its orientations. */
  ghost predicate OneOrientation(c: map<Edge, int>)
  {
    forall k | k in c :: (k.1, k.0) in c ==> k.0 == k.1
  }

  /** Whether {p, q} has a cache entry in either orientation. */
  ghost predicate Cached(c: map<Edge, int>, p: int, q: int)
  {
    (p, q) in c || (q, p) in c
  }

  /** Every cached key is an edge of `E`. */
  ghost predicate KeysInEdges(c: map<Edge, int>, E: set<Edge>)
  {
    forall k | k in c :: Norm(k.0, k.1) in E
  }

  /** Every edge of `E` is normalised and cached. */
  ghost predicate EdgesCached(c: map<Edge, int>, E: set<Edge>)
  {
    forall e | e in E :: e.0 <= e.1 && Cached(c, e.0, e.1)
  }

  /** No two keys share a midpoint. */
  ghost predicate DistinctMidpoints(c: map<Edge, int>)
  {
    forall k1, k2 | k1 in c && k2 in c && c[k1] == c[k2] :: k1 == k2
  }

  /** Every vertex numbered `lo .. hi - 1` is some key's midpoint. */
  ghost predicate NewVerticesCached(c: map<Edge, int>, lo: int, hi: int)
  {
    forall m | lo <= m < hi :: m in c.Values
  }

  /** The vertex cached for each key is the average of the key's two end vertices in `verts0`. */
  ghost predicate MidpointsAreAverages(verts0: seq<real>, s: PassState)
    requires PassOk(verts0, s)
  {
    forall k | k in s.cache ::
      VertexAt(s.verts, s.cache[k]) == Midpoint(VertexAt(verts0, k.0), VertexAt(verts0, k.1))
  }

  /**
   * The cache of a pass that has seen the unordered edges `E`: one entry per
   * edge, one new vertex per entry, that vertex the average of the edge's
   * end vertices, and no other new vertices.
   */
  ghost predicate CacheExact(verts0: seq<real>, s: PassState, E: set<Edge>)
    requires PassOk(verts0, s)
  {
    && KeysInEdges(s.cache, E)
    && EdgesCached(s.cache, E)
    && OneOrientation(s.cache)
    && VertexCount(s.verts) == VertexCount(verts0) + |E|
    && DistinctMidpoints(s.cache)
    && MidpointsAreAverages(verts0, s)
    && NewVerticesCached(s.cache, VertexCount(verts0), VertexCount(s.verts))
  }

  /** Once {p, q} is cached, a growing one-orientation cache keeps answering the same midpoint. */
  lemma MidOfStable(c: map<Edge, int>, c2: map<Edge, int>, p: int, q: int)
    requires Grows(c, c2) && OneOrientation(c2) && Cached(c, p, q)
    ensures MidOf(c2, p, q) == MidOf(c, p, q)
  {
  }

  /** With one orientation per edge, the midpoint of {p, q} does not depend on the orientation asked. */
  lemma MidOfSymmetric(c: map<Edge, int>, p: int, q: int)
    requires OneOrientation(c)
    ensures MidOf(c, p, q) == MidOf(c, q, p)
  {
  }

  lemma AddKeepsDistinct(c: map<Edge, int>, p: int, q: int, n: int)
    requires DistinctMidpoints(c) && (p, q) !in c
    requires forall k | k in c :: c[k] < n
    ensures DistinctMidpoints(c[(p, q) := n])
  {
    var c' := c[(p, q) := n];
    forall k1, k2 | k1 in c' && k2 in c' && c'[k1] == c'[k2]
      ensures k1 == k2
    {
      if k1 != (p, q) && k2 != (p, q) {
        assert c[k1] == c[k2];
      }
    }
  }

  lemma AddKeepsNewVerticesCached(c: map<Edge, int>, p: int, q: int, lo: int, n: int)
    requires NewVerticesCached(c, lo, n) && (p, q) !in c
    ensures NewVerticesCached(c[(p, q) := n], lo, n + 1)
  {
    var c' := c[(p, q) := n];
    forall x | lo <= x < n + 1
      ensures x in c'.Values
    {
      if x < n {
        assert x in c.Values;
        var k :| k in c && c[k] == x;
        assert k in c' && c'[k] == x;
      } else {
        assert c'[(p, q)] == x;
      }
    }
  }

  lemma AddKeepsAverages(verts0: seq<real>, s: PassState, p: int, q: int)
    requires PassOk(verts0, s) && MidpointsAreAverages(verts0, s)
    requires 0 <= p < VertexCount(verts0) && 0 <= q < VertexCount(verts0)
    requires (p, q) !in s.cache
    ensures
      var s' := PassState(s.verts + Coords(Midpoint(VertexAt(verts0, p), VertexAt(verts0, q))),
                          s.cache[(p, q) := VertexCount(s.verts)], s.out);
      PassOk(verts0, s') && MidpointsAreAverages(verts0, s')
  {
    var n := VertexCount(s.verts);
    var v := Midpoint(VertexAt(verts0, p), VertexAt(verts0, q));
    var s' := PassState(s.verts + Coords(v), s.cache[(p, q) := n], s.out);
    assert VertexCount(s'.verts) == n + 1;
    assert PassOk(verts0, s');
    forall k | k in s'.cache
      ensures VertexAt(s'.verts, s'.cache[k]) == Midpoint(VertexAt(verts0, k.0), VertexAt(verts0, k.1))
    {
      if k == (p, q) {
        assert VertexAt(s'.verts, n) == v;
      } else {
        SameVertex(s.verts, s'.verts, s.cache[k]);
      }
    }
  }

  lemma AddKeepsEdges(c: map<Edge, int>, E: set<Edge>, p: int, q: int, n: int)
    requires KeysInEdges(c, E) && EdgesCached(c, E) && OneOrientation(c) && !Cached(c, p, q)
    ensures KeysInEdges(c[(p, q) := n], E + {Norm(p, q)})
    ensures EdgesCached(c[(p, q) := n], E + {Norm(p, q)})
    ensures OneOrientation(c[(p, q) := n])
    ensures |E + {Norm(p, q)}| == |E| + 1
  {
    assert Norm(p, q) !in E;
  }

  /** Appending the midpoint of an uncached edge {p, q} keeps the cache exact. */
  lemma AddEdgeExact(verts0: seq<real>, s: PassState, p: int, q: int, E: set<Edge>)
    requires PassOk(verts0, s) && CacheExact(verts0, s, E)
    requires 0 <= p < VertexCount(verts0) && 0 <= q < VertexCount(verts0)
    requires !Cached(s.cache, p, q)
    ensures
      var s' := PassState(s.verts + Coords(Midpoint(VertexAt(verts0, p), VertexAt(verts0, q))),
                          s.cache[(p, q) := VertexCount(s.verts)], s.out);
      PassOk(verts0, s') && CacheExact(verts0, s', E + {Norm(p, q)})
  {
    var n := VertexCount(s.verts);
    AddKeepsEdges(s.cache, E, p, q, n);
    AddKeepsAverages(verts0, s, p, q);
    AddKeepsDistinct(s.cache, p, q, n);
    AddKeepsNewVerticesCached(s.cache, p, q, VertexCount(verts0), n);
  }

  /** The block for one edge keeps the cache exact. */
  lemma MidpointForExact(verts0: seq<real>, s: PassState, p: int, q: int, E: set<Edge>)
    requires PassOk(verts0, s) && CacheExact(verts0, s, E)
    requires 0 <= p < VertexCount(verts0) && 0 <= q < VertexCount(verts0)
    ensures CacheExact(verts0, MidpointFor(verts0, s, p, q).0, E + {Norm(p, q)})
  {
    if Cached(s.cache, p, q) {
      var k := if (p, q) in s.cache then (p, q) else (q, p);
      assert Norm(k.0, k.1) == Norm(p, q);
      assert E + {Norm(p, q)} == E;
    } else {
      AddEdgeExact(verts0, s, p, q, E);
    }
  }

  /** After the block for {p, q} the cache has kept its entries, holds {p, q}, and answers the block's result. */
  lemma MidpointForAnswer(verts0: seq<real>, s: PassState, p: int, q: int)
    requires PassOk(verts0, s)
    requires 0 <= p < VertexCount(verts0) && 0 <= q < VertexCount(verts0)
    ensures Grows(s.cache, MidpointFor(verts0, s, p, q).0.cache)
    ensures Cached(MidpointFor(verts0, s, p, q).0.cache, p, q)
    ensures MidpointFor(verts0, s, p, q).1 == MidOf(MidpointFor(verts0, s, p, q).0.cache, p, q)
  {
  }

  lemma TriangleEdgesUnion(E: set<Edge>, a: int, b: int, c: int)
    ensures E + {Norm(a, b)} + {Norm(b, c)} + {Norm(c, a)} == E + TriangleEdges(a, b, c)
  {
  }

  /** The loop body for one triangle keeps the cache exact and emits the four triangles of the final cache. */
  lemma SplitTriangleExact(verts0: seq<real>, s0: PassState, i0: int, i1: int, i2: int, E: set<Edge>)
    requires PassOk(verts0, s0) && IndicesBelow(s0.out, VertexCount(s0.verts)) && CacheExact(verts0, s0, E)
    requires 0 <= i0 < VertexCount(verts0) && 0 <= i1 < VertexCount(verts0) && 0 <= i2 < VertexCount(verts0)
    ensures CacheExact(verts0, SplitTriangle(verts0, s0, i0, i1, i2), E + TriangleEdges(i0, i1, i2))
    ensures Grows(s0.cache, SplitTriangle(verts0, s0, i0, i1, i2).cache)
    ensures Cached(SplitTriangle(verts0, s0, i0, i1, i2).cache, i0, i1)
    ensures Cached(SplitTriangle(verts0, s0, i0, i1, i2).cache, i1, i2)
    ensures Cached(SplitTriangle(verts0, s0, i0, i1, i2).cache, i2, i0)
    ensures
      var c := SplitTriangle(verts0, s0, i0, i1, i2).cache;
      SplitTriangle(verts0, s0, i0, i1, i2).out
        == s0.out + Split(i0, i1, i2, MidOf(c, i0, i1), MidOf(c, i1, i2), MidOf(c, i2, i0))
  {
    var (s1, i01) := MidpointFor(verts0, s0, i0, i1);
    MidpointForExact(verts0, s0, i0, i1, E);
    MidpointForAnswer(verts0, s0, i0, i1);
    var (s2, i12) := MidpointFor(verts0, s1, i1, i2);
    MidpointForExact(verts0, s1, i1, i2, E + {Norm(i0, i1)});
    MidpointForAnswer(verts0, s1, i1, i2);
    var (s3, i20) := MidpointFor(verts0, s2, i2, i0);
    MidpointForExact(verts0, s2, i2, i0, E + {Norm(i0, i1)} + {Norm(i1, i2)});
    MidpointForAnswer(verts0, s2, i2, i0);
    TriangleEdgesUnion(E, i0, i1, i2);
    MidOfStable(s1.cache, s3.cache, i0, i1);
    MidOfStable(s2.cache, s3.cache, i1, i2);
  }

  /** The twelve indices a pass emits for triangle `j`. */
  function TriangleOut(out: seq<int>, j: int): seq<int>
    requires 0 <= j && 12 * j + 12 <= |out|
  {
    out[12 * j .. 12 * j + 12]
  }

  /** The four triangles that replace triangle `j` of `idx`, with the midpoints that cache `c` records. */
  ghost function ExpectedSplit(idx: seq<int>, c: map<Edge, int>, j: int): seq<int>
    requires 0 <= j && 3 * j + 3 <= |idx|
  {
    var a, b, d := idx[3 * j], idx[3 * j + 1], idx[3 * j + 2];
    Split(a, b, d, MidOf(c, a, b), MidOf(c, b, d), MidOf(c, d, a))
  }

  /** The triangle split last is the block the pass just appended. */
  lemma NewSplit(idx: seq<int>, out0: seq<int>, out: seq<int>, c: map<Edge, int>, j: nat)
    requires 3 * j + 3 <= |idx| && |out0| == 12 * j
    requires
      var a, b, d := idx[3 * j], idx[3 * j + 1], idx[3 * j + 2];
      out == out0 + Split(a, b, d, MidOf(c, a, b), MidOf(c, b, d), MidOf(c, d, a))
    ensures 12 * j + 12 <= |out| && TriangleOut(out, j) == ExpectedSplit(idx, c, j)
  {
    assert out[12 * j .. 12 * j + 12] == out[|out0|..];
  }

  /** Every triangle before position `i` was replaced according to cache `s.cache`. */
  ghost predicate SplitsOk(idx: seq<int>, s: PassState, i: int)
    requires i <= |idx| && |s.out| == 4 * i
  {
    forall j | 0 <= j && 3 * j + 3 <= i :: TriangleOut(s.out, j) == ExpectedSplit(idx, s.cache, j)
  }

  lemma PreviousTriangle(i: int)
    requires i % 3 == 0 && i >= 3
    ensures (i - 3) % 3 == 0
  {
  }

  lemma EarlierTriangle(i: int, j: int)
    requires i % 3 == 0 && 3 * j + 3 < i
    ensures 3 * j + 3 <= i - 3
  {
  }

  /** Each triangle adds at most three edges, so a pass adds at most one vertex per index. */
  lemma {:induction false} EdgesUpToBound(idx: seq<int>, i: int)
    requires i <= |idx|
    ensures |EdgesUpTo(idx, i)| <= if i < 0 then 0 else i
    decreases i
  {
    if i >= 3 {
      EdgesUpToBound(idx, i - 3);
      var E, T := EdgesUpTo(idx, i - 3), TriangleEdges(idx[i - 3], idx[i - 2], idx[i - 1]);
      assert |E + T| <= |E| + |T|;
    }
  }

  /** The edges of triangle `j` are among the edges seen before position `i` when it lies before `i`. */
  lemma {:induction false} TriangleEdgesSeen(idx: seq<int>, i: nat, j: nat)
    requires i % 3 == 0 && 3 * j + 3 <= i <= |idx|
    ensures TriangleEdges(idx[3 * j], idx[3 * j + 1], idx[3 * j + 2]) <= EdgesUpTo(idx, i)
    decreases i
  {
    if 3 * j + 3 < i {
      PreviousTriangle(i);
      EarlierTriangle(i, j);
      TriangleEdgesSeen(idx, i - 3, j);
    }
  }

  /** Within the triangles before position `i` the cache is exact for their edges. */
  lemma {:induction false} PassCacheExact(verts: seq<real>, idx: seq<int>, i: nat)
    requires MeshOk(verts, idx) && i % 3 == 0 && i <= |idx|
    ensures CacheExact(verts, PassUpTo(verts, idx, i), EdgesUpTo(idx, i))
    decreases i
  {
    if i > 0 {
      var h := i - 3;
      PreviousTriangle(i);
      PassCacheExact(verts, idx, h);
      PassUpToStep(verts, idx, h);
      SplitTriangleExact(verts, PassUpTo(verts, idx, h), idx[h], idx[h + 1], idx[h + 2], EdgesUpTo(idx, h));
    }
  }

  /** A triangle already split keeps its twelve indices and its midpoints while the pass goes on. */
  lemma SplitKept(idx: seq<int>, s0: PassState, s: PassState, j: nat, E: set<Edge>)
    requires 3 * j + 3 <= |idx| && 12 * j + 12 <= |s0.out| <= |s.out| && s.out[..|s0.out|] == s0.out
    requires Grows(s0.cache, s.cache) && OneOrientation(s.cache) && EdgesCached(s0.cache, E)
    requires TriangleEdges(idx[3 * j], idx[3 * j + 1], idx[3 * j + 2]) <= E
    requires TriangleOut(s0.out, j) == ExpectedSplit(idx, s0.cache, j)
    ensures TriangleOut(s.out, j) == ExpectedSplit(idx, s.cache, j)
  {
    var a, b, d := idx[3 * j], idx[3 * j + 1], idx[3 * j + 2];
    assert TriangleOut(s.out, j) == TriangleOut(s0.out, j);
    assert Norm(a, b) in E && Norm(b, d) in E && Norm(d, a) in E;
    MidOfStable(s0.cache, s.cache, a, b);
    MidOfStable(s0.cache, s.cache, b, d);
    MidOfStable(s0.cache, s.cache, d, a);
  }

  /** One more triangle split keeps every earlier triangle's block and adds its own. */
  lemma SplitsStep(idx: seq<int>, s0: PassState, s: PassState, h: nat)
    requires h % 3 == 0 && h + 3 <= |idx| && |s0.out| == 4 * h
    requires SplitsOk(idx, s0, h)
    requires Grows(s0.cache, s.cache) && OneOrientation(s.cache) && EdgesCached(s0.cache, EdgesUpTo(idx, h))
    requires
      var a, b, d := idx[h], idx[h + 1], idx[h + 2];
      s.out == s0.out + Split(a, b, d, MidOf(s.cache, a, b), MidOf(s.cache, b, d), MidOf(s.cache, d, a))
    ensures |s.out| == 4 * (h + 3) && SplitsOk(idx, s, h + 3)
  {
    forall j | 0 <= j && 3 * j + 3 <= h + 3
      ensures TriangleOut(s.out, j) == ExpectedSplit(idx, s.cache, j)
    {
      if 3 * j + 3 <= h {
        TriangleEdgesSeen(idx, h, j);
        SplitKept(idx, s0, s, j, EdgesUpTo(idx, h));
      } else {
        assert 3 * j == h;
        NewSplit(idx, s0.out, s.out, s.cache, j);
      }
    }
  }

  /** Splitting the triangle at position `h` extends the split blocks by one. */
  lemma PassSplitsStep(verts: seq<real>, idx: seq<int>, h: nat, i: nat)
    requires MeshOk(verts, idx) && h % 3 == 0 && i == h + 3 && i <= |idx|
    requires SplitsOk(idx, PassUpTo(verts, idx, h), h)
    ensures SplitsOk(idx, PassUpTo(verts, idx, i), i)
  {
    PassCacheExact(verts, idx, h);
    var s0 := PassUpTo(verts, idx, h);
    PassUpToStep(verts, idx, h);
    var s := SplitTriangle(verts, s0, idx[h], idx[h + 1], idx[h + 2]);
    SplitTriangleExact(verts, s0, idx[h], idx[h + 1], idx[h + 2], EdgesUpTo(idx, h));
    SplitsStep(idx, s0, s, h);
  }

  /** Every triangle before position `i` was replaced by the four triangles the cache records. */
  lemma {:induction false} PassSplitsOk(verts: seq<real>, idx: seq<int>, i: nat)
    requires MeshOk(verts, idx) && i % 3 == 0 && i <= |idx|
    ensures SplitsOk(idx, PassUpTo(verts, idx, i), i)
    decreases i
  {
    if i > 0 {
      PreviousTriangle(i);
      PassSplitsOk(verts, idx, i - 3);
      PassSplitsStep(verts, idx, i - 3, i);
    }
  }

  /** The midpoint one pass assigns to the edge {p, q}: its final `midCache` entry. */
  ghost function PassMidpoint(verts: seq<real>, idx: seq<int>, p: int, q: int): int
    requires MeshOk(verts, idx)
  {
    MidOf(PassUpTo(verts, idx, |idx|).cache, p, q)
  }

  /** The final state of a pass over the whole index buffer. */
  lemma PassExact(verts: seq<real>, idx: seq<int>)
    requires MeshOk(verts, idx)
    ensures CacheExact(verts, PassUpTo(verts, idx, |idx|), EdgesOf(idx))
    ensures SplitsOk(idx, PassUpTo(verts, idx, |idx|), |idx|)
  {
    PassCacheExact(verts, idx, |idx|);
    PassSplitsOk(verts, idx, |idx|);
  }

  /** A pass appends exactly one vertex per distinct unordered edge. */
  lemma SubdividePassVertexCount(verts: seq<real>, idx: seq<int>)
    requires MeshOk(verts, idx)
    ensures VertexCount(SubdividePass(verts, idx).0) == VertexCount(verts) + |EdgesOf(idx)|
  {
    PassExact(verts, idx);
  }

  /**
   * Every edge {p, q} of the mesh gets a new vertex, whichever orientation
   * it is asked in, and that vertex is the average of p and q.
   */
  lemma SubdividePassMidpoint(verts: seq<real>, idx: seq<int>, p: int, q: int)
    requires MeshOk(verts, idx) && Norm(p, q) in EdgesOf(idx)
    ensures PassMidpoint(verts, idx, p, q) == PassMidpoint(verts, idx, q, p)
    ensures
      var r := SubdividePass(verts, idx);
      var m := PassMidpoint(verts, idx, p, q);
      && 0 <= p < VertexCount(verts) && 0 <= q < VertexCount(verts)
      && VertexCount(verts) <= m < VertexCount(r.0)
      && VertexAt(r.0, m) == Midpoint(VertexAt(verts, p), VertexAt(verts, q))
  {
    PassExact(verts, idx);
    var s := PassUpTo(verts, idx, |idx|);
    MidOfSymmetric(s.cache, p, q);
    assert Cached(s.cache, p, q);
  }

  /** Two different edges never share a new vertex. */
  lemma SubdividePassDistinct(verts: seq<real>, idx: seq<int>, p: int, q: int, p2: int, q2: int)
    requires MeshOk(verts, idx) && Norm(p, q) in EdgesOf(idx) && Norm(p2, q2) in EdgesOf(idx)
    requires Norm(p, q) != Norm(p2, q2)
    ensures PassMidpoint(verts, idx, p, q) != PassMidpoint(verts, idx, p2, q2)
  {
    PassExact(verts, idx);
    var s := PassUpTo(verts, idx, |idx|);
    assert Cached(s.cache, p, q) && Cached(s.cache, p2, q2);
  }

  /** Every vertex a pass appends is the midpoint of some edge of the mesh. */
  lemma SubdividePassNoStray(verts: seq<real>, idx: seq<int>, m: int)
    requires MeshOk(verts, idx) && VertexCount(verts) <= m < VertexCount(SubdividePass(verts, idx).0)
    ensures exists p, q :: Norm(p, q) in EdgesOf(idx) && PassMidpoint(verts, idx, p, q) == m
  {
    PassExact(verts, idx);
    var s := PassUpTo(verts, idx, |idx|);
    assert m in s.cache.Values;
    var k :| k in s.cache && s.cache[k] == m;
    assert Norm(k.0, k.1) in EdgesOf(idx);
    assert PassMidpoint(verts, idx, k.0, k.1) == m;
  }

  /**
   * Triangle `j` (i0, i1, i2) becomes, at positions 12j .. 12j + 11 of the
   * new index buffer, the four triangles (i0, i01, i20), (i1, i12, i01),
   * (i2, i20, i12) and (i01, i12, i20).
   */
  lemma SubdividePassSplits(verts: seq<real>, idx: seq<int>, j: nat)
    requires MeshOk(verts, idx) && 3 * j + 3 <= |idx|
    ensures
      var r := SubdividePass(verts, idx);
      var i0, i1, i2 := idx[3 * j], idx[3 * j + 1], idx[3 * j + 2];
      && 12 * j + 12 <= |r.1|
      && r.1[12 * j .. 12 * j + 12]
           == Split(i0, i1, i2, PassMidpoint(verts, idx, i0, i1),
                    PassMidpoint(verts, idx, i1, i2), PassMidpoint(verts, idx, i2, i0))
  {
    PassExact(verts, idx);
    assert TriangleOut(PassUpTo(verts, idx, |idx|).out, j) == ExpectedSplit(idx, PassUpTo(verts, idx, |idx|).cache, j);
  }

  /** A pass keeps every vertex inside any box that held the old vertices. */
  lemma SubdividePassInBox(verts: seq<real>, idx: seq<int>, lo: Vec3, hi: Vec3)
    requires MeshOk(verts, idx) && AllInBox(verts, lo, hi)
    ensures AllInBox(SubdividePass(verts, idx).0, lo, hi)
  {
    var r := SubdividePass(verts, idx);
    forall m | 0 <= m < VertexCount(r.0)
      ensures InBox(VertexAt(r.0, m), lo, hi)
    {
      if m < VertexCount(verts) {
        SameVertex(verts, r.0, m);
      } else {
        SubdividePassNoStray(verts, idx, m);
        var p, q :| Norm(p, q) in EdgesOf(idx) && PassMidpoint(verts, idx, p, q) == m;
        SubdividePassMidpoint(verts, idx, p, q);
        MidpointInBox(VertexAt(verts, p), VertexAt(verts, q), lo, hi);
      }
    }
  }

  /** Any number of passes keeps the vertices inside a box that held the base vertices. */
  lemma {:induction false} SubdividedInBox(verts: seq<real>, idx: seq<int>, detail: int, lo: Vec3, hi: Vec3)
    requires MeshOk(verts, idx) && AllInBox(verts, lo, hi)
    ensures AllInBox(Subdivided(verts, idx, detail).0, lo, hi)
    decreases detail
  {
    if detail > 0 {
      SubdividedInBox(verts, idx, detail - 1, lo, hi);
      var p := Subdivided(verts, idx, detail - 1);
      SubdividePassInBox(p.0, p.1, lo, hi);
    }
  }

  /**
   * A pass adds at most one vertex per index it reads while it quadruples
   * the index count, so 3 * vertices - indices never grows.
   */
  lemma {:induction false} SubdividedVertexBound(verts: seq<real>, idx: seq<int>, detail: int)
    requires MeshOk(verts, idx)
    ensures
      var r := Subdivided(verts, idx, detail);
      3 * VertexCount(r.0) - |r.1| <= 3 * VertexCount(verts) - |idx|
    decreases detail
  {
    if detail > 0 {
      SubdividedVertexBound(verts, idx, detail - 1);
      var p := Subdivided(verts, idx, detail - 1);
      SubdividePassVertexCount(p.0, p.1);
      EdgesUpToBound(p.1, |p.1|);
    }
  }
}
