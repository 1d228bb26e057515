/**
 * Flat mesh buffers as the geometry classes keep them: `vertices` holds
 * x, y, z per vertex and `indices` holds three vertex numbers per triangle.
 */
module Mesh {
  import opened Wrappers
  import opened Utils

  /** `vertices.length / 3`. */
  function VertexCount(verts: seq<real>): nat
  {
    |verts| / 3
  }

  /** `getVertexByIndex(i)` for an index inside the buffer. */
  function VertexAt(verts: seq<real>, i: int): Vec3
    requires 0 <= i && 3 * i + 2 < |verts|
  {
    Vec3(verts[3 * i], verts[3 * i + 1], verts[3 * i + 2])
  }

  /**
   * `getVertexByIndex(i)` for any `i`: `None` stands for the triple of
   * `undefined` that JS returns when `3 * i` is outside the buffer.
   */
  function VertexByIndex(verts: seq<real>, i: int): (r: Option<Vec3>)
    requires |verts| % 3 == 0
    ensures r.Some? <==> 0 <= i < VertexCount(verts)
    ensures r.Some? ==> Coords(r.value) == verts[3 * i .. 3 * i + 3]
  {
    if 0 <= i && 3 * i + 2 < |verts| then Some(VertexAt(verts, i)) else None
  }

  function Coords(v: Vec3): seq<real>
  {
    [v.x, v.y, v.z]
  }

  /** Vertices written out as a flat `[x, y, z, x, y, z, ...]` buffer. */
  function Flatten(vs: seq<Vec3>): (r: seq<real>)
    ensures |r| == 3 * |vs|
  {
    if |vs| == 0 then [] else Flatten(vs[..|vs| - 1]) + Coords(vs[|vs| - 1])
  }

  /** Vertex `i` of a flattened buffer is the `i`-th vector. */
  lemma {:induction false} FlattenVertex(vs: seq<Vec3>, i: nat)
    requires i < |vs|
    ensures |Flatten(vs)| == 3 * |vs| && VertexAt(Flatten(vs), i) == vs[i]
    decreases |vs|
  {
    var init := vs[..|vs| - 1];
    if i < |vs| - 1 {
      FlattenVertex(init, i);
      assert init[i] == vs[i];
    } else {
      assert Flatten(vs)[3 * i .. 3 * i + 3] == Coords(vs[i]);
    }
  }

  /** Pushing one more vertex appends its three coordinates. */
  lemma FlattenPush(vs: seq<Vec3>, v: Vec3)
    ensures Flatten(vs + [v]) == Flatten(vs) + Coords(v)
  {
    assert (vs + [v])[..|vs|] == vs;
  }

  /** Flattening distributes over concatenation. */
  lemma {:induction false} FlattenAppend(a: seq<Vec3>, b: seq<Vec3>)
    ensures Flatten(a + b) == Flatten(a) + Flatten(b)
    decreases |b|
  {
    if |b| == 0 {
      assert a + b == a;
    } else {
      var init, last := b[..|b| - 1], b[|b| - 1];
      assert b == init + [last];
      FlattenAppend(a, init);
      assert a + b == (a + init) + [last];
      FlattenPush(a + init, last);
      assert Flatten(b) == Flatten(init) + Coords(last);
      assert Flatten(a + b) == (Flatten(a) + Flatten(init)) + Coords(last);
    }
  }

  /** Every index names an existing vertex. */
  ghost predicate IndicesBelow(idx: seq<int>, n: int)
  {
    forall x | x in idx :: 0 <= x < n
  }

  /** Whole vertices, whole triangles, and every index valid. */
  ghost predicate MeshOk(verts: seq<real>, idx: seq<int>)
  {
    |verts| % 3 == 0 && |idx| % 3 == 0 && IndicesBelow(idx, VertexCount(verts))
  }

  /** The midpoint that subdivision inserts: `0.5 * (a + b)` per component. */
  function Midpoint(a: Vec3, b: Vec3): Vec3
  {
    Vec3(0.5 * (a.x + b.x), 0.5 * (a.y + b.y), 0.5 * (a.z + b.z))
  }

  function Pow4(n: nat): nat
  {
    if n == 0 then 1 else 4 * Pow4(n - 1)
  }

  /** `lo <= v <= hi` in each coordinate. */
  predicate InBox(v: Vec3, lo: Vec3, hi: Vec3)
  {
    lo.x <= v.x <= hi.x && lo.y <= v.y <= hi.y && lo.z <= v.z <= hi.z
  }

  /** Every vertex of the buffer lies in the box [lo, hi]. */
  ghost predicate AllInBox(verts: seq<real>, lo: Vec3, hi: Vec3)
  {
    forall i | 0 <= i < VertexCount(verts) :: InBox(VertexAt(verts, i), lo, hi)
  }

  /** A box is convex: the midpoint of two of its points is in it. */
  lemma MidpointInBox(a: Vec3, b: Vec3, lo: Vec3, hi: Vec3)
    requires InBox(a, lo, hi) && InBox(b, lo, hi)
    ensures InBox(Midpoint(a, b), lo, hi)
  {
  }
}
