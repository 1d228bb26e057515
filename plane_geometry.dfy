/**
 * app/src/PlaneGeometry.js: the square [-1, 1] x {0} x [-1, 1] as two
 * triangles, subdivided `detail` times with the same loop as the
 * icosahedron, scaled by `size`, with the normal (0, 1, 0) for every entry
 * of `indices`.
 */
module PlaneGeometry {
  import opened Utils
  import opened Mesh
  import opened Subdivision
  import opened EdgeCache

  /** The lower corner of the square. */
  const Low := Vec3(-1.0, 0.0, -1.0)

  /** The upper corner of the square. */
  const High := Vec3(1.0, 0.0, 1.0)

  /** The four hard-coded base vertices. */
  function BaseCorners(): (c: seq<Vec3>)
    ensures |c| == 4
    ensures forall v | v in c :: InBox(v, Low, High)
  {
    [Vec3(-1.0, 0.0, -1.0), Vec3(1.0, 0.0, -1.0), Vec3(-1.0, 0.0, 1.0), Vec3(1.0, 0.0, 1.0)]
  }

  /** The hard-coded `vertices` array. */
  function BaseVertices(): (v: seq<real>)
    ensures |v| == 12
  {
    Flatten(BaseCorners())
  }

  /** The hard-coded `indices` array: triangles (0, 1, 2) and (3, 2, 1). */
  function BaseIndices(): (idx: seq<int>)
    ensures |idx| == 6
    ensures forall x | x in idx :: 0 <= x < 4
  {
    [0, 1, 2] + [3, 2, 1]
  }

  /** The base quad: 4 vertices, 2 triangles, every index a vertex. */
  function BaseMesh(): (m: (seq<real>, seq<int>))
    ensures MeshOk(m.0, m.1) && VertexCount(m.0) == 4 && |m.1| == 6
  {
    (BaseVertices(), BaseIndices())
  }

  /** Every base vertex lies on the square. */
  lemma BaseInSquare()
    ensures AllInBox(BaseVertices(), Low, High)
  {
    forall i | 0 <= i < VertexCount(BaseVertices())
      ensures InBox(VertexAt(BaseVertices(), i), Low, High)
    {
      FlattenVertex(BaseCorners(), i);
    }
  }

  /** `vertices.map((v) => v * size)`. */
  function ScaledBy(verts: seq<real>, size: real): (r: seq<real>)
    ensures |r| == |verts|
  {
    seq(|verts|, k requires 0 <= k < |verts| => verts[k] * size)
  }

  /** Scaling the buffer scales each vertex and keeps their number and order. */
  lemma ScaledVertex(verts: seq<real>, size: real, j: int)
    requires 0 <= j < VertexCount(verts)
    ensures VertexCount(ScaledBy(verts, size)) == VertexCount(verts)
    ensures VertexAt(ScaledBy(verts, size), j) == Scale(VertexAt(verts, j), size)
  {
  }

  /** The vertex and index buffers `generateGeometry` leaves behind. */
  function Generated(size: real, detail: int): (r: (seq<real>, seq<int>))
    ensures MeshOk(r.0, r.1)
  {
    var base := BaseMesh();
    var s := Subdivided(base.0, base.1, detail);
    (ScaledBy(s.0, size), s.1)
  }

  /** After `detail` passes the quad has 2 * 4^detail triangles. */
  lemma GeneratedIndexCount(size: real, detail: nat)
    ensures |Generated(size, detail).1| == 6 * Pow4(detail)
  {
    var base := BaseMesh();
    SubdividedCount(base.0, base.1, detail);
  }

  /** `|size|`. */
  function Extent(size: real): (e: real)
    ensures e >= 0.0 && (e == size || e == -size)
  {
    if size < 0.0 then -size else size
  }

  /** A coordinate in [-1, 1], scaled by `size`, stays within `|size|`. */
  lemma ScaledCoordinate(c: real, size: real)
    requires -1.0 <= c <= 1.0
    ensures -Extent(size) <= c * size <= Extent(size)
  {
    var e := Extent(size);
    ProductNonNegative(1.0 - c, e);
    ProductNonNegative(1.0 + c, e);
    assert c * size == c * e || c * size == -(c * e);
  }

  /** A point of the square, scaled by `size`, stays flat and within `|size|`. */
  lemma ScaledInSquare(v: Vec3, size: real)
    requires InBox(v, Low, High)
    ensures var w := Scale(v, size);
      w.y == 0.0 && -Extent(size) <= w.x <= Extent(size) && -Extent(size) <= w.z <= Extent(size)
  {
    ScaledCoordinate(v.x, size);
    ScaledCoordinate(v.z, size);
  }

  /**
   * Every generated vertex lies in the plane y = 0, inside the square of
   * half-width `|size|`: subdivision only adds midpoints.
   */
  lemma GeneratedFlat(size: real, detail: int, j: int)
    requires 0 <= j < VertexCount(Generated(size, detail).0)
    ensures var v := VertexAt(Generated(size, detail).0, j);
      v.y == 0.0 && -Extent(size) <= v.x <= Extent(size) && -Extent(size) <= v.z <= Extent(size)
  {
    var base := BaseMesh();
    var s := Subdivided(base.0, base.1, detail);
    BaseInSquare();
    SubdividedInBox(base.0, base.1, detail, Low, High);
    ScaledVertex(s.0, size, j);
    ScaledInSquare(VertexAt(s.0, j), size);
  }

  /** `normals` after `calculateNormals` has pushed `n` triples. */
  function UpNormals(n: nat): (r: seq<real>)
    ensures |r| == 3 * n
  {
    if n == 0 then [] else UpNormals(n - 1) + [0.0, 1.0, 0.0]
  }

  /** Every normal is (0, 1, 0). */
  lemma {:induction false} UpNormalsEntry(n: nat, i: nat)
    requires i < n
    ensures |UpNormals(n)| == 3 * n && VertexAt(UpNormals(n), i) == Vec3(0.0, 1.0, 0.0)
  {
    if i < n - 1 {
      UpNormalsEntry(n - 1, i);
      var r, prev := UpNormals(n), UpNormals(n - 1);
      assert r[3 * i] == prev[3 * i] && r[3 * i + 1] == prev[3 * i + 1] && r[3 * i + 2] == prev[3 * i + 2];
    }
  }

  class PlaneGeometry {
    var size: real
    var detail: int
    var vertices: seq<real>
    var indices: seq<int>
    var normals: seq<real>

    /** `generateGeometry`: base quad, `subdivide(detail)`, scale by `size`, `calculateNormals`. */
    method GenerateGeometry()
      modifies this
      ensures size == old(size) && detail == old(detail)
      ensures (vertices, indices) == Generated(size, detail)
      ensures normals == UpNormals(|indices|)
    {
      vertices := BaseVertices();
      indices := BaseIndices();
      Subdivide(detail);
      vertices := ScaledBy(vertices, size);
      CalculateNormals();
    }

    /** `subdivide(detail)`: the shared subdivision loop on this object's buffers. */
    method Subdivide(detail: int)
      requires MeshOk(vertices, indices)
      modifies this
      ensures (vertices, indices) == Subdivided(old(vertices), old(indices), detail)
      ensures size == old(size) && this.detail == old(this.detail) && normals == old(normals)
    {
      vertices, indices := Subdivision.Subdivide(vertices, indices, detail);
    }

    /** `calculateNormals`: push (0, 1, 0) once per element of `indices`. */
    method CalculateNormals()
      modifies this
      ensures vertices == old(vertices) && indices == old(indices)
      ensures normals == UpNormals(|indices|)
      ensures size == old(size) && detail == old(detail)
    {
      var ns := [];
      var i := 0;
      while i < |indices|
        modifies {}
        invariant 0 <= i <= |indices|
        invariant ns == UpNormals(i)
      {
        ns := ns + [0.0, 1.0, 0.0];
        i := i + 1;
      }
      normals := ns;
    }
  }
}
