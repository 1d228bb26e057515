/**
 * app/src/IcosahedronGeometry.js: a regular icosahedron built from three
 * golden rectangles, subdivided `detail` times, pushed out to `radius` and
 * given one normal per entry of `indices`.
 */
module IcosahedronGeometry {
  import opened Wrappers
  import opened Utils
  import opened Mesh
  import opened Subdivision
  import opened EdgeCache

  /** `t = (1 + Math.sqrt(5)) / 2`. */
  function GoldenRatio(math: MathLib): real
  {
    (1.0 + math.sqrt(5.0)) / 2.0
  }

  /** `a` is `b` or `-b`. */
  predicate PlusMinus(a: real, b: real)
  {
    a == b || a == -b
  }

  /** A corner of one of the three golden rectangles: a cyclic shift of (+-1, +-t, 0). */
  predicate GoldenCorner(v: Vec3, t: real)
  {
    || (PlusMinus(v.x, 1.0) && PlusMinus(v.y, t) && v.z == 0.0)
    || (v.x == 0.0 && PlusMinus(v.y, 1.0) && PlusMinus(v.z, t))
    || (PlusMinus(v.x, t) && v.y == 0.0 && PlusMinus(v.z, 1.0))
  }

  /** The twelve hard-coded base vertices, three coordinates each. */
  function BaseCorners(t: real): (c: seq<Vec3>)
    ensures |c| == 12
    ensures forall v | v in c :: GoldenCorner(v, t)
  {
    [Vec3(-1.0, t, 0.0), Vec3(1.0, t, 0.0), Vec3(-1.0, -t, 0.0), Vec3(1.0, -t, 0.0)] +
    [Vec3(0.0, -1.0, t), Vec3(0.0, 1.0, t), Vec3(0.0, -1.0, -t), Vec3(0.0, 1.0, -t)] +
    [Vec3(t, 0.0, -1.0), Vec3(t, 0.0, 1.0), Vec3(-t, 0.0, -1.0), Vec3(-t, 0.0, 1.0)]
  }

  /** The hard-coded `vertices` array. */
  function BaseVertices(t: real): (v: seq<real>)
    ensures |v| == 36
  {
    Flatten(BaseCorners(t))
  }

  /** Every base vertex is a golden-rectangle corner. */
  lemma BaseVerticesGolden(t: real, i: int)
    requires 0 <= i < 12
    ensures GoldenCorner(VertexAt(BaseVertices(t), i), t)
  {
    FlattenVertex(BaseCorners(t), i);
  }

  /** The twenty hard-coded base triangles. */
  function BaseIndices(): (idx: seq<int>)
    ensures |idx| == 60
    ensures forall x | x in idx :: 0 <= x < 12
  {
    [0, 11, 5] + [0, 5, 1] + [0, 1, 7] + [0, 7, 10] + [0, 10, 11] +
    [1, 5, 9] + [5, 11, 4] + [11, 10, 2] + [10, 7, 6] + [7, 1, 8] +
    [3, 9, 4] + [3, 4, 2] + [3, 2, 6] + [3, 6, 8] + [3, 8, 9] +
    [4, 9, 5] + [2, 4, 11] + [6, 2, 10] + [8, 6, 7] + [9, 8, 1]
  }

  /** The base icosahedron: 12 vertices, 20 triangles, every index a vertex. */
  function BaseMesh(t: real): (m: (seq<real>, seq<int>))
    ensures MeshOk(m.0, m.1) && VertexCount(m.0) == 12 && |m.1| == 60
  {
    (BaseVertices(t), BaseIndices())
  }

  /** The buffers after `subdivide(detail)` and before `applyRadius`. */
  function Unprojected(detail: int, math: MathLib): (m: (seq<real>, seq<int>))
    ensures MeshOk(m.0, m.1)
  {
    var base := BaseMesh(GoldenRatio(math));
    Subdivided(base.0, base.1, detail)
  }

  /**
   * One vertex of `applyRadius`: left alone when its magnitude rounds to
   * zero, otherwise rescaled so that it points the same way with length
   * `radius`: the normalized vertex times `radius`.
   */
  function ProjectToRadius(v: Vec3, radius: real, math: MathLib): (p: Vec3)
    ensures RoundsToZero5(Magnitude(v, math)) ==> p == v
    ensures !RoundsToZero5(Magnitude(v, math)) ==> p == Scale(Normalize(v, math), radius)
  {
    var mag := Magnitude(v, math);
    if RoundsToZero5(mag) then v
    else Vec3((v.x / mag) * radius, (v.y / mag) * radius, (v.z / mag) * radius)
  }

  /**
   * The zero guard of `applyRadius`: a vertex whose magnitude rounds to zero
   * is kept; any other one, multiplied back by its magnitude, is the
   * original vertex scaled by `radius`.
   */
  lemma ProjectToRadiusScales(v: Vec3, radius: real, math: MathLib)
    ensures RoundsToZero5(Magnitude(v, math)) ==> ProjectToRadius(v, radius, math) == v
    ensures !RoundsToZero5(Magnitude(v, math)) ==>
              Scale(ProjectToRadius(v, radius, math), Magnitude(v, math)) == Scale(v, radius)
  {
  }

  lemma ScaledSquare(u: Vec3, k: real)
    ensures var r := Scale(u, k); r.x * r.x + r.y * r.y + r.z * r.z == (u.x * u.x + u.y * u.y + u.z * u.z) * (k * k)
  {
  }

  /** Where Math.sqrt is exact, a projected vertex lies on the sphere of radius `radius`. */
  lemma ProjectedOnSphere(v: Vec3, radius: real, math: MathLib)
    requires SqrtExactAt(v, math)
    requires !RoundsToZero5(Magnitude(v, math))
    ensures OnSphere(ProjectToRadius(v, radius, math), radius)
  {
    NormalizeHasUnitLength(v, math);
    var u := Normalize(v, math);
    assert ProjectToRadius(v, radius, math) == Scale(u, radius);
    ScaledSquare(u, radius);
    assert u.x * u.x + u.y * u.y + u.z * u.z == 1.0;
  }

  /** The first `n` vertices of `verts` after `applyRadius(radius)`. */
  function ProjectedUpTo(verts: seq<real>, n: nat, radius: real, math: MathLib): (r: seq<real>)
    requires 3 * n <= |verts|
    ensures |r| == 3 * n
  {
    if n == 0 then []
    else ProjectedUpTo(verts, n - 1, radius, math) + Coords(ProjectToRadius(VertexAt(verts, n - 1), radius, math))
  }

  /** The buffer after `applyRadius(radius)`. */
  function Projected(verts: seq<real>, radius: real, math: MathLib): (r: seq<real>)
    requires |verts| % 3 == 0
    ensures |r| == |verts|
  {
    ProjectedUpTo(verts, VertexCount(verts), radius, math)
  }

  /** `applyRadius` keeps the number and the order of the vertices and projects each one. */
  lemma {:induction false} ProjectedVertex(verts: seq<real>, n: nat, j: nat, radius: real, math: MathLib)
    requires 3 * n <= |verts| && j < n
    ensures |ProjectedUpTo(verts, n, radius, math)| == 3 * n
    ensures VertexAt(ProjectedUpTo(verts, n, radius, math), j) == ProjectToRadius(VertexAt(verts, j), radius, math)
  {
    var r := ProjectedUpTo(verts, n, radius, math);
    var prev := ProjectedUpTo(verts, n - 1, radius, math);
    if j < n - 1 {
      ProjectedVertex(verts, n - 1, j, radius, math);
      assert r[3 * j] == prev[3 * j] && r[3 * j + 1] == prev[3 * j + 1] && r[3 * j + 2] == prev[3 * j + 2];
    } else {
      assert r[3 * j .. 3 * j + 3] == r[|prev|..];
    }
  }

  lemma NextVertex(n: int, len: int)
    requires 3 * n < len && len % 3 == 0
    ensures 3 * n + 3 <= len
  {
  }

  lemma WholeVertices(n: int, len: int)
    requires 3 * n == len
    ensures len / 3 == n
  {
  }

  /**
   * A buffer whose vertices are, one by one, the projections of those of
   * `v0` is the projected buffer.
   */
  lemma {:induction false} ProjectedPrefix(v0: seq<real>, r: seq<real>, n: nat, radius: real, math: MathLib)
    requires 3 * n <= |v0| && 3 * n <= |r|
    requires forall j | 0 <= j < n :: VertexAt(r, j) == ProjectToRadius(VertexAt(v0, j), radius, math)
    ensures r[..3 * n] == ProjectedUpTo(v0, n, radius, math)
  {
    if n > 0 {
      ProjectedPrefix(v0, r, n - 1, radius, math);
      assert r[..3 * n] == r[..3 * n - 3] + Coords(VertexAt(r, n - 1));
    }
  }

  /**
   * The body of the `applyRadius` loop for the vertex at entries `i .. i + 2`:
   * compute the magnitude once, then overwrite each coordinate unless the
   * magnitude rounds to zero.
   */
  method ProjectInPlace(verts: seq<real>, i: nat, radius: real, math: MathLib) returns (verts': seq<real>)
    requires i + 3 <= |verts|
    ensures |verts'| == |verts|
    ensures verts'[i .. i + 3] == Coords(ProjectToRadius(Vec3(verts[i], verts[i + 1], verts[i + 2]), radius, math))
    ensures forall k | 0 <= k < |verts| && (k < i || i + 3 <= k) :: verts'[k] == verts[k]
  {
    var v0, v1, v2 := verts[i + 0], verts[i + 1], verts[i + 2];
    var mag := Magnitude(Vec3(v0, v1, v2), math);
    var zero := RoundsToZero5(mag);
    verts' := verts[i + 0 := if zero then v0 else (v0 / mag) * radius];
    verts' := verts'[i + 1 := if zero then v1 else (v1 / mag) * radius];
    verts' := verts'[i + 2 := if zero then v2 else (v2 / mag) * radius];
    var p := ProjectToRadius(Vec3(v0, v1, v2), radius, math);
    assert verts'[i] == p.x && verts'[i + 1] == p.y && verts'[i + 2] == p.z;
    assert verts'[i .. i + 3] == [p.x, p.y, p.z];
  }

  /** The three entries one element of `indices` adds to `normals`. */
  function NormalTriple(verts: seq<real>, i: int, math: MathLib): (r: seq<Num>)
    requires |verts| % 3 == 0
    ensures |r| == 3
  {
    match VertexByIndex(verts, i)
    case None => [NaN, NaN, NaN]
    case Some(v) =>
      var n := Normalize(v, math);
      [Finite(n.x), Finite(n.y), Finite(n.z)]
  }

  /** `normals` after `calculateNormals` has run for the first `n` elements of `indices`. */
  function NormalsOf(verts: seq<real>, n: nat, math: MathLib): (r: seq<Num>)
    requires |verts| % 3 == 0
    ensures |r| == 3 * n
  {
    if n == 0 then [] else NormalsOf(verts, n - 1, math) + NormalTriple(verts, n - 1, math)
  }

  /**
   * Normal `i` comes from vertex `i` (not from vertex `indices[i]`): the
   * normalized vertex while `i` is a vertex number, NaN beyond.
   */
  lemma {:induction false} NormalsOfEntry(verts: seq<real>, n: nat, i: nat, math: MathLib)
    requires |verts| % 3 == 0 && i < n
    ensures NormalsOf(verts, n, math)[3 * i .. 3 * i + 3] == NormalTriple(verts, i, math)
    ensures i < VertexCount(verts) ==>
              var v := Normalize(VertexAt(verts, i), math);
              NormalsOf(verts, n, math)[3 * i .. 3 * i + 3] == [Finite(v.x), Finite(v.y), Finite(v.z)]
    ensures i >= VertexCount(verts) ==> NormalsOf(verts, n, math)[3 * i .. 3 * i + 3] == [NaN, NaN, NaN]
  {
    var r := NormalsOf(verts, n, math);
    if i < n - 1 {
      NormalsOfEntry(verts, n - 1, i, math);
      assert r[3 * i .. 3 * i + 3] == NormalsOf(verts, n - 1, math)[3 * i .. 3 * i + 3];
    } else {
      assert r[3 * i .. 3 * i + 3] == r[|NormalsOf(verts, n - 1, math)|..];
    }
  }

  /** The vertex and index buffers `generateGeometry` leaves behind. */
  function Generated(radius: real, detail: int, math: MathLib): (r: (seq<real>, seq<int>))
    ensures MeshOk(r.0, r.1)
  {
    var s := Unprojected(detail, math);
    (Projected(s.0, radius, math), s.1)
  }

  /** After `detail` passes the icosahedron has 20 * 4^detail triangles. */
  lemma GeneratedIndexCount(radius: real, detail: nat, math: MathLib)
    ensures |Generated(radius, detail, math).1| == 60 * Pow4(detail)
  {
    var base := BaseMesh(GoldenRatio(math));
    SubdividedCount(base.0, base.1, detail);
  }

  /** A subdivided icosahedron always has fewer vertices than index entries. */
  lemma GeneratedFewerVertices(radius: real, detail: int, math: MathLib)
    ensures VertexCount(Generated(radius, detail, math).0) < |Generated(radius, detail, math).1|
  {
    var base := BaseMesh(GoldenRatio(math));
    SubdividedVertexBound(base.0, base.1, detail);
  }

  /**
   * So `calculateNormals` always emits NaN normals: the one for the first
   * index past the last vertex, and every later one.
   */
  lemma GeneratedNormalsNaN(radius: real, detail: int, math: MathLib)
    ensures
      var g := Generated(radius, detail, math);
      var n := VertexCount(g.0);
      n < |g.1| && NormalsOf(g.0, |g.1|, math)[3 * n .. 3 * n + 3] == [NaN, NaN, NaN]
  {
    GeneratedFewerVertices(radius, detail, math);
    var g := Generated(radius, detail, math);
    NormalsOfEntry(g.0, |g.1|, VertexCount(g.0), math);
  }

  /** `x * x + y * y + z * z == radius * radius`. */
  predicate OnSphere(v: Vec3, radius: real)
  {
    v.x * v.x + v.y * v.y + v.z * v.z == radius * radius
  }

  /**
   * Every generated vertex that was not left alone by the zero guard lies
   * on the sphere of radius `radius`, where Math.sqrt is exact.
   */
  lemma GeneratedOnSphere(radius: real, detail: int, math: MathLib, j: int)
    requires 0 <= j < VertexCount(Unprojected(detail, math).0)
    requires
      var v := VertexAt(Unprojected(detail, math).0, j);
      SqrtExactAt(v, math) && !RoundsToZero5(Magnitude(v, math))
    ensures j < VertexCount(Generated(radius, detail, math).0)
    ensures OnSphere(VertexAt(Generated(radius, detail, math).0, j), radius)
  {
    var s := Unprojected(detail, math);
    ProjectedVertex(s.0, VertexCount(s.0), j, radius, math);
    ProjectedOnSphere(VertexAt(s.0, j), radius, math);
  }

  class IcosahedronGeometry {
    var radius: real
    var detail: int
    var vertices: seq<real>
    var indices: seq<int>
    var normals: seq<Num>

    /** `constructor(radius, detail)`: store both and generate. */
    constructor(radius: real, detail: int, math: MathLib)
      ensures this.radius == radius && this.detail == detail
      ensures (vertices, indices) == Generated(radius, detail, math)
      ensures normals == NormalsOf(vertices, |indices|, math)
    {
      this.radius := radius;
      this.detail := detail;
      new;
      GenerateGeometry(math);
    }

    /** `generateGeometry`: base mesh, `subdivide(detail)`, `applyRadius(radius)`, `calculateNormals`. */
    method GenerateGeometry(math: MathLib)
      modifies this
      ensures radius == old(radius) && detail == old(detail)
      ensures (vertices, indices) == Generated(radius, detail, math)
      ensures normals == NormalsOf(vertices, |indices|, math)
    {
      var t := (1.0 + math.sqrt(5.0)) / 2.0;
      vertices := BaseVertices(t);
      indices := BaseIndices();
      assert (vertices, indices) == BaseMesh(GoldenRatio(math));
      Subdivide(detail);
      assert (vertices, indices) == Unprojected(detail, math);
      ApplyRadius(radius, math);
      CalculateNormals(math);
    }

    /** `subdivide(detail)`: the shared subdivision loop on this object's buffers. */
    method Subdivide(detail: int)
      requires MeshOk(vertices, indices)
      modifies this
      ensures (vertices, indices) == Subdivided(old(vertices), old(indices), detail)
      ensures radius == old(radius) && this.detail == old(this.detail) && normals == old(normals)
    {
      vertices, indices := Subdivision.Subdivide(vertices, indices, detail);
    }

    /** `applyRadius(radius)`: rewrites each vertex in place, three entries at a time. */
    method ApplyRadius(radius: real, math: MathLib)
      requires |vertices| % 3 == 0
      modifies this
      ensures |vertices| == |old(vertices)|
      ensures vertices == Projected(old(vertices), radius, math)
      ensures indices == old(indices) && normals == old(normals)
      ensures this.radius == old(this.radius) && detail == old(detail)
    {
      var verts := vertices;
      ghost var n := 0;
      var i := 0;
      while i < |verts|
        modifies {}
        invariant |verts| == |vertices| && i == 3 * n && i <= |vertices|
        invariant forall j | 0 <= j < n :: VertexAt(verts, j) == ProjectToRadius(VertexAt(vertices, j), radius, math)
        invariant verts[i..] == vertices[i..]
      {
        NextVertex(n, |vertices|);
        assert vertices[i .. i + 3] == verts[i .. i + 3];
        verts := ProjectInPlace(verts, i, radius, math);
        i := i + 3;
        n := n + 1;
      }
      WholeVertices(n, |vertices|);
      ProjectedPrefix(vertices, verts, n, radius, math);
      vertices := verts;
    }

    /** `calculateNormals`: one normal per element of `indices`, from vertex `i`. */
    method CalculateNormals(math: MathLib)
      requires |vertices| % 3 == 0
      modifies this
      ensures vertices == old(vertices) && indices == old(indices)
      ensures normals == NormalsOf(vertices, |indices|, math)
      ensures radius == old(radius) && detail == old(detail)
    {
      var ns := [];
      var i := 0;
      while i < |indices|
        modifies {}
        invariant 0 <= i <= |indices|
        invariant ns == NormalsOf(vertices, i, math)
      {
        ns := ns + NormalTriple(vertices, i, math);
        i := i + 1;
      }
      normals := ns;
    }
  }
}
