/**
 * app/src/SphereGeometry.js `generateGeometry`: a latitude/longitude grid
 * of (H + 1) x (W + 1) vertices numbered row by row, with two triangles per
 * grid quad except at a pole that the theta range reaches.
 */
module SphereGeometry {
  import opened Utils
  import opened Mesh

  /** `Math.max(least, Math.floor(x))`. */
  function Clamped(x: real, least: int): (n: int)
    ensures n >= least && n >= x.Floor
    ensures n == least || n == x.Floor
  {
    if least > x.Floor then least else x.Floor
  }

  /** `Math.min(thetaStart + thetaLength, Math.PI)`. */
  function ThetaEnd(thetaStart: real, thetaLength: real, pi: real): (e: real)
    ensures e <= pi && e <= thetaStart + thetaLength
    ensures e == pi || e == thetaStart + thetaLength
  {
    if thetaStart + thetaLength < pi then thetaStart + thetaLength else pi
  }

  /** The parameters one run of `generateGeometry` works with, after clamping. */
  datatype Shape = Shape(radius: real, width: int, height: int, phiStart: real, phiLength: real,
                         thetaStart: real, thetaLength: real, thetaEnd: real, pi: real)

  /** The shape that the object's fields describe. */
  function ShapeOf(radius: real, widthSegments: real, heightSegments: real, phiStart: real, phiLength: real,
                   thetaStart: real, thetaLength: real, pi: real): (g: Shape)
    ensures g.width >= 3 && g.height >= 2
  {
    Shape(radius, Clamped(widthSegments, 3), Clamped(heightSegments, 2), phiStart, phiLength,
          thetaStart, thetaLength, ThetaEnd(thetaStart, thetaLength, pi), pi)
  }

  /** Clamping is idempotent: a second run works on the same grid. */
  lemma ClampedAgain(x: real, least: int)
    ensures Clamped(Clamped(x, least) as real, least) == Clamped(x, least)
  {
  }

  /** `u = ix / widthSegments`. */
  function U(g: Shape, ix: int): real
    requires g.width > 0
  {
    ix as real / g.width as real
  }

  /** `v = iy / heightSegments`. */
  function V(g: Shape, iy: int): real
    requires g.height > 0
  {
    iy as real / g.height as real
  }

  /**
   * The u shift that centres the texture on a pole vertex: half a column
   * to the right on the first row at a reached north pole, half a column to
   * the left on the last row at a reached south pole, none elsewhere.
   */
  function UOffset(g: Shape, iy: int): (o: real)
    requires g.width > 0
    ensures iy == 0 && g.thetaStart == 0.0 ==> o == 0.5 / g.width as real
    ensures iy == g.height && g.thetaEnd == g.pi && !(iy == 0 && g.thetaStart == 0.0) ==> o == -0.5 / g.width as real
    ensures 0 < iy < g.height ==> o == 0.0
    ensures o > 0.0 ==> iy == 0 && g.thetaStart == 0.0
    ensures o < 0.0 ==> iy == g.height && g.thetaEnd == g.pi
    ensures -0.5 / g.width as real <= o <= 0.5 / g.width as real
  {
    if iy == 0 && g.thetaStart == 0.0 then 0.5 / g.width as real
    else if iy == g.height && g.thetaEnd == g.pi then -0.5 / g.width as real
    else 0.0
  }

  /** `sin` and `cos` of `a` satisfy the Pythagorean identity. */
  predicate TrigExactAt(math: MathLib, a: real)
  {
    math.sin(a) * math.sin(a) + math.cos(a) * math.cos(a) == 1.0
  }

  /** Spherical coordinates give a point at distance `r` from the centre. */
  lemma SphericalOnSphere(r: real, cp: real, sp: real, ct: real, st: real)
    requires cp * cp + sp * sp == 1.0 && st * st + ct * ct == 1.0
    ensures (-r * cp * st) * (-r * cp * st) + (r * ct) * (r * ct) + (r * sp * st) * (r * sp * st) == r * r
  {
    calc {
      (-r * cp * st) * (-r * cp * st) + (r * ct) * (r * ct) + (r * sp * st) * (r * sp * st);
      (r * r) * ((st * st) * (cp * cp + sp * sp) + ct * ct);
      (r * r) * (st * st + ct * ct);
    }
  }

  /**
   * The position of grid vertex (iy, ix), at longitude `phiStart + u *
   * phiLength` and colatitude `thetaStart + v * thetaLength`; where `sin`
   * and `cos` are exact it lies on the sphere of `radius`.
   */
  function SphereVertex(g: Shape, iy: int, ix: int, math: MathLib): (p: Vec3)
    requires g.width > 0 && g.height > 0
    ensures TrigExactAt(math, g.phiStart + U(g, ix) * g.phiLength) &&
            TrigExactAt(math, g.thetaStart + V(g, iy) * g.thetaLength) ==>
            p.x * p.x + p.y * p.y + p.z * p.z == g.radius * g.radius
  {
    var phi := g.phiStart + U(g, ix) * g.phiLength;
    var theta := g.thetaStart + V(g, iy) * g.thetaLength;
    var p := Vec3(-g.radius * math.cos(phi) * math.sin(theta),
                  g.radius * math.cos(theta),
                  g.radius * math.sin(phi) * math.sin(theta));
    assert TrigExactAt(math, phi) && TrigExactAt(math, theta) ==>
           p.x * p.x + p.y * p.y + p.z * p.z == g.radius * g.radius by {
      if TrigExactAt(math, phi) && TrigExactAt(math, theta) {
        SphericalOnSphere(g.radius, math.cos(phi), math.sin(phi), math.cos(theta), math.sin(theta));
      }
    }
    p
  }

  /** Number of the first vertex of row `iy`: W + 1 vertices per row before it. */
  function RowStart(g: Shape, iy: nat): nat
    requires g.width >= 0
  {
    if iy == 0 then 0 else RowStart(g, iy - 1) + g.width + 1
  }

  /** Row `iy` starts at vertex `iy * (W + 1)`. */
  lemma {:induction false} RowStartIsProduct(g: Shape, iy: nat)
    requires g.width >= 0
    ensures RowStart(g, iy) == iy * (g.width + 1)
  {
    if iy > 0 {
      RowStartIsProduct(g, iy - 1);
    }
  }

  /** Later rows start later. */
  lemma {:induction false} RowStartGrows(g: Shape, i: nat, j: nat)
    requires g.width >= 0 && i <= j
    ensures RowStart(g, i) <= RowStart(g, j)
    decreases j
  {
    if i < j {
      RowStartGrows(g, i, j - 1);
    }
  }

  /** The two per-vertex buffers of three coordinates each. */
  datatype Channel = Position | Normal

  /** What grid vertex (iy, ix) pushes onto `vertices` or `normals`. */
  function Point(g: Shape, ch: Channel, iy: int, ix: int, math: MathLib): Vec3
    requires g.width > 0 && g.height > 0
  {
    match ch
    case Position => SphereVertex(g, iy, ix, math)
    case Normal => Normalize(SphereVertex(g, iy, ix, math), math)
  }

  /** The first `cols` points of row `iy`. */
  function RowPoints(g: Shape, ch: Channel, iy: int, cols: nat, math: MathLib): (r: seq<Vec3>)
    requires g.width > 0 && g.height > 0
    ensures |r| == cols
  {
    if cols == 0 then [] else RowPoints(g, ch, iy, cols - 1, math) + [Point(g, ch, iy, cols - 1, math)]
  }

  /** The points of `rows` complete rows, in the order they are pushed. */
  function GridPoints(g: Shape, ch: Channel, rows: nat, math: MathLib): (r: seq<Vec3>)
    requires g.width > 0 && g.height > 0
    ensures |r| == RowStart(g, rows)
  {
    if rows == 0 then [] else GridPoints(g, ch, rows - 1, math) + RowPoints(g, ch, rows - 1, g.width + 1, math)
  }

  lemma {:induction false} RowPointsEntry(g: Shape, ch: Channel, iy: int, cols: nat, ix: nat, math: MathLib)
    requires g.width > 0 && g.height > 0 && ix < cols
    ensures RowPoints(g, ch, iy, cols, math)[ix] == Point(g, ch, iy, ix, math)
  {
    if ix < cols - 1 {
      RowPointsEntry(g, ch, iy, cols - 1, ix, math);
    }
  }

  /** Point number `RowStart(iy) + ix` is grid vertex (iy, ix): the numbering is row-major. */
  lemma {:induction false} GridPointsEntry(g: Shape, ch: Channel, rows: nat, iy: nat, ix: nat, math: MathLib)
    requires g.width > 0 && g.height > 0 && iy < rows && ix <= g.width
    ensures RowStart(g, iy) + ix < RowStart(g, rows)
    ensures GridPoints(g, ch, rows, math)[RowStart(g, iy) + ix] == Point(g, ch, iy, ix, math)
  {
    if iy < rows - 1 {
      RowStartGrows(g, iy + 1, rows - 1);
      GridPointsEntry(g, ch, rows - 1, iy, ix, math);
    } else {
      RowPointsEntry(g, ch, iy, g.width + 1, ix, math);
    }
  }

  /** Texture coordinates `(u + uOffset, 1 - v)` of one vertex. */
  datatype TexCoord = TexCoord(u: real, v: real)

  function TexCoordAt(g: Shape, iy: int, ix: int): TexCoord
    requires g.width > 0 && g.height > 0
  {
    TexCoord(U(g, ix) + UOffset(g, iy), 1.0 - V(g, iy))
  }

  /** The first `cols` texture coordinates of row `iy`. */
  function RowTexCoords(g: Shape, iy: int, cols: nat): (r: seq<TexCoord>)
    requires g.width > 0 && g.height > 0
    ensures |r| == cols
  {
    if cols == 0 then [] else RowTexCoords(g, iy, cols - 1) + [TexCoordAt(g, iy, cols - 1)]
  }

  /** The texture coordinates of `rows` complete rows. */
  function GridTexCoords(g: Shape, rows: nat): (r: seq<TexCoord>)
    requires g.width > 0 && g.height > 0
    ensures |r| == RowStart(g, rows)
  {
    if rows == 0 then [] else GridTexCoords(g, rows - 1) + RowTexCoords(g, rows - 1, g.width + 1)
  }

  lemma {:induction false} RowTexCoordsEntry(g: Shape, iy: int, cols: nat, ix: nat)
    requires g.width > 0 && g.height > 0 && ix < cols
    ensures RowTexCoords(g, iy, cols)[ix] == TexCoordAt(g, iy, ix)
  {
    if ix < cols - 1 {
      RowTexCoordsEntry(g, iy, cols - 1, ix);
    }
  }

  lemma {:induction false} GridTexCoordsEntry(g: Shape, rows: nat, iy: nat, ix: nat)
    requires g.width > 0 && g.height > 0 && iy < rows && ix <= g.width
    ensures RowStart(g, iy) + ix < RowStart(g, rows)
    ensures GridTexCoords(g, rows)[RowStart(g, iy) + ix] == TexCoordAt(g, iy, ix)
  {
    if iy < rows - 1 {
      RowStartGrows(g, iy + 1, rows - 1);
      GridTexCoordsEntry(g, rows - 1, iy, ix);
    } else {
      RowTexCoordsEntry(g, iy, g.width + 1, ix);
    }
  }

  /** The `uv` buffer: u then v for each vertex. */
  function FlattenTex(ts: seq<TexCoord>): (r: seq<real>)
    ensures |r| == 2 * |ts|
  {
    if |ts| == 0 then [] else FlattenTex(ts[..|ts| - 1]) + [ts[|ts| - 1].u, ts[|ts| - 1].v]
  }

  lemma FlattenTexPush(ts: seq<TexCoord>, t: TexCoord)
    ensures FlattenTex(ts + [t]) == FlattenTex(ts) + [t.u, t.v]
  {
    assert (ts + [t])[..|ts|] == ts;
  }

  /** Entries `2 i` and `2 i + 1` of the `uv` buffer are texture coordinate `i`. */
  lemma {:induction false} FlattenTexEntry(ts: seq<TexCoord>, i: nat)
    requires i < |ts|
    ensures |FlattenTex(ts)| == 2 * |ts| && FlattenTex(ts)[2 * i] == ts[i].u && FlattenTex(ts)[2 * i + 1] == ts[i].v
  {
    var init := ts[..|ts| - 1];
    if i < |ts| - 1 {
      FlattenTexEntry(init, i);
      assert init[i] == ts[i];
    }
  }

  /** The vertex buffer holds exactly the (H + 1)(W + 1) grid vertices in row-major order. */
  lemma SphereVertexAt(g: Shape, iy: nat, ix: nat, math: MathLib)
    requires g.width > 0 && g.height > 0 && iy <= g.height && ix <= g.width
    ensures var vs := GridBuffers(g, g.height + 1, math).vertices;
      VertexCount(vs) == (g.height + 1) * (g.width + 1) &&
      VertexAt(vs, iy * (g.width + 1) + ix) == SphereVertex(g, iy, ix, math)
  {
    var pts := GridPoints(g, Position, g.height + 1, math);
    GridBuffersVertices(g, g.height + 1, math);
    GridPointsEntry(g, Position, g.height + 1, iy, ix, math);
    RowStartIsProduct(g, iy);
    RowStartIsProduct(g, g.height + 1);
    FlattenVertex(pts, iy * (g.width + 1) + ix);
  }

  /** The normal buffer holds the normalized grid vertices in the same order. */
  lemma SphereNormalAt(g: Shape, iy: nat, ix: nat, math: MathLib)
    requires g.width > 0 && g.height > 0 && iy <= g.height && ix <= g.width
    ensures var ns := GridBuffers(g, g.height + 1, math).normals;
      VertexCount(ns) == (g.height + 1) * (g.width + 1) &&
      VertexAt(ns, iy * (g.width + 1) + ix) == Normalize(SphereVertex(g, iy, ix, math), math)
  {
    var pts := GridPoints(g, Normal, g.height + 1, math);
    GridBuffersNormals(g, g.height + 1, math);
    GridPointsEntry(g, Normal, g.height + 1, iy, ix, math);
    RowStartIsProduct(g, iy);
    RowStartIsProduct(g, g.height + 1);
    FlattenVertex(pts, iy * (g.width + 1) + ix);
  }

  /** Texture coordinates of grid vertex (iy, ix): `(u + uOffset, 1 - v)`, two entries per vertex. */
  lemma SphereUvAt(g: Shape, iy: nat, ix: nat, math: MathLib)
    requires g.width > 0 && g.height > 0 && iy <= g.height && ix <= g.width
    ensures var uv, n := GridBuffers(g, g.height + 1, math).uvs, iy * (g.width + 1) + ix;
      |uv| == 2 * ((g.height + 1) * (g.width + 1)) &&
      uv[2 * n] == U(g, ix) + UOffset(g, iy) && uv[2 * n + 1] == 1.0 - V(g, iy)
  {
    var ts := GridTexCoords(g, g.height + 1);
    GridBuffersTexCoords(g, g.height + 1, math);
    GridTexCoordsEntry(g, g.height + 1, iy, ix);
    RowStartIsProduct(g, iy);
    RowStartIsProduct(g, g.height + 1);
    FlattenTexEntry(ts, iy * (g.width + 1) + ix);
  }

  /** Whether quad row `iy` keeps its (a, b, d) triangle: not at a reached north pole. */
  predicate KeepsUpper(g: Shape, iy: int): (b: bool)
    ensures iy != 0 ==> b
    ensures g.thetaStart > 0.0 ==> b
  {
    iy != 0 || g.thetaStart > 0.0
  }

  /** Whether quad row `iy` keeps its (b, c, d) triangle: not at a reached south pole. */
  predicate KeepsLower(g: Shape, iy: int): (b: bool)
    ensures iy != g.height - 1 ==> b
    ensures g.thetaEnd < g.pi ==> b
  {
    iy != g.height - 1 || g.thetaEnd < g.pi
  }

  /** Grid number of vertex (iy, ix). */
  function GridIndex(g: Shape, iy: nat, ix: int): int
    requires g.width >= 0
  {
    RowStart(g, iy) + ix
  }

  /** Triangles per quad of row `iy`: 0, 1 or 2. */
  function Kept(g: Shape, iy: int): nat
  {
    (if KeepsUpper(g, iy) then 1 else 0) + (if KeepsLower(g, iy) then 1 else 0)
  }

  /** The triangles quad (iy, ix) pushes onto `indices`. */
  function QuadTriangles(g: Shape, iy: nat, ix: int): (r: seq<int>)
    requires g.width >= 0
    ensures |r| == 3 * Kept(g, iy)
  {
    var a, b := GridIndex(g, iy, ix + 1), GridIndex(g, iy, ix);
    var c, d := GridIndex(g, iy + 1, ix), GridIndex(g, iy + 1, ix + 1);
    (if KeepsUpper(g, iy) then [a, b, d] else []) + (if KeepsLower(g, iy) then [b, c, d] else [])
  }

  /** `indices` after the first `cols` quads of row `iy`. */
  function QuadRow(g: Shape, iy: nat, cols: nat): (r: seq<int>)
    requires g.width >= 0
  {
    if cols == 0 then [] else QuadRow(g, iy, cols - 1) + QuadTriangles(g, iy, cols - 1)
  }

  /** `indices` after `rows` complete quad rows. */
  function QuadRows(g: Shape, rows: nat): (r: seq<int>)
    requires g.width >= 0
  {
    if rows == 0 then [] else QuadRows(g, rows - 1) + QuadRow(g, rows - 1, g.width)
  }

  lemma {:induction false} QuadRowLength(g: Shape, iy: nat, cols: nat)
    requires g.width >= 0
    ensures |QuadRow(g, iy, cols)| == 3 * Kept(g, iy) * cols
  {
    if cols > 0 {
      QuadRowLength(g, iy, cols - 1);
    }
  }

  /** Triangles in `rows` complete quad rows. */
  function TrianglesUpTo(g: Shape, rows: nat): int
    requires g.width >= 0
  {
    if rows == 0 then 0 else TrianglesUpTo(g, rows - 1) + Kept(g, rows - 1) * g.width
  }

  lemma {:induction false} QuadRowsLength(g: Shape, rows: nat)
    requires g.width >= 0
    ensures |QuadRows(g, rows)| == 3 * TrianglesUpTo(g, rows)
  {
    if rows > 0 {
      QuadRowsLength(g, rows - 1);
      QuadRowLength(g, rows - 1, g.width);
    }
  }

  /** Every row keeps two triangles per quad except the two pole rows. */
  lemma {:induction false} TrianglesUpToCount(g: Shape, rows: nat)
    requires g.width >= 0 && g.height >= 2 && rows <= g.height
    ensures TrianglesUpTo(g, rows) ==
      2 * g.width * rows
      - (if rows >= 1 && !KeepsUpper(g, 0) then g.width else 0)
      - (if rows >= g.height && !KeepsLower(g, g.height - 1) then g.width else 0)
  {
    if rows > 0 {
      TrianglesUpToCount(g, rows - 1);
    }
  }

  /**
   * `indices` holds 2 * W * H triangles, less one row of W for each pole
   * the theta range reaches.
   */
  lemma SphereIndexCount(g: Shape)
    requires g.width >= 0 && g.height >= 2
    ensures |QuadRows(g, g.height)| ==
      3 * (2 * g.width * g.height
           - (if g.thetaStart <= 0.0 then g.width else 0)
           - (if g.thetaEnd >= g.pi then g.width else 0))
  {
    QuadRowsLength(g, g.height);
    TrianglesUpToCount(g, g.height);
  }

  lemma {:induction false} QuadRowBelow(g: Shape, iy: nat, cols: nat)
    requires g.width >= 0 && iy < g.height && cols <= g.width
    ensures IndicesBelow(QuadRow(g, iy, cols), RowStart(g, g.height + 1))
  {
    if cols > 0 {
      QuadRowBelow(g, iy, cols - 1);
      RowStartGrows(g, iy + 2, g.height + 1);
    }
  }

  /** Every index names one of the (H + 1)(W + 1) vertices, and none is negative. */
  lemma {:induction false} QuadRowsBelow(g: Shape, rows: nat)
    requires g.width >= 0 && rows <= g.height
    ensures IndicesBelow(QuadRows(g, rows), RowStart(g, g.height + 1))
  {
    if rows > 0 {
      QuadRowsBelow(g, rows - 1);
      QuadRowBelow(g, rows - 1, g.width);
    }
  }

  /** Every index of the sphere is a vertex number below (H + 1)(W + 1). */
  lemma SphereIndicesBelow(g: Shape)
    requires g.width >= 0 && g.height >= 0
    ensures IndicesBelow(QuadRows(g, g.height), (g.height + 1) * (g.width + 1))
  {
    QuadRowsBelow(g, g.height);
    RowStartIsProduct(g, g.height + 1);
  }

  /** `grid[iy][ix] == iy * (W + 1) + ix` for the `rows` rows built so far. */
  ghost predicate GridNumbered(g: Shape, grid: seq<seq<int>>, rows: int)
  {
    |grid| == rows &&
    (forall iy | 0 <= iy < |grid| :: |grid[iy]| == g.width + 1) &&
    (forall iy, ix | 0 <= iy < |grid| && 0 <= ix < |grid[iy]| :: grid[iy][ix] == GridIndex(g, iy, ix))
  }

  /** Appending row `iy`, numbered from `RowStart(g, iy)`, keeps the grid numbered. */
  lemma GridGrows(g: Shape, grid: seq<seq<int>>, row: seq<int>, iy: nat)
    requires g.width >= 0
    requires GridNumbered(g, grid, iy)
    requires |row| == g.width + 1 && forall k | 0 <= k <= g.width :: row[k] == RowStart(g, iy) + k
    ensures GridNumbered(g, grid + [row], iy + 1)
  {
  }

  /** `uv` entries distribute over concatenation. */
  lemma {:induction false} FlattenTexAppend(a: seq<TexCoord>, b: seq<TexCoord>)
    ensures FlattenTex(a + b) == FlattenTex(a) + FlattenTex(b)
    decreases |b|
  {
    if |b| == 0 {
      assert a + b == a;
    } else {
      var init, last := b[..|b| - 1], b[|b| - 1];
      assert b == init + [last];
      FlattenTexAppend(a, init);
      assert a + b == (a + init) + [last];
      FlattenTexPush(a + init, last);
      assert FlattenTex(b) == FlattenTex(init) + [last.u, last.v];
      assert FlattenTex(a + b) == (FlattenTex(a) + FlattenTex(init)) + [last.u, last.v];
    }
  }

  /** The three buffers the first loop nest pushes onto. */
  datatype Buffers = Buffers(vertices: seq<real>, normals: seq<real>, uvs: seq<real>)

  /** One pass of the inner loop body: grid vertex (iy, ix), its normal and its uv pushed. */
  function PushVertex(b: Buffers, g: Shape, iy: int, ix: int, math: MathLib): (r: Buffers)
    requires g.width > 0 && g.height > 0
    ensures |r.vertices| == |b.vertices| + 3 && |r.normals| == |b.normals| + 3 && |r.uvs| == |b.uvs| + 2
  {
    var vertex := SphereVertex(g, iy, ix, math);
    var normal := Normalize(vertex, math);
    var uv := TexCoordAt(g, iy, ix);
    Buffers(b.vertices + Coords(vertex), b.normals + Coords(normal), b.uvs + [uv.u, uv.v])
  }

  /** The buffers after the inner loop has run `cols` times on row `iy`. */
  function RowBuffers(b: Buffers, g: Shape, iy: int, cols: nat, math: MathLib): Buffers
    requires g.width > 0 && g.height > 0
  {
    if cols == 0 then b else PushVertex(RowBuffers(b, g, iy, cols - 1, math), g, iy, cols - 1, math)
  }

  /** The buffers after `rows` complete rows, starting from empty ones. */
  function GridBuffers(g: Shape, rows: nat, math: MathLib): Buffers
    requires g.width > 0 && g.height > 0
  {
    if rows == 0 then Buffers([], [], []) else RowBuffers(GridBuffers(g, rows - 1, math), g, rows - 1, g.width + 1, math)
  }

  /** A row of pushes appends the row's points in order. */
  lemma {:induction false} RowBuffersVertices(b: Buffers, g: Shape, iy: int, cols: nat, math: MathLib)
    requires g.width > 0 && g.height > 0
    ensures RowBuffers(b, g, iy, cols, math).vertices == b.vertices + Flatten(RowPoints(g, Position, iy, cols, math))
  {
    if cols == 0 {
      assert b.vertices + [] == b.vertices;
    } else {
      var prev, p := RowBuffers(b, g, iy, cols - 1, math), Point(g, Position, iy, cols - 1, math);
      RowBuffersVertices(b, g, iy, cols - 1, math);
      FlattenPush(RowPoints(g, Position, iy, cols - 1, math), p);
      assert RowBuffers(b, g, iy, cols, math).vertices == prev.vertices + Coords(p);
    }
  }

  /** A row of pushes appends the row's normals in order. */
  lemma {:induction false} RowBuffersNormals(b: Buffers, g: Shape, iy: int, cols: nat, math: MathLib)
    requires g.width > 0 && g.height > 0
    ensures RowBuffers(b, g, iy, cols, math).normals == b.normals + Flatten(RowPoints(g, Normal, iy, cols, math))
  {
    if cols == 0 {
      assert b.normals + [] == b.normals;
    } else {
      var prev, p := RowBuffers(b, g, iy, cols - 1, math), Point(g, Normal, iy, cols - 1, math);
      RowBuffersNormals(b, g, iy, cols - 1, math);
      FlattenPush(RowPoints(g, Normal, iy, cols - 1, math), p);
      assert RowBuffers(b, g, iy, cols, math).normals == prev.normals + Coords(p);
    }
  }

  /** A row of pushes appends the row's texture coordinates in order. */
  lemma {:induction false} RowBuffersTexCoords(b: Buffers, g: Shape, iy: int, cols: nat, math: MathLib)
    requires g.width > 0 && g.height > 0
    ensures RowBuffers(b, g, iy, cols, math).uvs == b.uvs + FlattenTex(RowTexCoords(g, iy, cols))
  {
    if cols == 0 {
      assert b.uvs + [] == b.uvs;
    } else {
      RowBuffersTexCoords(b, g, iy, cols - 1, math);
      FlattenTexPush(RowTexCoords(g, iy, cols - 1), TexCoordAt(g, iy, cols - 1));
    }
  }

  /** The position buffer of the first loop nest is the flattened grid points, row by row. */
  lemma {:induction false} GridBuffersVertices(g: Shape, rows: nat, math: MathLib)
    requires g.width > 0 && g.height > 0
    ensures GridBuffers(g, rows, math).vertices == Flatten(GridPoints(g, Position, rows, math))
  {
    if rows > 0 {
      var prev := GridBuffers(g, rows - 1, math);
      GridBuffersVertices(g, rows - 1, math);
      RowBuffersVertices(prev, g, rows - 1, g.width + 1, math);
      FlattenAppend(GridPoints(g, Position, rows - 1, math), RowPoints(g, Position, rows - 1, g.width + 1, math));
    }
  }

  /** The normal buffer of the first loop nest is the flattened grid normals, row by row. */
  lemma {:induction false} GridBuffersNormals(g: Shape, rows: nat, math: MathLib)
    requires g.width > 0 && g.height > 0
    ensures GridBuffers(g, rows, math).normals == Flatten(GridPoints(g, Normal, rows, math))
  {
    if rows > 0 {
      var prev := GridBuffers(g, rows - 1, math);
      GridBuffersNormals(g, rows - 1, math);
      RowBuffersNormals(prev, g, rows - 1, g.width + 1, math);
      FlattenAppend(GridPoints(g, Normal, rows - 1, math), RowPoints(g, Normal, rows - 1, g.width + 1, math));
    }
  }

  /** The `uv` buffer of the first loop nest is the flattened texture coordinates, row by row. */
  lemma {:induction false} GridBuffersTexCoords(g: Shape, rows: nat, math: MathLib)
    requires g.width > 0 && g.height > 0
    ensures GridBuffers(g, rows, math).uvs == FlattenTex(GridTexCoords(g, rows))
  {
    if rows > 0 {
      var prev := GridBuffers(g, rows - 1, math);
      GridBuffersTexCoords(g, rows - 1, math);
      RowBuffersTexCoords(prev, g, rows - 1, g.width + 1, math);
      FlattenTexAppend(GridTexCoords(g, rows - 1), RowTexCoords(g, rows - 1, g.width + 1));
    }
  }

  /**
   * The inner loop of the first nest: pushes row `iy` onto the three
   * buffers and returns the row's vertex numbers.
   */
  method VertexRow(g: Shape, iy: nat, math: MathLib, vertices: seq<real>, normals: seq<real>, uvs: seq<real>, index: int)
    returns (vertices': seq<real>, normals': seq<real>, uvs': seq<real>, index': int, verticesRow: seq<int>)
    requires g.width > 0 && g.height > 0
    ensures Buffers(vertices', normals', uvs') == RowBuffers(Buffers(vertices, normals, uvs), g, iy, g.width + 1, math)
    ensures index' == index + g.width + 1
    ensures |verticesRow| == g.width + 1
    ensures forall k | 0 <= k <= g.width :: verticesRow[k] == index + k
  {
    vertices', normals', uvs', index' := vertices, normals, uvs, index;
    verticesRow := [];
    var ix := 0;
    while ix <= g.width
      invariant 0 <= ix <= g.width + 1
      invariant Buffers(vertices', normals', uvs') == RowBuffers(Buffers(vertices, normals, uvs), g, iy, ix, math)
      invariant index' == index + ix
      invariant |verticesRow| == ix
      invariant forall k | 0 <= k < ix :: verticesRow[k] == index + k
    {
      var vertex := SphereVertex(g, iy, ix, math);
      vertices' := vertices' + Coords(vertex);
      var normal := Normalize(vertex, math);
      normals' := normals' + Coords(normal);
      var uv := TexCoordAt(g, iy, ix);
      uvs' := uvs' + [uv.u, uv.v];
      verticesRow := verticesRow + [index'];
      index' := index' + 1;
      ix := ix + 1;
    }
  }

  /**
   * The first loop nest: one vertex, normal and uv per grid vertex, and the
   * grid of running vertex numbers.
   */
  method VertexPass(g: Shape, math: MathLib) returns (vertices: seq<real>, normals: seq<real>, uvs: seq<real>, grid: seq<seq<int>>)
    requires g.width > 0 && g.height > 0
    ensures Buffers(vertices, normals, uvs) == GridBuffers(g, g.height + 1, math)
    ensures GridNumbered(g, grid, g.height + 1)
  {
    var index := 0;
    grid, vertices, normals, uvs := [], [], [], [];
    var iy := 0;
    while iy <= g.height
      invariant 0 <= iy <= g.height + 1
      invariant index == RowStart(g, iy)
      invariant Buffers(vertices, normals, uvs) == GridBuffers(g, iy, math)
      invariant GridNumbered(g, grid, iy)
    {
      var verticesRow;
      vertices, normals, uvs, index, verticesRow := VertexRow(g, iy, math, vertices, normals, uvs, index);
      GridGrows(g, grid, verticesRow, iy);
      grid := grid + [verticesRow];
      iy := iy + 1;
    }
  }

  /** The second loop nest: reads the four corners of each quad from the grid. */
  method IndexPass(g: Shape, grid: seq<seq<int>>) returns (indices: seq<int>)
    requires g.width >= 0 && g.height >= 0
    requires GridNumbered(g, grid, g.height + 1)
    ensures indices == QuadRows(g, g.height)
  {
    indices := [];
    var iy := 0;
    while iy < g.height
      invariant 0 <= iy <= g.height
      invariant indices == QuadRows(g, iy)
    {
      var ix := 0;
      while ix < g.width
        invariant 0 <= ix <= g.width
        invariant indices == QuadRows(g, iy) + QuadRow(g, iy, ix)
      {
        var a := grid[iy][ix + 1];
        var b := grid[iy][ix];
        var c := grid[iy + 1][ix];
        var d := grid[iy + 1][ix + 1];
        if iy != 0 || g.thetaStart > 0.0 {
          indices := indices + [a, b, d];
        }
        if iy != g.height - 1 || g.thetaEnd < g.pi {
          indices := indices + [b, c, d];
        }
        ix := ix + 1;
      }
      iy := iy + 1;
    }
  }

  class SphereGeometry {
    var radius: real
    var widthSegments: real
    var heightSegments: real
    var phiStart: real
    var phiLength: real
    var thetaStart: real
    var thetaLength: real
    var indices: seq<int>
    var vertices: seq<real>
    var normals: seq<real>
    var uv: seq<real>

    /** The shape the current fields describe. */
    function CurrentShape(math: MathLib): (g: Shape)
      reads this
      ensures g.width >= 3 && g.height >= 2
    {
      ShapeOf(radius, widthSegments, heightSegments, phiStart, phiLength, thetaStart, thetaLength, math.pi)
    }

    /**
     * The start of `generateGeometry`: floor the segment counts, raise them
     * to at least 3 and 2, store them back, and fix the theta end.
     */
    method ClampSegments(math: MathLib) returns (g: Shape)
      modifies this
      ensures widthSegments == Clamped(old(widthSegments), 3) as real
      ensures heightSegments == Clamped(old(heightSegments), 2) as real
      ensures radius == old(radius) && phiStart == old(phiStart) && phiLength == old(phiLength)
      ensures thetaStart == old(thetaStart) && thetaLength == old(thetaLength)
      ensures indices == old(indices) && vertices == old(vertices) && normals == old(normals) && uv == old(uv)
      ensures g == CurrentShape(math) == old(CurrentShape(math))
    {
      var w := Clamped(widthSegments, 3);
      var h := Clamped(heightSegments, 2);
      widthSegments := w as real;
      heightSegments := h as real;
      ClampedAgain(old(widthSegments), 3);
      ClampedAgain(old(heightSegments), 2);
      var thetaEnd := ThetaEnd(thetaStart, thetaLength, math.pi);
      g := Shape(radius, w, h, phiStart, phiLength, thetaStart, thetaLength, thetaEnd, math.pi);
    }

    /**
     * `generateGeometry`: clamp the segment counts in place, then replace
     * all four buffers by freshly built ones.
     */
    method GenerateGeometry(math: MathLib)
      modifies this
      ensures widthSegments == Clamped(old(widthSegments), 3) as real
      ensures heightSegments == Clamped(old(heightSegments), 2) as real
      ensures radius == old(radius) && phiStart == old(phiStart) && phiLength == old(phiLength)
      ensures thetaStart == old(thetaStart) && thetaLength == old(thetaLength)
      ensures CurrentShape(math) == old(CurrentShape(math))
      ensures var g := CurrentShape(math);
        && Buffers(vertices, normals, uv) == GridBuffers(g, g.height + 1, math)
        && indices == QuadRows(g, g.height)
    {
      var g := ClampSegments(math);
      var vs, ns, uvs, grid := VertexPass(g, math);
      var idx := IndexPass(g, grid);
      indices := idx;
      vertices := vs;
      normals := ns;
      uv := uvs;
    }
  }
}
