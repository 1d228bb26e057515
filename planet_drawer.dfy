/**
 * app/src/PlanetDrawer.js: the host side of the planet. `generateHeightMap`
 * rebuilds the icosphere, samples one noise height per vertex, pushes each
 * vertex out by `1 + height` and colours it from the gradient; the gradient
 * callback sorts the stops by position and adopts them when there are at
 * least two. The gradient library's `rgbAt` is a parameter.
 */
module PlanetDrawer {
  import opened Wrappers
  import opened Utils
  import opened Mesh
  import opened IcosahedronGeometry
  import opened NoiseGenerator
  import opened Terrain

  /** A gradient stop as the gradient control reports it. */
  datatype Stop = Stop(color: string, pos: real)

  /** The channels of `gradient.rgbAt(t).getOriginalInput()`, as numbers. */
  datatype Rgb = Rgb(r: real, g: real, b: real)

  /** `tinygradient(stops).rgbAt(t)`; the model knows nothing about the colours it picks. */
  type ColorAt = (seq<Stop>, Num) -> Rgb

  /** The stops are in ascending order of `pos`. */
  predicate SortedByPos(s: seq<Stop>)
  {
    forall p, q | 0 <= p < q < |s| :: s[p].pos <= s[q].pos
  }

  /**
   * The class field's initial gradient, black at 0 and white at 1: two
   * stops in order, spanning positions 0 to 1.
   */
  function DefaultGradient(): (g: seq<Stop>)
    ensures |g| == 2 && SortedByPos(g)
    ensures g[0].pos == 0.0 && g[|g| - 1].pos == 1.0
  {
    [Stop("#000000", 0.0), Stop("#ffffff", 1.0)]
  }

  /** Vertex coordinates `i .. i + 3` multiplied in place by `e`. */
  function ScaleVertexAt(d: seq<real>, i: nat, e: real): (r: seq<real>)
    requires i + 3 <= |d|
    ensures |r| == |d|
  {
    d[i := d[i] * e][i + 1 := d[i + 1] * e][i + 2 := d[i + 2] * e]
  }

  /** The buffer after its first `n` vertices have been multiplied by `1 + hs[j]`, vertex `j` by its own height. */
  function Displaced(verts: seq<real>, hs: seq<real>, n: nat): (r: seq<real>)
    requires 3 * n <= |verts| && n <= |hs|
    ensures |r| == |verts|
  {
    if n == 0 then verts else ScaleVertexAt(Displaced(verts, hs, n - 1), 3 * (n - 1), 1.0 + hs[n - 1])
  }

  /** Displacing vertex `j`, whose coordinates start at `i`, extends the displaced prefix by one vertex. */
  lemma DisplacedStep(verts: seq<real>, hs: seq<real>, i: nat, j: nat)
    requires i == 3 * j && i + 3 <= |verts| && j < |hs|
    ensures Displaced(verts, hs, j + 1) == ScaleVertexAt(Displaced(verts, hs, j), i, 1.0 + hs[j])
  {
  }

  /** Scaling the vertex at `3k` scales vertex `k` and leaves every other vertex alone. */
  lemma ScaleVertexAtVertex(d: seq<real>, k: nat, e: real, j: nat)
    requires 3 * k + 3 <= |d| && 3 * j + 3 <= |d|
    ensures |ScaleVertexAt(d, 3 * k, e)| == |d|
    ensures j == k ==> VertexAt(ScaleVertexAt(d, 3 * k, e), j) == Scale(VertexAt(d, j), e)
    ensures j != k ==> VertexAt(ScaleVertexAt(d, 3 * k, e), j) == VertexAt(d, j)
  {
  }

  /**
   * After `n` vertices, vertex `j < n` is the original vertex scaled by
   * `1 + hs[j]` and every later vertex is untouched.
   */
  lemma {:induction false} DisplacedVertex(verts: seq<real>, hs: seq<real>, n: nat, j: nat)
    requires 3 * n <= |verts| && n <= |hs| && 3 * j + 3 <= |verts|
    ensures |Displaced(verts, hs, n)| == |verts|
    ensures j < n ==> VertexAt(Displaced(verts, hs, n), j) == Scale(VertexAt(verts, j), 1.0 + hs[j])
    ensures j >= n ==> VertexAt(Displaced(verts, hs, n), j) == VertexAt(verts, j)
  {
    if n > 0 {
      DisplacedVertex(verts, hs, n - 1, j);
      ScaleVertexAtVertex(Displaced(verts, hs, n - 1), n - 1, 1.0 + hs[n - 1], j);
    }
  }

  /** A vertex whose height is 0 stays where it was. */
  lemma FlatVertexStays(verts: seq<real>, hs: seq<real>, j: nat)
    requires |verts| == 3 * |hs| && j < |hs| && hs[j] == 0.0
    ensures VertexAt(Displaced(verts, hs, |hs|), j) == VertexAt(verts, j)
  {
    DisplacedVertex(verts, hs, |hs|, j);
    var v := VertexAt(verts, j);
    assert 1.0 + hs[j] == 1.0;
    assert v.x * 1.0 == v.x && v.y * 1.0 == v.y && v.z * 1.0 == v.z;
  }

  /** One vertex of the second loop: its three coordinates multiplied in place by `e`. */
  method DisplaceVertex(verts: seq<real>, i: nat, e: real) returns (verts': seq<real>)
    requires i + 3 <= |verts|
    ensures verts' == ScaleVertexAt(verts, i, e)
  {
    verts' := verts;
    verts' := verts'[i + 0 := verts'[i + 0] * e];
    verts' := verts'[i + 1 := verts'[i + 1] * e];
    verts' := verts'[i + 2 := verts'[i + 2] * e];
    assert forall k | 0 <= k < |verts| :: verts'[k] == ScaleVertexAt(verts, i, e)[k];
  }

  /** The three colour entries pushed for one vertex: each channel over 255. */
  function ColorTriple(c: Rgb): (t: seq<real>)
    ensures |t| == 3
  {
    [c.r / 255.0, c.g / 255.0, c.b / 255.0]
  }

  /** `colors` after the first `n` vertices: vertex `j` gets the gradient at its own shade. */
  function ColorsOf(hs: seq<real>, n: nat, stops: seq<Stop>, rgbAt: ColorAt): (cs: seq<real>)
    requires n <= |hs|
    ensures |cs| == 3 * n
  {
    if n == 0 then [] else ColorsOf(hs, n - 1, stops, rgbAt) + ColorTriple(rgbAt(stops, ShadeOf(hs, n - 1)))
  }

  /** Colouring vertex `j` pushes its triple. */
  lemma ColorsStep(hs: seq<real>, j: nat, stops: seq<Stop>, rgbAt: ColorAt)
    requires j < |hs|
    ensures ColorsOf(hs, j + 1, stops, rgbAt) == ColorsOf(hs, j, stops, rgbAt) + ColorTriple(rgbAt(stops, ShadeOf(hs, j)))
  {
  }

  /** Entries `3j .. 3j + 3` of the colours are vertex `j`'s colour. */
  lemma {:induction false} ColorsOfEntry(hs: seq<real>, n: nat, stops: seq<Stop>, rgbAt: ColorAt, j: nat)
    requires j < n <= |hs|
    ensures |ColorsOf(hs, n, stops, rgbAt)| == 3 * n
    ensures ColorsOf(hs, n, stops, rgbAt)[3 * j .. 3 * j + 3] == ColorTriple(rgbAt(stops, ShadeOf(hs, j)))
  {
    var cs, prev := ColorsOf(hs, n, stops, rgbAt), ColorsOf(hs, n - 1, stops, rgbAt);
    if j < n - 1 {
      ColorsOfEntry(hs, n - 1, stops, rgbAt, j);
      assert cs[3 * j .. 3 * j + 3] == prev[3 * j .. 3 * j + 3];
    } else {
      assert cs[3 * j ..] == ColorTriple(rgbAt(stops, ShadeOf(hs, j)));
    }
  }

  /**
   * The second loop of `generateHeightMap`: vertex `j`'s coordinates are
   * multiplied in place by `1 + heights[j]` and its colour is pushed.
   */
  method DisplaceAndColor(verts: seq<real>, heights: seq<real>, max: real, min: real,
                          stops: seq<Stop>, rgbAt: ColorAt)
      returns (verts': seq<real>, colors: seq<real>)
    requires |verts| == 3 * |heights| && max == MaxFrom(heights) && min == MinFrom(heights)
    ensures verts' == Displaced(verts, heights, |heights|)
    ensures colors == ColorsOf(heights, |heights|, stops, rgbAt)
  {
    verts' := verts;
    colors := [];
    var i, j := 0, 0;
    while i < |verts|
      invariant 0 <= j <= |heights| && i == 3 * j
      invariant verts' == Displaced(verts, heights, j)
      invariant colors == ColorsOf(heights, j, stops, rgbAt)
    {
      var e := heights[j];
      DisplacedStep(verts, heights, i, j);
      verts' := DisplaceVertex(verts', i, 1.0 + e);

      ColorsStep(heights, j, stops, rgbAt);
      HeightsBetweenBounds(heights, j);
      var color := rgbAt(stops, Shade(e, min, max));
      colors := colors + ColorTriple(color);
      i, j := i + 3, j + 1;
    }
  }

  /**
   * `x` placed into `t` after every stop whose position is not greater,
   * moving past the greater ones from the end.
   */
  function InsertByPos(x: Stop, t: seq<Stop>): (r: seq<Stop>)
    ensures |r| == |t| + 1
  {
    if |t| == 0 then [x]
    else if t[|t| - 1].pos <= x.pos then t + [x]
    else InsertByPos(x, t[..|t| - 1]) + [t[|t| - 1]]
  }

  /** The stops in ascending order of position, as the comparator `(a, b) => a.pos - b.pos` sorts them. */
  function SortedStops(s: seq<Stop>): (r: seq<Stop>)
    ensures |r| == |s|
  {
    if |s| == 0 then [] else InsertByPos(s[|s| - 1], SortedStops(s[..|s| - 1]))
  }

  /** Inserting adds exactly `x`. */
  lemma {:induction false} InsertByPosPermutes(x: Stop, t: seq<Stop>)
    ensures multiset(InsertByPos(x, t)) == multiset(t) + multiset{x}
  {
    if |t| > 0 && t[|t| - 1].pos > x.pos {
      InsertByPosPermutes(x, t[..|t| - 1]);
      MultisetOfLast(t);
    }
  }

  /** Inserting stops that are all at most `b` gives stops that are all at most `b`. */
  lemma {:induction false} InsertByPosBounded(x: Stop, t: seq<Stop>, b: real)
    requires x.pos <= b && forall k | 0 <= k < |t| :: t[k].pos <= b
    ensures forall k | 0 <= k < |t| + 1 :: InsertByPos(x, t)[k].pos <= b
  {
    if |t| > 0 && t[|t| - 1].pos > x.pos {
      InsertByPosBounded(x, t[..|t| - 1], b);
    }
  }

  /** Inserting into sorted stops keeps them sorted. */
  lemma {:induction false} InsertByPosSorted(x: Stop, t: seq<Stop>)
    requires SortedByPos(t)
    ensures SortedByPos(InsertByPos(x, t))
  {
    if |t| > 0 {
      var init, last := t[..|t| - 1], t[|t| - 1];
      if last.pos > x.pos {
        InsertByPosSorted(x, init);
        InsertByPosBounded(x, init, last.pos);
      }
    }
  }

  /** The sorted stops are in order. */
  lemma {:induction false} SortedStopsSorted(s: seq<Stop>)
    ensures SortedByPos(SortedStops(s))
  {
    if |s| > 0 {
      var init := s[..|s| - 1];
      SortedStopsSorted(init);
      InsertByPosSorted(s[|s| - 1], SortedStops(init));
    }
  }

  /** A sequence's multiset is its last element's plus the rest's. */
  lemma MultisetOfLast(s: seq<Stop>)
    requires |s| > 0
    ensures multiset(s) == multiset(s[..|s| - 1]) + multiset{s[|s| - 1]}
  {
    assert s == s[..|s| - 1] + [s[|s| - 1]];
  }

  /** The sorted stops are a permutation of the input. */
  lemma {:induction false} SortedStopsPermutes(s: seq<Stop>)
    ensures multiset(SortedStops(s)) == multiset(s)
  {
    if |s| > 0 {
      var init, last := s[..|s| - 1], s[|s| - 1];
      MultisetOfLast(s);
      SortedStopsPermutes(init);
      InsertByPosPermutes(last, SortedStops(init));
    }
  }

  /** Sorted input is left as it is. */
  lemma {:induction false} SortedStopsKeepsSorted(s: seq<Stop>)
    requires SortedByPos(s)
    ensures SortedStops(s) == s
  {
    if |s| > 0 {
      var init := s[..|s| - 1];
      SortedStopsKeepsSorted(init);
      assert init + [s[|s| - 1]] == s;
    }
  }

  /** The stops at position `v`, in the order they appear. */
  function AtPos(s: seq<Stop>, v: real): seq<Stop>
  {
    if |s| == 0 then []
    else AtPos(s[..|s| - 1], v) + (if s[|s| - 1].pos == v then [s[|s| - 1]] else [])
  }

  /** Inserting `x` puts it after every stop at its own position and leaves the other positions alone. */
  lemma {:induction false} InsertByPosAtPos(x: Stop, t: seq<Stop>, v: real)
    ensures AtPos(InsertByPos(x, t), v) == AtPos(t, v) + (if x.pos == v then [x] else [])
  {
    if |t| > 0 {
      var init, last := t[..|t| - 1], t[|t| - 1];
      if last.pos <= x.pos {
        assert (t + [x])[..|t|] == t;
      } else {
        var r := InsertByPos(x, init);
        InsertByPosAtPos(x, init, v);
        assert (r + [last])[..|r|] == r;
      }
    }
  }

  /**
   * The sort is stable, as ES2019 requires of `Array.prototype.sort`: the
   * stops at any one position keep their relative order.
   */
  lemma {:induction false} SortedStopsStable(s: seq<Stop>, v: real)
    ensures AtPos(SortedStops(s), v) == AtPos(s, v)
  {
    if |s| > 0 {
      var init := s[..|s| - 1];
      SortedStopsStable(init, v);
      InsertByPosAtPos(s[|s| - 1], SortedStops(init), v);
    }
  }

  /** `gradient.sort((a, b) => a.pos - b.pos)`: the array is rearranged in place into sorted order. */
  method SortByPos(a: array<Stop>)
    modifies a
    ensures a[..] == SortedStops(old(a[..]))
    ensures SortedByPos(a[..]) && multiset(a[..]) == multiset(old(a[..]))
  {
    var sorted := SortedStops(a[..]);
    SortedStopsSorted(a[..]);
    SortedStopsPermutes(a[..]);
    forall k | 0 <= k < a.Length {
      a[k] := sorted[k];
    }
    assert a[..] == sorted;
  }

  /** `new IcosahedronGeometry(radius, detail)`, of which the planet keeps only the radius and detail. */
  method NewGeometry(radius: real, detail: int, math: MathLib) returns (g: IcosahedronGeometry)
    ensures fresh(g) && g.radius == radius && g.detail == detail
  {
    g := new IcosahedronGeometry(radius, detail, math);
  }

  /** A fresh `NoiseHandler`, given one layer when it has none. */
  method NewHandler(storage: int -> StoredLayer) returns (h: NoiseHandler)
    ensures fresh(h) && h.Valid() && h.layers == [NewLayer(0, storage(0))]
  {
    h := new NoiseHandler();
    if |h.layers| == 0 {
      var _ := h.AddNoiseLayer(None, storage);
    }
  }

  class PlanetDrawer {
    var geom: IcosahedronGeometry
    var noiseHandler: NoiseHandler
    var gradient: seq<Stop>
    var colors: seq<real>

    /** The noise handler can sample every layer it holds. */
    ghost predicate Valid()
      reads this, noiseHandler
    {
      noiseHandler.Valid()
    }

    /**
     * The state `generateHeightMap` leaves: the mesh as `generateGeometry`
     * builds it from the geometry's radius and detail, each vertex pushed
     * out by its own height, sampled on the undisplaced mesh, and one
     * gradient colour per vertex.
     */
    ghost predicate HeightMapped(math: MathLib, noise: Noise3D, rgbAt: ColorAt)
      reads this, geom, noiseHandler
      requires Valid()
    {
      var mesh := Generated(geom.radius, geom.detail, math);
      var hs := HeightsOf(mesh.0, VertexCount(mesh.0), noiseHandler.layers, noise);
      && geom.indices == mesh.1
      && geom.normals == NormalsOf(mesh.0, |mesh.1|, math)
      && geom.vertices == Displaced(mesh.0, hs, |hs|)
      && colors == ColorsOf(hs, |hs|, gradient, rgbAt)
    }

    /**
     * The planet with its stored radius and detail (0.7 and 3 when nothing
     * is stored), a noise handler given one default layer, the default
     * gradient (no saved stops are replayed), and a first height map.
     */
    constructor(storedRadius: Option<real>, storedDetail: Option<int>, storage: int -> StoredLayer,
                math: MathLib, noise: Noise3D, rgbAt: ColorAt)
      ensures fresh(geom) && fresh(noiseHandler)
      ensures geom.radius == (if storedRadius.Some? then storedRadius.value else 0.7)
      ensures geom.detail == (if storedDetail.Some? then storedDetail.value else 3)
      ensures noiseHandler.layers == [NewLayer(0, storage(0))]
      ensures gradient == DefaultGradient()
      ensures Valid() && HeightMapped(math, noise, rgbAt)
    {
      var radius := if storedRadius.Some? then storedRadius.value else 0.7;
      var detail := if storedDetail.Some? then storedDetail.value else 3;
      var g := NewGeometry(radius, detail, math);
      var h := NewHandler(storage);
      geom, noiseHandler := g, h;
      gradient := DefaultGradient();
      colors := [];
      new;
      GenerateHeightMap(math, noise, rgbAt);
    }

    /**
     * `generateHeightMap`: regenerate the mesh, sample the heights on it,
     * then displace and colour. The result depends only on the radius,
     * detail, layers and gradient, so calling it again never compounds the
     * displacement.
     */
    method GenerateHeightMap(math: MathLib, noise: Noise3D, rgbAt: ColorAt)
      requires Valid()
      modifies this, geom
      ensures geom == old(geom) && noiseHandler == old(noiseHandler) && gradient == old(gradient)
      ensures geom.radius == old(geom.radius) && geom.detail == old(geom.detail)
      ensures Valid() && HeightMapped(math, noise, rgbAt)
    {
      geom.GenerateGeometry(math);
      var heights, max, min := SampleHeights(noiseHandler, geom.vertices, noise);
      var vertices, colors' := DisplaceAndColor(geom.vertices, heights, max, min, gradient, rgbAt);
      geom.vertices := vertices;
      colors := colors';
    }

    /**
     * The gradient control's callback: sort the stops by position; with at
     * least two stops adopt them and regenerate the height map, otherwise
     * change nothing but the order of the stops.
     */
    method OnGradientChange(stops: array<Stop>, math: MathLib, noise: Noise3D, rgbAt: ColorAt)
      requires Valid()
      modifies stops, this, geom
      ensures stops[..] == SortedStops(old(stops[..]))
      ensures SortedByPos(stops[..]) && multiset(stops[..]) == multiset(old(stops[..]))
      ensures geom == old(geom) && noiseHandler == old(noiseHandler) && Valid()
      ensures geom.radius == old(geom.radius) && geom.detail == old(geom.detail)
      ensures stops.Length >= 2 ==> gradient == stops[..] && HeightMapped(math, noise, rgbAt)
      ensures stops.Length < 2 ==> gradient == old(gradient) && colors == old(colors)
      ensures stops.Length < 2 ==> unchanged(geom)
    {
      SortByPos(stops);
      if stops.Length >= 2 {
        gradient := stops[..];
        GenerateHeightMap(math, noise, rgbAt);
      }
    }
  }
}
