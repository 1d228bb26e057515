/**
 * app/src/OceanDrawer.js: the ocean sphere. Its constructor builds the
 * icosphere and a noise handler with one layer set to scale 2.5, minValue
 * 0 and strength 1; `generateNoise` samples one height per vertex and
 * colours each vertex grey by its shade between the lowest and highest
 * height, leaving the vertices where they are.
 */
module OceanDrawer {
  import opened Wrappers
  import opened Utils
  import opened Mesh
  import opened IcosahedronGeometry
  import opened NoiseGenerator
  import opened Terrain

  /** The constructor's writes to the layer it added: `scale = 2.5`, `minValue = 0`, `strength = 1`. */
  function OceanLayer(l: NoiseLayer): NoiseLayer
  {
    l.(scale := 2.5, minValue := 0.0, strength := 1.0)
  }

  /**
   * With `minValue` 0 and strength 1 the ocean layer's value is its
   * accumulated height clamped at 0; the default `minValue` of 1 is gone.
   */
  lemma OceanLayerValue(l: NoiseLayer, noise: Noise3D, x: real, y: real, z: real)
    ensures OceanLayer(l).scale != 0.0
    ensures LayerValue(OceanLayer(l), noise, x, y, z) ==
            Max(0.0, Octaves(OceanLayer(l), noise, x, y, z, Iterations(l.octaves)).height)
    ensures OceanLayer(l).octaves == l.octaves && OceanLayer(l).persistance == l.persistance
    ensures OceanLayer(l).roughness == l.roughness && OceanLayer(l).view == l.view
  {
  }

  /** `colors` after the first `n` vertices: each vertex's shade three times, as r, g and b. */
  function GreysOf(hs: seq<real>, n: nat): (cs: seq<Num>)
    requires n <= |hs|
    ensures |cs| == 3 * n
  {
    if n == 0 then [] else GreysOf(hs, n - 1) + [ShadeOf(hs, n - 1), ShadeOf(hs, n - 1), ShadeOf(hs, n - 1)]
  }

  /** Shading vertex `j` pushes its grey. */
  lemma GreysStep(hs: seq<real>, j: nat)
    requires j < |hs|
    ensures GreysOf(hs, j + 1) == GreysOf(hs, j) + [ShadeOf(hs, j), ShadeOf(hs, j), ShadeOf(hs, j)]
  {
  }

  /** Vertex `j`'s colour is grey: r, g and b are all its own shade. */
  lemma {:induction false} GreysOfEntry(hs: seq<real>, n: nat, j: nat)
    requires j < n <= |hs|
    ensures |GreysOf(hs, n)| == 3 * n
    ensures GreysOf(hs, n)[3 * j] == GreysOf(hs, n)[3 * j + 1] == GreysOf(hs, n)[3 * j + 2] == ShadeOf(hs, j)
  {
    if j < n - 1 {
      GreysOfEntry(hs, n - 1, j);
    }
  }

  /**
   * When the heights are not all equal, every colour component is a
   * number in [0, 1]; when they are, every component is NaN.
   */
  lemma GreysInUnit(hs: seq<real>, j: nat)
    requires j < |hs|
    ensures MaxFrom(hs) > MinFrom(hs) ==>
              var c := GreysOf(hs, |hs|)[3 * j]; c.Finite? && 0.0 <= c.value <= 1.0
    ensures MaxFrom(hs) == MinFrom(hs) ==> GreysOf(hs, |hs|)[3 * j] == NaN
  {
    GreysOfEntry(hs, |hs|, j);
    HeightsBetweenBounds(hs, j);
    if MaxFrom(hs) > MinFrom(hs) {
      ShadeInUnit(hs[j], MinFrom(hs), MaxFrom(hs));
    }
  }

  /**
   * The second loop of `generateNoise`: one grey triple per vertex, the
   * shade `(e - min) / (max - min)` of its height.
   */
  method ShadeVertices(verts: seq<real>, heights: seq<real>, max: real, min: real) returns (colors: seq<Num>)
    requires |verts| == 3 * |heights| && max == MaxFrom(heights) && min == MinFrom(heights)
    ensures colors == GreysOf(heights, |heights|)
  {
    colors := [];
    var i, j := 0, 0;
    while i < |verts|
      invariant 0 <= j <= |heights| && i == 3 * j
      invariant colors == GreysOf(heights, j)
    {
      var e := heights[j];
      GreysStep(heights, j);
      HeightsBetweenBounds(heights, j);
      var color := Shade(e, min, max);
      colors := colors + [color, color, color];
      i, j := i + 3, j + 1;
    }
  }

  class OceanDrawer {
    var geom: IcosahedronGeometry
    var noiseHandler: NoiseHandler
    var colors: seq<Num>

    /** The handler can sample every layer and the geometry holds whole vertices. */
    ghost predicate Valid()
      reads this, geom, noiseHandler
    {
      noiseHandler.Valid() && |geom.vertices| % 3 == 0
    }

    /**
     * The ocean with its stored radius and detail (0.4 and 3 when nothing
     * is stored), one layer reconfigured for water, and its first colours.
     */
    constructor(storedRadius: Option<real>, storedDetail: Option<int>, storage: int -> StoredLayer,
                math: MathLib, noise: Noise3D)
      ensures fresh(geom) && fresh(noiseHandler) && Valid()
      ensures geom.radius == (if storedRadius.Some? then storedRadius.value else 0.4)
      ensures geom.detail == (if storedDetail.Some? then storedDetail.value else 3)
      ensures noiseHandler.layers == [OceanLayer(NewLayer(0, storage(0)))]
      ensures var hs := HeightsOf(geom.vertices, VertexCount(geom.vertices), noiseHandler.layers, noise);
              colors == GreysOf(hs, |hs|)
    {
      var radius := if storedRadius.Some? then storedRadius.value else 0.4;
      var detail := if storedDetail.Some? then storedDetail.value else 3;
      var g := NewOceanGeometry(radius, detail, math);
      var h := NewOceanHandler(storage);
      geom, noiseHandler := g, h;
      colors := [];
      new;
      GenerateNoise(noise);
    }

    /**
     * `generateNoise`: sample the heights on the current vertices, then
     * push one grey per vertex. The geometry is read, never written.
     */
    method GenerateNoise(noise: Noise3D)
      requires Valid()
      modifies this
      ensures geom == old(geom) && noiseHandler == old(noiseHandler) && Valid()
      ensures var hs := HeightsOf(geom.vertices, VertexCount(geom.vertices), noiseHandler.layers, noise);
              colors == GreysOf(hs, |hs|)
    {
      var heights, max, min := SampleHeights(noiseHandler, geom.vertices, noise);
      colors := ShadeVertices(geom.vertices, heights, max, min);
    }
  }

  /** `new IcosahedronGeometry(radius, detail)`: its mesh holds whole vertices. */
  method NewOceanGeometry(radius: real, detail: int, math: MathLib) returns (g: IcosahedronGeometry)
    ensures fresh(g) && g.radius == radius && g.detail == detail && |g.vertices| % 3 == 0
  {
    g := new IcosahedronGeometry(radius, detail, math);
  }

  /** A fresh handler with the one layer `addNoiseLayer()` creates, then set to scale 2.5, minValue 0, strength 1. */
  method NewOceanHandler(storage: int -> StoredLayer) returns (h: NoiseHandler)
    ensures fresh(h) && h.Valid() && h.layers == [OceanLayer(NewLayer(0, storage(0)))]
  {
    h := new NoiseHandler();
    var layer := h.AddNoiseLayer(None, storage);
    h.layers := h.layers[0 := OceanLayer(layer)];
  }
}
