/**
 * The height pass that app/src/PlanetDrawer.js (`generateHeightMap`) and
 * app/src/OceanDrawer.js (`generateNoise`) share: one noise sample per
 * vertex at the vertex coordinates times 20, with a running `max` from 0
 * and a running `min` from 999; and the shade `(e - min) / (max - min)`
 * both drawers derive a colour from.
 */
module Terrain {
  import opened Utils
  import opened Mesh
  import opened NoiseGenerator

  /** The height sampled for vertex `j`: `getNoise(x * 20, y * 20, z * 20)`. */
  function HeightAt(verts: seq<real>, j: nat, layers: seq<NoiseLayer>, noise: Noise3D): real
    requires 3 * j + 2 < |verts| && Samplable(layers)
  {
    NoiseAt(layers, noise, verts[3 * j] * 20.0, verts[3 * j + 1] * 20.0, verts[3 * j + 2] * 20.0)
  }

  /** `heights` after the first `n` vertices. */
  function HeightsOf(verts: seq<real>, n: nat, layers: seq<NoiseLayer>, noise: Noise3D): (hs: seq<real>)
    requires 3 * n <= |verts| && Samplable(layers)
    ensures |hs| == n
  {
    if n == 0 then [] else HeightsOf(verts, n - 1, layers, noise) + [HeightAt(verts, n - 1, layers, noise)]
  }

  /** One height per vertex, each sampled at its own vertex. */
  lemma {:induction false} HeightsOfEntry(verts: seq<real>, n: nat, layers: seq<NoiseLayer>, noise: Noise3D, j: nat)
    requires 3 * n <= |verts| && Samplable(layers) && j < n
    ensures |HeightsOf(verts, n, layers, noise)| == n
    ensures HeightsOf(verts, n, layers, noise)[j] == HeightAt(verts, j, layers, noise)
  {
    if j < n - 1 {
      HeightsOfEntry(verts, n - 1, layers, noise, j);
    }
  }

  /** `max` after `Math.max(max, n)` over `hs`, starting from 0. */
  function MaxFrom(hs: seq<real>): real
  {
    if |hs| == 0 then 0.0 else Max(MaxFrom(hs[..|hs| - 1]), hs[|hs| - 1])
  }

  /** `min` after `Math.min(min, n)` over `hs`, starting from 999. */
  function MinFrom(hs: seq<real>): real
  {
    if |hs| == 0 then 999.0 else Min(MinFrom(hs[..|hs| - 1]), hs[|hs| - 1])
  }

  /**
   * The running maximum is an upper bound of every height and of 0, and it
   * is 0 or one of the heights.
   */
  lemma {:induction false} MaxFromIsMaximum(hs: seq<real>)
    ensures MaxFrom(hs) >= 0.0
    ensures forall k | 0 <= k < |hs| :: hs[k] <= MaxFrom(hs)
    ensures MaxFrom(hs) == 0.0 || MaxFrom(hs) in hs
  {
    if |hs| > 0 {
      var init := hs[..|hs| - 1];
      MaxFromIsMaximum(init);
      assert forall k | 0 <= k < |init| :: hs[k] == init[k];
      assert MaxFrom(init) in init ==> MaxFrom(init) in hs;
    }
  }

  /**
   * The running minimum is a lower bound of every height and at most 999,
   * and it is 999 or one of the heights.
   */
  lemma {:induction false} MinFromIsMinimum(hs: seq<real>)
    ensures MinFrom(hs) <= 999.0
    ensures forall k | 0 <= k < |hs| :: MinFrom(hs) <= hs[k]
    ensures MinFrom(hs) == 999.0 || MinFrom(hs) in hs
  {
    if |hs| > 0 {
      var init := hs[..|hs| - 1];
      MinFromIsMinimum(init);
      assert forall k | 0 <= k < |init| :: hs[k] == init[k];
      assert MinFrom(init) in init ==> MinFrom(init) in hs;
    }
  }

  /** Every height lies between the two running bounds. */
  lemma HeightsBetweenBounds(hs: seq<real>, k: int)
    requires 0 <= k < |hs|
    ensures MinFrom(hs) <= hs[k] <= MaxFrom(hs)
  {
    MaxFromIsMaximum(hs);
    MinFromIsMinimum(hs);
  }

  /**
   * `(e - min) / (max - min)` for a height between the bounds: when the
   * bounds meet, every height equals both and JS computes 0 / 0, which is
   * NaN.
   */
  function Shade(e: real, min: real, max: real): (r: Num)
    requires min <= e <= max
    ensures max == min <==> r == NaN
  {
    if max == min then NaN else Finite((e - min) / (max - min))
  }

  /** The shade of height `j` between the running bounds of all the heights. */
  function ShadeOf(hs: seq<real>, j: nat): (r: Num)
    requires j < |hs|
    ensures MaxFrom(hs) == MinFrom(hs) <==> r == NaN
  {
    HeightsBetweenBounds(hs, j);
    Shade(hs[j], MinFrom(hs), MaxFrom(hs))
  }

  /** When the bounds differ, the shade is a number in [0, 1]. */
  lemma ShadeInUnit(e: real, min: real, max: real)
    requires min <= e <= max && min < max
    ensures Shade(e, min, max).Finite? && 0.0 <= Shade(e, min, max).value <= 1.0
  {
    var a, d := e - min, max - min;
    var q := a / d;
    assert q * d == a;
    assert (1.0 - q) * d == d - a;
  }

  /** The lowest height gets shade 0 and the highest shade 1. */
  lemma ShadeEnds(min: real, max: real)
    requires min < max
    ensures Shade(min, min, max) == Finite(0.0) && Shade(max, min, max) == Finite(1.0)
  {
    var d := max - min;
    assert d / d == 1.0;
  }

  /** A higher vertex never gets a darker shade. */
  lemma ShadeMonotonic(e1: real, e2: real, min: real, max: real)
    requires min <= e1 <= e2 <= max && min < max
    ensures Shade(e1, min, max).value <= Shade(e2, min, max).value
  {
    var d := max - min;
    assert e1 / d <= e2 / d;
    assert (e1 - min) / d == e1 / d - min / d;
    assert (e2 - min) / d == e2 / d - min / d;
  }

  /**
   * The first loop of both drawers: one `getNoise` call per vertex of
   * `verts`, at the coordinates times 20, recording the height and
   * updating `max` and `min`.
   */
  method SampleHeights(handler: NoiseHandler, verts: seq<real>, noise: Noise3D)
      returns (heights: seq<real>, max: real, min: real)
    requires handler.Valid() && |verts| % 3 == 0
    ensures heights == HeightsOf(verts, VertexCount(verts), handler.layers, noise)
    ensures max == MaxFrom(heights) && min == MinFrom(heights)
  {
    heights := [];
    max, min := 0.0, 999.0;
    ghost var j := 0;
    var i := 0;
    while i < |verts|
      invariant 0 <= i <= |verts| && i == 3 * j
      invariant heights == HeightsOf(verts, j, handler.layers, noise)
      invariant max == MaxFrom(heights) && min == MinFrom(heights)
    {
      var x := verts[i + 0] * 20.0;
      var y := verts[i + 1] * 20.0;
      var z := verts[i + 2] * 20.0;

      var n := handler.GetNoise(noise, x, y, z);

      max := Max(max, n);
      min := Min(min, n);
      assert (heights + [n])[..|heights|] == heights;
      heights := heights + [n];
      i, j := i + 3, j + 1;
    }
  }
}
