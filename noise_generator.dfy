/**
 * app/src/NoiseGenerator.js: fractal noise layers and the handler that
 * stacks them. The simplex primitive `noise3D` (seeded from Math.random)
 * is a parameter of every operation that samples it.
 */
module NoiseGenerator {
  import opened Wrappers
  import opened Utils

  /** The simplex `noise3D(x, y, z)` the module samples; the model knows nothing about its values. */
  type Noise3D = (real, real, real) -> real

  /**
   * The settings a layer finds under its `localStorage` key after
   * `JSON.parse`: `None` for a missing key or a JSON `null`.
   */
  datatype StoredLayer = StoredLayer(scale: Option<real>, octaves: Option<real>, persistance: Option<real>,
                                     roughness: Option<real>, minValue: Option<real>, strength: Option<real>,
                                     view: Option<bool>, useFirstAsMask: Option<bool>)

  /** What `JSON.parse('{}')` gives: nothing stored. */
  const NothingStored := StoredLayer(None, None, None, None, None, None, None, None)

  /** `stored || fallback` for a number: `undefined`, `null` and `0` are falsy. */
  function OrDefault(stored: Option<real>, fallback: real): (r: real)
    ensures fallback != 0.0 ==> r != 0.0
    ensures stored.Some? && stored.value != 0.0 ==> r == stored.value
    ensures stored.None? || stored.value == 0.0 ==> r == fallback
  {
    if stored.Some? && stored.value != 0.0 then stored.value else fallback
  }

  /** One noise layer's settings. */
  datatype NoiseLayer = NoiseLayer(id: int, scale: real, octaves: real, persistance: real, roughness: real,
                                   minValue: real, strength: real, view: bool, useFirstAsMask: bool)
  {
    /**
     * `get(x, y, z)`: `octaves` passes of weighted noise, then
     * `max(0, height - minValue) * strength`.
     */
    method Get(noise: Noise3D, x: real, y: real, z: real) returns (r: real)
      requires scale != 0.0
      ensures r == LayerValue(this, noise, x, y, z)
    {
      var amplitud := 1.0;
      var frequency := 0.71;
      var noiseHeight := 0.0;
      var weight := 1.0;
      var i := 0;
      while (i as real) < octaves
        invariant 0 <= i <= Iterations(octaves)
        invariant Octave(amplitud, frequency, weight, noiseHeight) == Octaves(this, noise, x, y, z, i)
        decreases Iterations(octaves) - i
      {
        OctavePass(this, noise, x, y, z, amplitud, frequency, weight, noiseHeight);
        var noiseValue := Sample(this, noise, x, y, z, frequency);
        noiseValue := noiseValue * weight;
        weight := noiseValue;
        noiseHeight := noiseHeight + Contribution(noiseValue, amplitud);
        amplitud := amplitud * persistance;
        frequency := frequency * roughness;
        i := i + 1;
      }
      IterationsReached(octaves, i);
      assert noiseHeight == Octaves(this, noise, x, y, z, Iterations(octaves)).height;
      noiseHeight := Max(0.0, noiseHeight - minValue);
      r := noiseHeight * strength;
    }
  }

  /**
   * `new NoiseLayer(id)`: every stored number that is falsy falls back to
   * its default (15, 4, 0.5, 2, 1, 1); `view || true` is always true.
   */
  function NewLayer(id: int, stored: StoredLayer): (l: NoiseLayer)
    ensures l.id == id && l.view
    ensures l.scale != 0.0 && l.octaves != 0.0 && l.persistance != 0.0
    ensures l.roughness != 0.0 && l.minValue != 0.0 && l.strength != 0.0
    ensures l.useFirstAsMask <==> stored.useFirstAsMask == Some(true)
  {
    NoiseLayer(id, OrDefault(stored.scale, 15.0), OrDefault(stored.octaves, 4.0),
               OrDefault(stored.persistance, 0.5), OrDefault(stored.roughness, 2.0),
               OrDefault(stored.minValue, 1.0), OrDefault(stored.strength, 1.0),
               true, stored.useFirstAsMask == Some(true))
  }

  /** With nothing stored, a layer gets exactly the defaults. */
  lemma NewLayerDefaults(id: int)
    ensures NewLayer(id, NothingStored) == NoiseLayer(id, 15.0, 4.0, 0.5, 2.0, 1.0, 1.0, true, false)
  {
  }

  /** A stored `minValue` of 0 is falsy, so the layer gets 1; a stored `view` of false is overridden. */
  lemma NewLayerOverridesFalsy(id: int, stored: StoredLayer)
    requires stored.minValue == Some(0.0) && stored.view == Some(false)
    ensures NewLayer(id, stored).minValue == 1.0 && NewLayer(id, stored).view
  {
  }

  /** The number of passes of `for (let i = 0; i < octaves; i++)`: the least `n` with `n >= octaves`. */
  function Iterations(octaves: real): (n: nat)
    ensures n as real >= octaves
    ensures n == 0 || ((n - 1) as real) < octaves
  {
    if octaves <= 0.0 then 0 else -((-octaves).Floor)
  }

  /** The loop stops exactly after `Iterations(octaves)` passes. */
  lemma IterationsReached(octaves: real, i: int)
    requires 0 <= i <= Iterations(octaves) && !((i as real) < octaves)
    ensures i == Iterations(octaves)
  {
  }

  /**
   * The sample of one pass: `noise3D` at the point scaled by `frequency /
   * scale`, so the point itself when the two are equal and the origin at
   * frequency 0.
   */
  function Sample(l: NoiseLayer, noise: Noise3D, x: real, y: real, z: real, frequency: real): (s: real)
    requires l.scale != 0.0
    ensures frequency == l.scale ==> s == noise(x, y, z)
    ensures frequency == 0.0 ==> s == noise(0.0, 0.0, 0.0)
  {
    assert frequency == l.scale ==>
      x * frequency / l.scale == x && y * frequency / l.scale == y && z * frequency / l.scale == z;
    noise(x * frequency / l.scale, y * frequency / l.scale, z * frequency / l.scale)
  }

  /** What one pass adds to the height: the sample moved from [-1, 1] to [0, 1], times the amplitude. */
  function Contribution(v: real, amplitude: real): real
  {
    (v + 1.0) * 0.5 * amplitude
  }

  /** The four accumulators of the octave loop. */
  datatype Octave = Octave(amplitude: real, frequency: real, weight: real, height: real)

  /** One pass of the octave loop: sample, feed the weight forward, add, then step amplitude and frequency. */
  function NextOctave(l: NoiseLayer, noise: Noise3D, x: real, y: real, z: real, o: Octave): Octave
    requires l.scale != 0.0
  {
    var v := Sample(l, noise, x, y, z, o.frequency) * o.weight;
    Octave(o.amplitude * l.persistance, o.frequency * l.roughness, v, o.height + Contribution(v, o.amplitude))
  }

  /** One pass of the octave loop on the accumulators as the loop holds them. */
  lemma OctavePass(l: NoiseLayer, noise: Noise3D, x: real, y: real, z: real,
                   amplitude: real, frequency: real, weight: real, height: real)
    requires l.scale != 0.0
    ensures var v := Sample(l, noise, x, y, z, frequency) * weight;
      NextOctave(l, noise, x, y, z, Octave(amplitude, frequency, weight, height)) ==
      Octave(amplitude * l.persistance, frequency * l.roughness, v, height + Contribution(v, amplitude))
  {
  }

  /** The accumulators after `n` passes of the octave loop. */
  function Octaves(l: NoiseLayer, noise: Noise3D, x: real, y: real, z: real, n: nat): Octave
    requires l.scale != 0.0
  {
    if n == 0 then Octave(1.0, 0.71, 1.0, 0.0) else NextOctave(l, noise, x, y, z, Octaves(l, noise, x, y, z, n - 1))
  }

  /** `b` to the power `n`. */
  function Power(b: real, n: nat): real
  {
    if n == 0 then 1.0 else Power(b, n - 1) * b
  }

  /**
   * After `n` passes the amplitude is `persistance^n` and the frequency
   * `0.71 * roughness^n`.
   */
  lemma {:induction false} OctaveSchedule(l: NoiseLayer, noise: Noise3D, x: real, y: real, z: real, n: nat)
    requires l.scale != 0.0
    ensures Octaves(l, noise, x, y, z, n).amplitude == Power(l.persistance, n)
    ensures Octaves(l, noise, x, y, z, n).frequency == 0.71 * Power(l.roughness, n)
  {
    if n > 0 {
      OctaveSchedule(l, noise, x, y, z, n - 1);
    }
  }

  /**
   * Each pass feeds its weighted sample forward: the weight after a pass is
   * the sample taken at the previous frequency times the previous weight.
   */
  lemma OctaveFeedback(l: NoiseLayer, noise: Noise3D, x: real, y: real, z: real, n: nat)
    requires l.scale != 0.0 && n > 0
    ensures var o := Octaves(l, noise, x, y, z, n - 1);
      Octaves(l, noise, x, y, z, n).weight == Sample(l, noise, x, y, z, o.frequency) * o.weight
  {
  }

  /**
   * What `layer.get(x, y, z)` returns: a layer of strength 0 is silent, and
   * one of positive strength contributes exactly where its accumulated
   * height exceeds `minValue`.
   */
  function LayerValue(l: NoiseLayer, noise: Noise3D, x: real, y: real, z: real): (r: real)
    requires l.scale != 0.0
    ensures l.strength == 0.0 ==> r == 0.0
    ensures l.strength > 0.0 ==> (r > 0.0 <==> Octaves(l, noise, x, y, z, Iterations(l.octaves)).height > l.minValue)
  {
    var h := Octaves(l, noise, x, y, z, Iterations(l.octaves)).height;
    ProductSign(Max(0.0, h - l.minValue), l.strength);
    Max(0.0, h - l.minValue) * l.strength
  }

  /** A non-negative factor times a positive one is positive exactly when the first is. */
  lemma ProductSign(a: real, b: real)
    requires a >= 0.0
    ensures b == 0.0 ==> a * b == 0.0
    ensures b > 0.0 ==> (a * b > 0.0 <==> a > 0.0)
  {
    if b > 0.0 && a > 0.0 {
      ProductPositive(a, b);
    }
  }

  lemma ProductPositive(a: real, b: real)
    requires a > 0.0 && b > 0.0
    ensures a * b > 0.0
  {
  }

  /** `max(0, ...)` makes a layer with non-negative strength non-negative. */
  lemma LayerValueNonNegative(l: NoiseLayer, noise: Noise3D, x: real, y: real, z: real)
    requires l.scale != 0.0 && l.strength >= 0.0
    ensures LayerValue(l, noise, x, y, z) >= 0.0
  {
    var h := Octaves(l, noise, x, y, z, Iterations(l.octaves)).height;
    ProductNonNegative(Max(0.0, h - l.minValue), l.strength);
  }

  /** A layer whose accumulated height does not exceed `minValue` contributes 0. */
  lemma LayerValueBelowMinimum(l: NoiseLayer, noise: Noise3D, x: real, y: real, z: real)
    requires l.scale != 0.0
    requires Octaves(l, noise, x, y, z, Iterations(l.octaves)).height <= l.minValue
    ensures LayerValue(l, noise, x, y, z) == 0.0
  {
  }

  /** Every layer can be sampled: no scale is 0. */
  ghost predicate Samplable(layers: seq<NoiseLayer>)
  {
    forall k | 0 <= k < |layers| :: layers[k].scale != 0.0
  }

  /** The two accumulators of `getNoise`. */
  datatype Mix = Mix(firstNoise: real, n: real)

  /** `getNoise`'s accumulators after the first `k` layers. */
  function MixUpTo(layers: seq<NoiseLayer>, noise: Noise3D, x: real, y: real, z: real, k: nat): Mix
    requires k <= |layers| && Samplable(layers)
  {
    if k == 0 then Mix(1.0, 0.0)
    else
      var m := MixUpTo(layers, noise, x, y, z, k - 1);
      var layer := layers[k - 1];
      if !layer.view then m
      else if k - 1 == 0 then Mix(LayerValue(layer, noise, x, y, z), LayerValue(layer, noise, x, y, z))
      else if layer.useFirstAsMask then Mix(m.firstNoise, m.n + m.firstNoise * LayerValue(layer, noise, x, y, z))
      else Mix(m.firstNoise, m.n + LayerValue(layer, noise, x, y, z))
  }

  /** How layer `layer` (the first one when `first`) with value `v` moves `getNoise`'s accumulators. */
  function MixStep(m: Mix, layer: NoiseLayer, first: bool, v: real): Mix
  {
    if !layer.view then m
    else if first then Mix(v, v)
    else if layer.useFirstAsMask then Mix(m.firstNoise, m.n + m.firstNoise * v)
    else Mix(m.firstNoise, m.n + v)
  }

  /** The accumulators after layer `k` are those before it moved by one `MixStep`. */
  lemma MixUpToNext(layers: seq<NoiseLayer>, noise: Noise3D, x: real, y: real, z: real, k: nat)
    requires k < |layers| && Samplable(layers)
    ensures MixUpTo(layers, noise, x, y, z, k + 1) ==
            MixStep(MixUpTo(layers, noise, x, y, z, k), layers[k], k == 0, LayerValue(layers[k], noise, x, y, z))
  {
  }

  /** What `getNoise(x, y, z)` returns for a stack of layers. */
  function NoiseAt(layers: seq<NoiseLayer>, noise: Noise3D, x: real, y: real, z: real): real
    requires Samplable(layers)
  {
    MixUpTo(layers, noise, x, y, z, |layers|).n
  }

  /**
   * `firstNoise` is layer 0's value once layer 0 has been seen enabled,
   * and stays 1 otherwise.
   */
  lemma {:induction false} FirstNoise(layers: seq<NoiseLayer>, noise: Noise3D, x: real, y: real, z: real, k: nat)
    requires k <= |layers| && Samplable(layers)
    ensures MixUpTo(layers, noise, x, y, z, k).firstNoise ==
            if k > 0 && layers[0].view then LayerValue(layers[0], noise, x, y, z) else 1.0
  {
    if k > 1 {
      FirstNoise(layers, noise, x, y, z, k - 1);
    }
  }

  /** A disabled layer leaves both accumulators as they were. */
  lemma DisabledLayerSkipped(layers: seq<NoiseLayer>, noise: Noise3D, x: real, y: real, z: real, k: nat)
    requires k < |layers| && Samplable(layers) && !layers[k].view
    ensures MixUpTo(layers, noise, x, y, z, k + 1) == MixUpTo(layers, noise, x, y, z, k)
  {
  }

  /** An empty stack, or one whose layers are all disabled, gives 0. */
  lemma {:induction false} AllDisabledGivesZero(layers: seq<NoiseLayer>, noise: Noise3D, x: real, y: real, z: real, k: nat)
    requires k <= |layers| && Samplable(layers)
    requires forall j | 0 <= j < k :: !layers[j].view
    ensures MixUpTo(layers, noise, x, y, z, k) == Mix(1.0, 0.0)
  {
    if k > 0 {
      AllDisabledGivesZero(layers, noise, x, y, z, k - 1);
    }
  }

  /** Layers of non-negative strength give non-negative noise, masked or not. */
  lemma {:induction false} NoiseNonNegative(layers: seq<NoiseLayer>, noise: Noise3D, x: real, y: real, z: real, k: nat)
    requires k <= |layers| && Samplable(layers)
    requires forall j | 0 <= j < |layers| :: layers[j].strength >= 0.0
    ensures MixUpTo(layers, noise, x, y, z, k).firstNoise >= 0.0
    ensures MixUpTo(layers, noise, x, y, z, k).n >= 0.0
  {
    if k > 0 {
      NoiseNonNegative(layers, noise, x, y, z, k - 1);
      var m := MixUpTo(layers, noise, x, y, z, k - 1);
      var v := LayerValue(layers[k - 1], noise, x, y, z);
      LayerValueNonNegative(layers[k - 1], noise, x, y, z);
      ProductNonNegative(m.firstNoise, v);
    }
  }

  /**
   * Two enabled layers, the second masked by the first, give
   * `first + first * second`: the mask scales the second layer and the
   * first layer is still added.
   */
  lemma MaskedPair(l0: NoiseLayer, l1: NoiseLayer, noise: Noise3D, x: real, y: real, z: real)
    requires l0.scale != 0.0 && l1.scale != 0.0 && l0.view && l1.view && l1.useFirstAsMask
    ensures NoiseAt([l0, l1], noise, x, y, z) ==
            LayerValue(l0, noise, x, y, z) + LayerValue(l0, noise, x, y, z) * LayerValue(l1, noise, x, y, z)
  {
    var layers := [l0, l1];
    assert MixUpTo(layers, noise, x, y, z, 1) ==
           Mix(LayerValue(l0, noise, x, y, z), LayerValue(l0, noise, x, y, z));
  }

  /** A masked layer behind a disabled layer 0 is added unscaled: `firstNoise` is still 1. */
  lemma MaskWithoutFirstLayer(layers: seq<NoiseLayer>, noise: Noise3D, x: real, y: real, z: real, k: nat)
    requires 0 < k < |layers| && Samplable(layers)
    requires !layers[0].view && layers[k].view && layers[k].useFirstAsMask
    ensures MixUpTo(layers, noise, x, y, z, k + 1).n ==
            MixUpTo(layers, noise, x, y, z, k).n + LayerValue(layers[k], noise, x, y, z)
  {
    FirstNoise(layers, noise, x, y, z, k);
  }

  class NoiseHandler {
    var layers: seq<NoiseLayer>
    var layerIdx: int

    /** Every layer the handler holds can be sampled. */
    ghost predicate Valid()
      reads this
    {
      Samplable(layers)
    }

    constructor()
      ensures layers == [] && layerIdx == 0 && Valid()
    {
      layers := [];
      layerIdx := 0;
    }

    /**
     * `addNoiseLayer(id)`: a falsy id is replaced by `layerIdx++`; the new
     * layer reads its settings from `storage` under that id and is pushed.
     */
    method AddNoiseLayer(id: Option<int>, storage: int -> StoredLayer) returns (layer: NoiseLayer)
      requires Valid()
      modifies this
      ensures Valid()
      ensures layers == old(layers) + [layer]
      ensures id.Some? && id.value != 0 ==> layer == NewLayer(id.value, storage(id.value)) && layerIdx == old(layerIdx)
      ensures id.None? || id.value == 0 ==>
                layer == NewLayer(old(layerIdx), storage(old(layerIdx))) && layerIdx == old(layerIdx) + 1
    {
      var key;
      if id.Some? && id.value != 0 {
        key := id.value;
      } else {
        key := layerIdx;
        layerIdx := layerIdx + 1;
      }
      layer := NewLayer(key, storage(key));
      layers := layers + [layer];
    }

    /** `getNoise(x, y, z)`: sum the enabled layers, masking those that ask for it by layer 0. */
    method GetNoise(noise: Noise3D, x: real, y: real, z: real) returns (n: real)
      requires Valid()
      ensures n == NoiseAt(layers, noise, x, y, z)
    {
      var firstNoise := 1.0;
      n := 0.0;
      for i := 0 to |layers|
        invariant Mix(firstNoise, n) == MixUpTo(layers, noise, x, y, z, i)
      {
        var layer := layers[i];
        MixUpToNext(layers, noise, x, y, z, i);
        if !layer.view {
          continue;
        }
        var v := layer.Get(noise, x, y, z);
        if i == 0 {
          firstNoise := v;
          n := firstNoise;
        } else if layer.useFirstAsMask {
          n := n + firstNoise * v;
        } else {
          n := n + v;
        }
      }
    }
  }
}
