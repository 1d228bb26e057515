/**
 * The helpers of app/src/utils.js that the geometry and the viewer rely on:
 * the zero-magnitude guard of `normalize`, the column-major 4x4 product
 * `MatrixMult`, the colour parser `hexToRgb` and the near-plane clamp of
 * `ProjectionMatrix`. Foreign numeric primitives (Math.sqrt, Math.sin,
 * Math.cos, Math.PI) are not modelled; they are passed in as a `MathLib` value.
 */
module Utils {
  import opened Wrappers

  /** A point or direction as a JS `[x, y, z]` array. */
  datatype Vec3 = Vec3(x: real, y: real, z: real)

  /** A JS number that may be NaN (what arithmetic on `undefined` gives). */
  datatype Num = Finite(value: real) | NaN

  /**
   * The host's Math functions and its `Math.PI`; the model knows nothing
   * about their values.
   */
  datatype MathLib = MathLib(sqrt: real -> real, sin: real -> real, cos: real -> real, pi: real)

  /** `Number(x.toFixed(5)) === 0`: x rounds to zero at five decimals. */
  predicate RoundsToZero5(x: real)
  {
    -0.000005 < x < 0.000005
  }

  function Magnitude(v: Vec3, math: MathLib): real
  {
    math.sqrt(v.x * v.x + v.y * v.y + v.z * v.z)
  }

  function Scale(v: Vec3, k: real): Vec3
  {
    Vec3(v.x * k, v.y * k, v.z * k)
  }

  /** `Math.max(a, b)` on numbers. */
  function Max(a: real, b: real): (m: real)
    ensures m >= a && m >= b && (m == a || m == b)
  {
    if a >= b then a else b
  }

  /** `Math.min(a, b)` on numbers. */
  function Min(a: real, b: real): (m: real)
    ensures m <= a && m <= b && (m == a || m == b)
  {
    if a <= b then a else b
  }

  /** A product of two non-negative reals is non-negative. */
  lemma ProductNonNegative(a: real, b: real)
    requires a >= 0.0 && b >= 0.0
    ensures a * b >= 0.0
  {
  }

  /** `normalize`: the input itself when its magnitude rounds to zero, else each coordinate over the magnitude. */
  function Normalize(v: Vec3, math: MathLib): (r: Vec3)
    ensures RoundsToZero5(Magnitude(v, math)) ==> r == v
  {
    var mag := Magnitude(v, math);
    if RoundsToZero5(mag) then v else Vec3(v.x / mag, v.y / mag, v.z / mag)
  }

  /** A vector whose magnitude does not round to zero is its normalized form scaled back by the magnitude. */
  lemma NormalizeScalesBack(v: Vec3, math: MathLib)
    requires !RoundsToZero5(Magnitude(v, math))
    ensures Scale(Normalize(v, math), Magnitude(v, math)) == v
  {
  }

  /** Math.sqrt returns the exact non-negative root of the squared length of `v`. */
  predicate SqrtExactAt(v: Vec3, math: MathLib)
  {
    var m := Magnitude(v, math);
    m >= 0.0 && m * m == v.x * v.x + v.y * v.y + v.z * v.z
  }

  /**
   * Where Math.sqrt is exact at the point, a vector whose magnitude does not
   * round to zero is normalized to unit length.
   */
  lemma NormalizeHasUnitLength(v: Vec3, math: MathLib)
    requires SqrtExactAt(v, math)
    requires !RoundsToZero5(Magnitude(v, math))
    ensures var r := Normalize(v, math); r.x * r.x + r.y * r.y + r.z * r.z == 1.0
  {
    var m := Magnitude(v, math);
    var r := Normalize(v, math);
    NormalizeScalesBack(v, math);
    assert r.x * m == v.x && r.y * m == v.y && r.z * m == v.z;
    calc {
      (r.x * r.x + r.y * r.y + r.z * r.z) * (m * m);
      (r.x * m) * (r.x * m) + (r.y * m) * (r.y * m) + (r.z * m) * (r.z * m);
      v.x * v.x + v.y * v.y + v.z * v.z;
      m * m;
    }
  }

  // ---------------------------------------------------------------------
  // MatrixMult: column-major 4x4 product, entry j + 4 * i of A * B.

  /** The first k terms of the dot product of row j of A and column i of B. */
  function PartialDot(a: seq<real>, b: seq<real>, i: nat, j: nat, k: nat): real
    requires |a| == 16 && |b| == 16 && i < 4 && j < 4 && k <= 4
  {
    if k == 0 then 0.0 else PartialDot(a, b, i, j, k - 1) + a[j + 4 * (k - 1)] * b[(k - 1) + 4 * i]
  }

  /** The column-major product: entry j + 4 * i is the sum over k of a[j + 4k] * b[k + 4i]. */
  function Product(a: seq<real>, b: seq<real>): (c: seq<real>)
    requires |a| == 16 && |b| == 16
    ensures |c| == 16
  {
    seq(16, n requires 0 <= n < 16 => PartialDot(a, b, n / 4, n % 4, 4))
  }

  const Identity: seq<real> :=
    [1.0, 0.0, 0.0, 0.0,
     0.0, 1.0, 0.0, 0.0,
     0.0, 0.0, 1.0, 0.0,
     0.0, 0.0, 0.0, 1.0]

  method MatrixMult(a: seq<real>, b: seq<real>) returns (c: seq<real>)
    requires |a| == 16 && |b| == 16
    ensures c == Product(a, b)
  {
    c := [];
    for i := 0 to 4
      invariant |c| == 4 * i
      invariant forall n | 0 <= n < 4 * i :: c[n] == PartialDot(a, b, n / 4, n % 4, 4)
    {
      for j := 0 to 4
        invariant |c| == 4 * i + j
        invariant forall n | 0 <= n < 4 * i + j :: c[n] == PartialDot(a, b, n / 4, n % 4, 4)
      {
        var v := 0.0;
        for k := 0 to 4
          invariant v == PartialDot(a, b, i, j, k)
        {
          v := v + a[j + 4 * k] * b[k + 4 * i];
        }
        c := c + [v];
      }
    }
  }

  lemma {:induction false} DotWithIdentityLeft(b: seq<real>, i: nat, j: nat, k: nat)
    requires |b| == 16 && i < 4 && j < 4 && k <= 4
    ensures PartialDot(Identity, b, i, j, k) == if j < k then b[j + 4 * i] else 0.0
  {
    if k > 0 {
      DotWithIdentityLeft(b, i, j, k - 1);
    }
  }

  lemma {:induction false} DotWithIdentityRight(a: seq<real>, i: nat, j: nat, k: nat)
    requires |a| == 16 && i < 4 && j < 4 && k <= 4
    ensures PartialDot(a, Identity, i, j, k) == if i < k then a[j + 4 * i] else 0.0
  {
    if k > 0 {
      DotWithIdentityRight(a, i, j, k - 1);
    }
  }

  /** The identity matrix is neutral on both sides of MatrixMult. */
  lemma ProductIdentity(m: seq<real>)
    requires |m| == 16
    ensures Product(Identity, m) == m && Product(m, Identity) == m
  {
    forall n | 0 <= n < 16
      ensures Product(Identity, m)[n] == m[n] && Product(m, Identity)[n] == m[n]
    {
      DotWithIdentityLeft(m, n / 4, n % 4, 4);
      DotWithIdentityRight(m, n / 4, n % 4, 4);
    }
  }

  // ---------------------------------------------------------------------
  // hexToRgb: /^#?([a-f\d]{2})([a-f\d]{2})([a-f\d]{2})$/i, then parseInt(pair, 16).

  datatype RgbBytes = RgbBytes(r: int, g: int, b: int)

  /** `[a-f\d]` under the `i` flag. */
  predicate IsHexDigit(c: char)
  {
    '0' <= c <= '9' || 'a' <= c <= 'f' || 'A' <= c <= 'F'
  }

  predicate AllHexDigits(s: string)
  {
    forall i | 0 <= i < |s| :: IsHexDigit(s[i])
  }

  function HexDigitValue(c: char): (d: int)
    requires IsHexDigit(c)
    ensures 0 <= d < 16
  {
    if '0' <= c <= '9' then c as int - '0' as int
    else if 'a' <= c <= 'f' then c as int - 'a' as int + 10
    else c as int - 'A' as int + 10
  }

  /** `parseInt(s.substr(i, 2), 16)` for two hex digits. */
  function HexPair(s: string, i: nat): (v: int)
    requires i + 2 <= |s| && IsHexDigit(s[i]) && IsHexDigit(s[i + 1])
    ensures 0 <= v < 256
  {
    16 * HexDigitValue(s[i]) + HexDigitValue(s[i + 1])
  }

  /** The strings the anchored pattern matches: an optional '#', then exactly six hex digits. */
  predicate IsHexColor(hex: string)
  {
    (|hex| == 6 && AllHexDigits(hex)) || (|hex| == 7 && hex[0] == '#' && AllHexDigits(hex[1..]))
  }

  function HexToRgb(hex: string): (r: Option<RgbBytes>)
    ensures r.Some? <==> IsHexColor(hex)
    ensures r.Some? ==> 0 <= r.value.r < 256 && 0 <= r.value.g < 256 && 0 <= r.value.b < 256
    ensures r.Some? ==> var body := hex[|hex| - 6..];
              r.value == RgbBytes(HexPair(body, 0), HexPair(body, 2), HexPair(body, 4))
  {
    if !IsHexColor(hex) then None
    else
      var body := if |hex| == 7 then hex[1..] else hex;
      Some(RgbBytes(HexPair(body, 0), HexPair(body, 2), HexPair(body, 4)))
  }

  /** The lower-case hex digit of a value below 16 (what a colour input emits). */
  function HexDigit(d: int): (c: char)
    requires 0 <= d < 16
    ensures IsHexDigit(c) && HexDigitValue(c) == d
  {
    if d < 10 then ('0' as int + d) as char else ('a' as int + d - 10) as char
  }

  function ByteToHex(v: int): (s: string)
    requires 0 <= v < 256
    ensures |s| == 2
  {
    [HexDigit(v / 16), HexDigit(v % 16)]
  }

  /** The `#rrggbb` spelling of a colour. */
  function RgbToHex(c: RgbBytes): (s: string)
    requires 0 <= c.r < 256 && 0 <= c.g < 256 && 0 <= c.b < 256
    ensures |s| == 7 && s[0] == '#'
  {
    "#" + ByteToHex(c.r) + ByteToHex(c.g) + ByteToHex(c.b)
  }

  /** hexToRgb inverts the `#rrggbb` spelling of every colour. */
  lemma HexToRgbInvertsRgbToHex(c: RgbBytes)
    requires 0 <= c.r < 256 && 0 <= c.g < 256 && 0 <= c.b < 256
    ensures HexToRgb(RgbToHex(c)) == Some(c)
  {
    var s := RgbToHex(c);
    var body := s[1..];
    assert body == ByteToHex(c.r) + ByteToHex(c.g) + ByteToHex(c.b);
    assert AllHexDigits(body);
    assert HexPair(body, 0) == c.r;
    assert HexPair(body, 2) == c.g;
    assert HexPair(body, 4) == c.b;
  }

  /** Three-digit shorthand and extra characters around the six digits are refused. */
  lemma HexToRgbRejectsOtherLengths(hex: string)
    requires |hex| != 6 && |hex| != 7
    ensures HexToRgb(hex) == None
  {
  }

  // ---------------------------------------------------------------------
  // ProjectionMatrix: near = z - 1.74 clamped to at least 0.001, far = z + 1.74.

  function NearDistance(z: real): (n: real)
    ensures n >= 0.001
    ensures n >= z - 1.74 && (n == z - 1.74 || n == 0.001)
  {
    var n := z - 1.74;
    if n < 0.001 then 0.001 else n
  }

  function FarDistance(z: real): real
  {
    z + 1.74
  }

  /**
   * For every camera distance above -1.739 (the viewer keeps it at least 0.01)
   * the depth range far - near that the matrix divides by is positive.
   */
  lemma DepthRangePositive(z: real)
    requires z > -1.739
    ensures FarDistance(z) - NearDistance(z) > 0.0
  {
  }
}
