/**
 * js/utils/MathUtils.js: `MathUtils` and `PhysicsUtils`, the numeric helpers
 * the game shares. Numbers are mathematical reals; a JavaScript result that
 * is not a finite number (a division by zero) is `None`. `Math.hypot`
 * arrives as a parameter together with the property that defines it.
 */
module MathUtilities {
  import opened Wrappers

  /** `Math.PI` as a double. */
  const Pi: real := 3.141592653589793

  /** `Math.min` and `Math.max` of two numbers. */
  function MinR(a: real, b: real): real
  {
    if a <= b then a else b
  }

  function MaxR(a: real, b: real): real
  {
    if a >= b then a else b
  }

  /** `Math.abs`. */
  function Abs(x: real): real
  {
    if x < 0.0 then -x else x
  }

  // ---------------------------------------------------------------------------
  // clamp, lerp, mapRange, smoothStep
  // ---------------------------------------------------------------------------

  /** `Math.max(lower, x)`, NaN when `x` is NaN. */
  function MaxOrNaN(lower: real, x: Option<real>): (r: Option<real>)
    ensures r.Some? <==> x.Some?
    ensures r.Some? ==> r.value >= lower && r.value >= x.value && (r.value == lower || r.value == x.value)
  {
    match x
    case None => None
    case Some(n) => Some(MaxR(lower, n))
  }

  /** `clamp(value, min, max)`: `Math.max(min, Math.min(max, value))`. */
  function Clamp(value: real, min: real, max: real): (r: real)
    ensures min <= max ==> min <= r <= max
    ensures min <= value <= max ==> r == value
    ensures r == value || r == min || r == max
    ensures r >= min
  {
    MaxR(min, MinR(max, value))
  }

  /** `lerp(a, b, t)`. */
  function Lerp(a: real, b: real, t: real): (r: real)
    ensures t == 0.0 ==> r == a
    ensures t == 1.0 ==> r == b
  {
    a + (b - a) * t
  }

  /** For t in [0, 1] the interpolation stays between its two ends. */
  lemma {:induction false} LerpBetween(a: real, b: real, t: real)
    requires 0.0 <= t <= 1.0
    ensures MinR(a, b) <= Lerp(a, b, t) <= MaxR(a, b)
  {
    if a <= b {
      MulBounds(b - a, t);
    } else {
      MulBounds(a - b, t);
      assert (b - a) * t == -((a - b) * t);
    }
  }

  /** For `d >= 0` and `t` in [0, 1], `d * t` lies in [0, d]. */
  lemma {:induction false} MulBounds(d: real, t: real)
    requires d >= 0.0 && 0.0 <= t <= 1.0
    ensures 0.0 <= d * t <= d
  {
    assert d - d * t == d * (1.0 - t);
  }

  /**
   * `mapRange(value, inMin, inMax, outMin, outMax)`; `None` when
   * `inMin == inMax`, where JavaScript divides by zero.
   */
  function MapRange(value: real, inMin: real, inMax: real, outMin: real, outMax: real): (r: Option<real>)
    ensures r.Some? <==> inMin != inMax
  {
    if inMax - inMin == 0.0 then None
    else Some((value - inMin) * (outMax - outMin) / (inMax - inMin) + outMin)
  }

  /** Multiplication by a non-zero number is injective. */
  lemma {:induction false} MulCancel(x: real, y: real, q: real)
    requires q != 0.0 && x * q == y * q
    ensures x == y
  {
    assert (x - y) * q == 0.0;
  }

  /** `mapRange` is `lerp` of the output range at the input's relative position. */
  lemma {:induction false} MapRangeIsLerp(value: real, inMin: real, inMax: real, outMin: real, outMax: real)
    requires inMin != inMax
    ensures MapRange(value, inMin, inMax, outMin, outMax)
      == Some(Lerp(outMin, outMax, (value - inMin) / (inMax - inMin)))
  {
    var p := value - inMin;
    var q := inMax - inMin;
    var d := outMax - outMin;
    var t := p / q;
    var x := (value - inMin) * (outMax - outMin) / (inMax - inMin);
    DivOfProduct(p * d, q);
    assert x * q == p * d;
    DivOfProduct(p, q);
    assert (d * t) * q == d * (t * q);
    assert (d * t) * q == p * d;
    MulCancel(x, d * t, q);
    assert MapRange(value, inMin, inMax, outMin, outMax) == Some(x + outMin);
    var l := Lerp(outMin, outMax, (value - inMin) / (inMax - inMin));
    assert l == outMin + (outMax - outMin) * ((value - inMin) / (inMax - inMin));
    assert l == outMin + d * t;
  }

  /** The two ends of the input range land on the two ends of the output range. */
  lemma {:induction false} MapRangeEnds(inMin: real, inMax: real, outMin: real, outMax: real)
    requires inMin != inMax
    ensures MapRange(inMin, inMin, inMax, outMin, outMax) == Some(outMin)
    ensures MapRange(inMax, inMin, inMax, outMin, outMax) == Some(outMax)
  {
    MapRangeIsLerp(inMin, inMin, inMax, outMin, outMax);
    MapRangeIsLerp(inMax, inMin, inMax, outMin, outMax);
  }

  /** The cubic `t * t * (3 - 2t)` of `smoothStep`. */
  function Smooth(t: real): real
  {
    t * t * (3.0 - 2.0 * t)
  }

  /** On [0, 1] the cubic stays within [0, 1]. */
  lemma {:induction false} SmoothWithin(t: real)
    requires 0.0 <= t <= 1.0
    ensures 0.0 <= Smooth(t) <= 1.0
  {
    var s := t * t;
    assert 0.0 <= s;
    assert Smooth(t) == s * (3.0 - 2.0 * t);
    MulNonneg(s, 3.0 - 2.0 * t);
    var u := (1.0 - t) * (1.0 - t);
    assert 0.0 <= u;
    MulNonneg(u, 1.0 + 2.0 * t);
    assert 1.0 - Smooth(t) == u * (1.0 + 2.0 * t);
  }

  lemma {:induction false} MulNonneg(a: real, b: real)
    requires a >= 0.0 && b >= 0.0
    ensures a * b >= 0.0
  {
  }

  /**
   * `smoothStep(edge0, edge1, x)`. With equal edges JavaScript divides by
   * zero: a point beyond the edge gives +Infinity, clamped to 1, a point
   * before it -Infinity, clamped to 0, and the edge itself NaN (`None`).
   */
  function SmoothStep(edge0: real, edge1: real, x: real): (r: Option<real>)
    ensures r.None? <==> edge0 == edge1 && x == edge0
    ensures r.Some? ==> 0.0 <= r.value <= 1.0
  {
    if edge1 - edge0 == 0.0 then
      if x - edge0 > 0.0 then Some(Smooth(1.0))
      else if x - edge0 < 0.0 then Some(Smooth(0.0))
      else None
    else
      var t := Clamp((x - edge0) / (edge1 - edge0), 0.0, 1.0);
      SmoothWithin(t);
      Some(Smooth(t))
  }

  /** Below the lower edge the step is 0, beyond the upper edge it is 1. */
  lemma {:induction false} SmoothStepEdges(edge0: real, edge1: real, x: real)
    requires edge0 < edge1
    ensures x <= edge0 ==> SmoothStep(edge0, edge1, x) == Some(0.0)
    ensures x >= edge1 ==> SmoothStep(edge0, edge1, x) == Some(1.0)
  {
    var w := edge1 - edge0;
    if x <= edge0 {
      assert (x - edge0) / w <= 0.0;
    }
    if x >= edge1 {
      var q := (x - edge0) / w;
      DivOfProduct(x - edge0, w);
      assert q * w == x - edge0;
      assert (q - 1.0) * w == x - edge0 - w;
      AtLeastOne(q, w);
    }
  }

  // ---------------------------------------------------------------------------
  // wrap and normalizeAngle
  // ---------------------------------------------------------------------------

  /**
   * `wrap(value, min, max)`: an empty or reversed range gives `min`;
   * otherwise whole ranges are added, then taken away, until the value
   * lies in [min, max). The ghost `k` counts the net ranges added.
   */
  method Wrap(value: real, min: real, max: real) returns (result: real, ghost k: int)
    ensures max - min <= 0.0 ==> result == min
    ensures max - min > 0.0 ==> min <= result < max
    ensures max - min > 0.0 ==> result == value + k as real * (max - min)
  {
    var range := max - min;
    if range <= 0.0 {
      return min, 0;
    }
    ghost var up, down;
    result, up := AddRanges(value, min, range);
    result, down := SubtractRanges(result, min, max);
    k := up as int - down as int;
  }

  /** `while (result < min) result += range`. */
  method AddRanges(value: real, min: real, range: real) returns (result: real, ghost k: nat)
    requires range > 0.0
    ensures min <= result && result == value + k as real * range
  {
    result, k := value, 0;
    while result < min
      invariant result == value + k as real * range
      decreases ((min - result) / range).Floor
    {
      Shift(min - result, range);
      result, k := result + range, k + 1;
    }
  }

  /** `while (result >= max) result -= range`, from a value already at least `min`. */
  method SubtractRanges(value: real, min: real, max: real) returns (result: real, ghost k: nat)
    requires min < max && min <= value
    ensures min <= result < max && result == value - k as real * (max - min)
  {
    var range := max - min;
    result, k := value, 0;
    while result >= max
      invariant min <= result
      invariant result == value - k as real * range
      decreases ((result - max) / range).Floor
    {
      Shift(result - max, range);
      result, k := result - range, k + 1;
    }
  }

  /** Taking one range off a distance takes one off its quotient, and off its floor. */
  lemma {:induction false} Shift(a: real, range: real)
    requires range > 0.0
    ensures ((a - range) / range).Floor == (a / range).Floor - 1
  {
    var q := a / range;
    DivOfProduct(q, range);
    assert q * range == a;
    assert (q - 1.0) * range == a - range;
    DivOfProduct(q - 1.0, range);
  }

  lemma {:induction false} AtLeastOne(q: real, w: real)
    requires w > 0.0 && (q - 1.0) * w >= 0.0
    ensures q >= 1.0
  {
    if q < 1.0 {
      MulPos(1.0 - q, w);
    }
  }

  /** Dividing a product by one of its non-zero factors gives the other. */
  lemma {:induction false} DivOfProduct(a: real, r: real)
    requires r != 0.0
    ensures a * r / r == a
    ensures a / r * r == a
  {
  }

  /** `normalizeAngle(angle)`: the same two loops with the range [0, 2π). */
  method NormalizeAngle(angle: real) returns (result: real, ghost k: int)
    ensures 0.0 <= result < 2.0 * Pi
    ensures result == angle + k as real * (2.0 * Pi)
  {
    result, k := Wrap(angle, 0.0, Pi * 2.0);
  }

  // ---------------------------------------------------------------------------
  // Vectors
  // ---------------------------------------------------------------------------

  function Dot(x1: real, y1: real, x2: real, y2: real): real
  {
    x1 * x2 + y1 * y2
  }

  function Cross(x1: real, y1: real, x2: real, y2: real): real
  {
    x1 * y2 - y1 * x2
  }

  /** `dot` is symmetric and never negative on a vector with itself. */
  lemma {:induction false} DotSymmetric(x1: real, y1: real, x2: real, y2: real)
    ensures Dot(x1, y1, x2, y2) == Dot(x2, y2, x1, y1)
    ensures Dot(x1, y1, x1, y1) >= 0.0
  {
  }

  /** `cross` changes sign when its arguments swap, and is zero for a vector with itself. */
  lemma {:induction false} CrossAntisymmetric(x1: real, y1: real, x2: real, y2: real)
    ensures Cross(x1, y1, x2, y2) == -Cross(x2, y2, x1, y1)
    ensures Cross(x1, y1, x1, y1) == 0.0
  {
  }

  /** `Math.hypot(x, y)`: the non-negative square root of `x² + y²`. */
  predicate IsHypot(x: real, y: real, length: real)
  {
    length >= 0.0 && length * length == x * x + y * y
  }

  /** `normalize(x, y)` with `length = Math.hypot(x, y)`: the zero vector stays zero. */
  function Normalize(x: real, y: real, length: real): (r: (real, real))
    requires IsHypot(x, y, length)
    ensures length == 0.0 ==> r == (0.0, 0.0)
    ensures length != 0.0 ==> r.0 * length == x && r.1 * length == y
  {
    if length == 0.0 then (0.0, 0.0) else (x / length, y / length)
  }

  /** The zero vector normalises to (0, 0): its hypotenuse is 0. */
  lemma {:induction false} NormalizeZero(length: real)
    requires IsHypot(0.0, 0.0, length)
    ensures Normalize(0.0, 0.0, length) == (0.0, 0.0)
  {
    assert length * length == 0.0;
    if length != 0.0 {
      MulPos(length, length);
    }
  }

  lemma {:induction false} MulPos(a: real, b: real)
    requires a > 0.0 && b > 0.0
    ensures a * b > 0.0
  {
  }

  // ---------------------------------------------------------------------------
  // PhysicsUtils.elasticCollision
  // ---------------------------------------------------------------------------

  /**
   * The velocities after a one-dimensional elastic collision; `None` when
   * `m1 + m2 == 0`, where JavaScript divides by zero.
   */
  function ElasticCollision(v1: real, v2: real, m1: real, m2: real): (r: Option<(real, real)>)
    ensures r.Some? <==> m1 + m2 != 0.0
  {
    if m1 + m2 == 0.0 then None
    else Some((((m1 - m2) * v1 + 2.0 * m2 * v2) / (m1 + m2), ((m2 - m1) * v2 + 2.0 * m1 * v1) / (m1 + m2)))
  }

  /** The collision conserves momentum. */
  lemma {:induction false} MomentumConserved(v1: real, v2: real, m1: real, m2: real)
    requires m1 + m2 != 0.0
    ensures var r := ElasticCollision(v1, v2, m1, m2).value;
      m1 * r.0 + m2 * r.1 == m1 * v1 + m2 * v2
  {
    MomentumNumerators(v1, v2, m1, m2);
    Combine(m1, m2, (m1 - m2) * v1 + 2.0 * m2 * v2, (m2 - m1) * v2 + 2.0 * m1 * v1, m1 + m2);
    DivOfProduct(m1 * v1 + m2 * v2, m1 + m2);
  }

  lemma {:induction false} MomentumNumerators(v1: real, v2: real, m1: real, m2: real)
    ensures m1 * ((m1 - m2) * v1 + 2.0 * m2 * v2) + m2 * ((m2 - m1) * v2 + 2.0 * m1 * v1)
      == (m1 * v1 + m2 * v2) * (m1 + m2)
  {
  }

  lemma {:induction false} Combine(m1: real, m2: real, a: real, b: real, n: real)
    requires n != 0.0
    ensures m1 * (a / n) + m2 * (b / n) == (m1 * a + m2 * b) / n
  {
  }

  /** Equal masses exchange their velocities. */
  lemma {:induction false} EqualMassesSwap(v1: real, v2: real, m: real)
    requires m != 0.0
    ensures ElasticCollision(v1, v2, m, m) == Some((v2, v1))
  {
    var n := m + m;
    assert ElasticCollision(v1, v2, m, m).value.0 == v2 by {
      assert (m - m) * v1 + 2.0 * m * v2 == v2 * n;
      DivOfProduct(v2, n);
    }
    assert ElasticCollision(v1, v2, m, m).value.1 == v1 by {
      assert (m - m) * v2 + 2.0 * m * v1 == v1 * n;
      DivOfProduct(v1, n);
    }
  }

  // ---------------------------------------------------------------------------
  // lerpColor: 24-bit colours through 32-bit integer operators
  // ---------------------------------------------------------------------------

  const TwoTo32: int := 0x1_0000_0000

  /** The signed reading of a 32-bit pattern, as JavaScript's bit operators return it. */
  function Signed32(u: int): (r: int)
    requires 0 <= u < TwoTo32
    ensures -0x8000_0000 <= r < 0x8000_0000
    ensures u < 0x8000_0000 ==> r == u
  {
    if u >= 0x8000_0000 then u - TwoTo32 else u
  }

  /** `x << k` for an integer `x`, with `factor = 2^k`: the product, wrapped to 32 bits. */
  function Shl(x: int, factor: int): int
  {
    Signed32((x * factor) % TwoTo32)
  }

  function Pow2(k: nat): (p: nat)
    ensures p >= 1
  {
    if k == 0 then 1 else 2 * Pow2(k - 1)
  }

  lemma {:induction false} Pow2Bytes()
    ensures Pow2(8) == 256 && Pow2(16) == 65536
  {
    assert Pow2(4) == 16;
    assert Pow2(8) == 256;
    assert Pow2(12) == 4096;
  }

  /** Bitwise or of two naturals, bit by bit from the lowest. */
  function OrNat(a: nat, b: nat): nat
    decreases a + b
  {
    if a == 0 then b
    else if b == 0 then a
    else 2 * OrNat(a / 2, b / 2) + (if a % 2 == 1 || b % 2 == 1 then 1 else 0)
  }

  /** `a | b` on two integers: both taken to 32 bits, or-ed, read back signed. */
  function Or32(a: int, b: int): int
  {
    Signed32(OrNat(a % TwoTo32, b % TwoTo32) % TwoTo32)
  }

  /** Or-ing a value into the zero bits below a shifted one adds it. */
  lemma {:induction false} OrShifted(x: nat, k: nat, y: nat)
    requires y < Pow2(k)
    ensures OrNat(x * Pow2(k), y) == x * Pow2(k) + y
    decreases k
  {
    if k > 0 && x != 0 && y != 0 {
      var p := Pow2(k - 1);
      assert x * Pow2(k) == 2 * (x * p);
      assert (x * Pow2(k)) / 2 == x * p;
      OrShifted(x, k - 1, y / 2);
    }
  }

  /** `(c >> 16) & 0xff`, `(c >> 8) & 0xff` and `c & 0xff` of an integer colour. */
  function Red(c: int): (v: int)
    ensures 0 <= v < 256
  {
    (c / 65536) % 256
  }

  function Green(c: int): (v: int)
    ensures 0 <= v < 256
  {
    (c / 256) % 256
  }

  function Blue(c: int): (v: int)
    ensures 0 <= v < 256
  {
    c % 256
  }

  /** The colour with three 8-bit channels. */
  function Rgb(r: int, g: int, b: int): int
  {
    r * 65536 + g * 256 + b
  }

  /** A 24-bit colour is its three channels put back together. */
  lemma {:induction false} Repack(c: int)
    requires 0 <= c < 0x100_0000
    ensures Rgb(Red(c), Green(c), Blue(c)) == c
  {
    var q := c / 256;
    assert c == 256 * q + c % 256;
    assert q == 256 * (q / 256) + q % 256;
    assert c == 65536 * (q / 256) + (256 * (q % 256) + c % 256);
    assert c / 65536 == q / 256;
    assert q / 256 < 256;
  }

  /** Three channels in 0..255 are one 24-bit colour, and the channels read back. */
  lemma {:induction false} RgbChannels(r: int, g: int, b: int)
    requires 0 <= r < 256 && 0 <= g < 256 && 0 <= b < 256
    ensures 0 <= Rgb(r, g, b) < 0x100_0000
    ensures Red(Rgb(r, g, b)) == r && Green(Rgb(r, g, b)) == g && Blue(Rgb(r, g, b)) == b
  {
    var c := Rgb(r, g, b);
    assert c == 256 * (r * 256 + g) + b;
    assert c / 256 == r * 256 + g;
    assert c == 65536 * r + (g * 256 + b);
    assert c / 65536 == r;
  }

  /** `Math.round`: halves go up. */
  function Round(x: real): int
  {
    (x + 0.5).Floor
  }

  /** One channel of the interpolation. */
  function LerpChannel(s: int, e: int, t: real): int
  {
    Round(s as real + (e - s) as real * t)
  }

  /** `lerpColor(start, end, t)`: interpolate each channel, round, and pack with `<<` and `|`. */
  function LerpColor(start: int, end: int, t: real): int
  {
    var r := LerpChannel(Red(start), Red(end), t);
    var g := LerpChannel(Green(start), Green(end), t);
    var b := LerpChannel(Blue(start), Blue(end), t);
    Or32(Or32(Shl(r, 65536), Shl(g, 256)), b)
  }

  /** With channels in 0..255 the shifts and ors pack exactly like `Rgb`. */
  lemma {:induction false} PackExact(r: int, g: int, b: int)
    requires 0 <= r < 256 && 0 <= g < 256 && 0 <= b < 256
    ensures Or32(Or32(Shl(r, 65536), Shl(g, 256)), b) == Rgb(r, g, b)
  {
    var hi := PackHigh(r, g);
    Pow2Bytes();
    ShlSmall(g, 256);
    assert hi == (r * 256 + g) * Pow2(8);
    OrShifted(r * 256 + g, 8, b);
    OrDisjoint(hi, b);
  }

  /** The red and green shifts or-ed together, as the first `|` of the packing sees them. */
  lemma {:induction false} PackHigh(r: int, g: int) returns (hi: nat)
    requires 0 <= r < 256 && 0 <= g < 256
    ensures hi == r * 65536 + g * 256 && hi < 0x100_0000
    ensures Or32(Shl(r, 65536), Shl(g, 256)) == hi
  {
    hi := r * 65536 + g * 256;
    Pow2Bytes();
    ShlSmall(r, 65536);
    ShlSmall(g, 256);
    OrShifted(r, 16, g * 256);
    OrDisjoint(r * 65536, g * 256);
  }

  /** A shift that stays below 2^31 is a plain multiplication. */
  lemma {:induction false} ShlSmall(x: int, factor: int)
    requires 0 <= x * factor < 0x8000_0000
    ensures Shl(x, factor) == x * factor
  {
  }

  /** Where the or of two naturals below 2^31 adds, so does the 32-bit `|`. */
  lemma {:induction false} OrDisjoint(a: nat, y: nat)
    requires OrNat(a, y) == a + y && a + y < 0x8000_0000
    ensures Or32(a, y) == a + y
  {
    ModSmall(a);
    ModSmall(y);
    ModSmall(a + y);
  }

  lemma {:induction false} ModSmall(x: int)
    requires 0 <= x < TwoTo32
    ensures x % TwoTo32 == x
  {
  }

  /** An interpolated channel stays in 0..255 for t in [0, 1]. */
  lemma {:induction false} LerpChannelWithin(s: int, e: int, t: real)
    requires 0 <= s < 256 && 0 <= e < 256 && 0.0 <= t <= 1.0
    ensures 0 <= LerpChannel(s, e, t) < 256
  {
    LerpBetween(s as real, e as real, t);
    assert Lerp(s as real, e as real, t) == s as real + (e - s) as real * t;
  }

  /**
   * For t in [0, 1] every channel of the result stays in 0..255: the
   * result is the 24-bit colour of the three interpolated channels.
   */
  lemma {:induction false} LerpColorChannels(start: int, end: int, t: real)
    requires 0.0 <= t <= 1.0
    ensures 0 <= LerpColor(start, end, t) < 0x100_0000
    ensures LerpColor(start, end, t) == Rgb(LerpChannel(Red(start), Red(end), t),
      LerpChannel(Green(start), Green(end), t), LerpChannel(Blue(start), Blue(end), t))
  {
    var r := LerpChannel(Red(start), Red(end), t);
    var g := LerpChannel(Green(start), Green(end), t);
    var b := LerpChannel(Blue(start), Blue(end), t);
    LerpChannelWithin(Red(start), Red(end), t);
    LerpChannelWithin(Green(start), Green(end), t);
    LerpChannelWithin(Blue(start), Blue(end), t);
    PackExact(r, g, b);
    RgbChannels(r, g, b);
  }

  /** At t = 0 a 24-bit start colour comes back, at t = 1 the end colour. */
  lemma {:induction false} LerpColorEnds(start: int, end: int)
    requires 0 <= start < 0x100_0000 && 0 <= end < 0x100_0000
    ensures LerpColor(start, end, 0.0) == start
    ensures LerpColor(start, end, 1.0) == end
  {
    assert LerpChannel(Red(start), Red(end), 0.0) == Red(start);
    assert LerpChannel(Green(start), Green(end), 0.0) == Green(start);
    assert LerpChannel(Blue(start), Blue(end), 0.0) == Blue(start);
    PackExact(Red(start), Green(start), Blue(start));
    Repack(start);
    assert LerpChannel(Red(start), Red(end), 1.0) == Red(end);
    assert LerpChannel(Green(start), Green(end), 1.0) == Green(end);
    assert LerpChannel(Blue(start), Blue(end), 1.0) == Blue(end);
    PackExact(Red(end), Green(end), Blue(end));
    Repack(end);
  }
}
