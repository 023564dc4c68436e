/**
 * Colours, `blendColors` and the two tab colorizers of the tab strip:
 * the default one, which indexes its indicator and divider colour arrays
 * circularly, and a custom one supplied by the application.
 */
module Colors {
  import opened Wrappers
  import opened JavaLang

  type Byte = x: int | 0 <= x < 256

  /** An ARGB colour `0xAARRGGBB`, one byte per channel. */
  datatype Color = Color(alpha: Byte, red: Byte, green: Byte, blue: Byte)

  /** `c` lies between `lo` and `hi`, in whichever order they come. */
  predicate Between(c: int, lo: int, hi: int) {
    (lo <= c <= hi) || (hi <= c <= lo)
  }

  /** One channel of `blendColors`: `(int) (c1 * ratio + c2 * (1 - ratio))`. */
  function MixChannel(c1: Byte, c2: Byte, ratio: real): (m: Byte)
    requires 0.0 <= ratio <= 1.0
    ensures Between(m, c1, c2)
    ensures ratio == 1.0 ==> m == c1
    ensures ratio == 0.0 ==> m == c2
    ensures c1 == c2 ==> m == c1
  {
    MixTrunc(c1, c2, ratio);
    Trunc(c1 as real * ratio + c2 as real * (1.0 - ratio))
  }

  /** The truncated mix of two integers lies between them and keeps the end points. */
  lemma MixTrunc(c1: int, c2: int, t: real)
    requires 0.0 <= t <= 1.0
    ensures var m := Trunc(c1 as real * t + c2 as real * (1.0 - t));
      && Between(m, c1, c2)
      && (t == 1.0 ==> m == c1)
      && (t == 0.0 ==> m == c2)
      && (c1 == c2 ==> m == c1)
  {
    var x := c1 as real * t + c2 as real * (1.0 - t);
    var d := (c1 - c2) as real;
    var p := d * t;
    MixAsOffset(c1 as real, c2 as real, t, x, p);
    ScaledEnds(d, t, p);
    if c2 <= c1 {
      ScaledWithin(d, t, p);
      TruncWithin(x, c2, c1);
    } else {
      ScaledWithin(-d, t, -p) by {
        assert -p == -d * t;
      }
      TruncWithin(x, c1, c2);
    }
    TruncOfInt(c1);
    TruncOfInt(c2);
  }

  /** `a * t + b * (1 - t)` is `b` moved by `(a - b) * t`. */
  lemma MixAsOffset(a: real, b: real, t: real, x: real, p: real)
    requires x == a * t + b * (1.0 - t) && p == (a - b) * t
    ensures x == b + p
  {
  }

  /** A scaling by 1 keeps the value, a scaling by 0 annuls it. */
  lemma ScaledEnds(d: real, t: real, p: real)
    requires p == d * t
    ensures t == 1.0 ==> p == d
    ensures t == 0.0 ==> p == 0.0
  {
  }

  /** A part `t` in [0, 1] of a non-negative `d` lies between 0 and `d`. */
  lemma ScaledWithin(d: real, t: real, p: real)
    requires 0.0 <= d && 0.0 <= t <= 1.0 && p == d * t
    ensures 0.0 <= p <= d
  {
    assert d - p == d * (1.0 - t);
  }

  /**
   * `blendColors(color1, color2, ratio)`: ratio 1 gives color1's channels,
   * ratio 0 gives color2's, and in between each channel lies between the two
   * inputs' channels. `Color.rgb` makes the result opaque.
   */
  function BlendColors(color1: Color, color2: Color, ratio: real): (c: Color)
    requires 0.0 <= ratio <= 1.0
    ensures c.alpha == 0xFF
    ensures Between(c.red, color1.red, color2.red)
    ensures Between(c.green, color1.green, color2.green)
    ensures Between(c.blue, color1.blue, color2.blue)
    ensures ratio == 1.0 ==> SameRgb(c, color1)
    ensures ratio == 0.0 ==> SameRgb(c, color2)
    ensures SameRgb(color1, color2) ==> SameRgb(c, color1)
  {
    Color(0xFF,
          MixChannel(color1.red, color2.red, ratio),
          MixChannel(color1.green, color2.green, ratio),
          MixChannel(color1.blue, color2.blue, ratio))
  }

  predicate SameRgb(c: Color, d: Color) {
    c.red == d.red && c.green == d.green && c.blue == d.blue
  }

  /** The application's `TabColorizer`: a colour for every position. */
  datatype CustomColorizer = CustomColorizer(indicatorColor: int -> Color, dividerColor: int -> Color)

  /** The colorizer a draw pass uses. */
  datatype TabColorizer =
    | Simple(indicatorColors: seq<Color>, dividerColors: seq<Color>)
    | Custom(colorizer: CustomColorizer)

  /**
   * `colors[position % colors.length]` with Java's semantics: an empty array
   * makes `%` divide by zero, and a negative remainder is an index out of bounds.
   */
  function CircularLookup(colors: seq<Color>, position: int): (r: Result<Color, Exception>)
    ensures |colors| == 0 <==> r == Failure(Arithmetic)
    ensures |colors| > 0 && 0 <= position ==> r == Success(colors[position % |colors|])
    ensures |colors| > 0 && position < 0 ==>
      (r.Success? <==> position % |colors| == 0) &&
      (r.Success? ==> r.value == colors[0]) &&
      (r.Failure? ==> r.error == ArrayIndexOutOfBounds)
  {
    if |colors| == 0 then Failure(Arithmetic)
    else
      var i := Rem(position, |colors|);
      if i < 0 then Failure(ArrayIndexOutOfBounds) else Success(colors[i])
  }

  /** `getIndicatorColor(position)` of the colorizer. */
  function IndicatorColor(tc: TabColorizer, position: int): Result<Color, Exception> {
    match tc
    case Simple(colors, _) => CircularLookup(colors, position)
    case Custom(c) => Success(c.indicatorColor(position))
  }

  /** `getDividerColor(position)` of the colorizer. */
  function DividerColor(tc: TabColorizer, position: int): Result<Color, Exception> {
    match tc
    case Simple(_, colors) => CircularLookup(colors, position)
    case Custom(c) => Success(c.dividerColor(position))
  }

  /** The colour arrays are circular: positions one period apart get the same colour. */
  lemma {:induction false} CircularPeriodic(colors: seq<Color>, position: int, k: nat)
    requires 0 <= position
    ensures CircularLookup(colors, position + k * |colors|) == CircularLookup(colors, position)
  {
    if |colors| > 0 && k > 0 {
      var n := |colors|;
      var a := position + (k - 1) * n;
      CircularPeriodic(colors, position, k - 1);
      assert position + k * n == a + n;
      ModUnique(a + n, n, a / n + 1, a % n);
    }
  }

  /** With a single colour every position gets that colour: Java's `position % 1` is 0 for negative positions too. */
  lemma SingleColorEverywhere(c: Color, position: int)
    ensures CircularLookup([c], position) == Success(c)
  {
  }

  /** A default colorizer with non-empty arrays answers every non-negative position. */
  lemma SimpleColorizerTotal(tc: TabColorizer, position: int)
    requires tc.Simple? && |tc.indicatorColors| > 0 && |tc.dividerColors| > 0 && 0 <= position
    ensures IndicatorColor(tc, position) == Success(tc.indicatorColors[position % |tc.indicatorColors|])
    ensures DividerColor(tc, position) == Success(tc.dividerColors[position % |tc.dividerColors|])
  {
  }
}
