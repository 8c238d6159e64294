/** What the fixed-point resize approximates: bilinear interpolation at the centre
    of each output pixel, in exact arithmetic. */
module Bilinear {
  import opened Common
  import opened Nv12
  import opened Resample

  function Lerp(a: real, b: real, f: real): real {
    a + f * (b - a)
  }

  /** Where the centre of output `i` falls in the source, kept inside it. */
  function Position(source: nat, destination: nat, i: nat): (u: real)
    requires source > 0 && destination > 0
    ensures 0.0 <= u <= (source - 1) as real
  {
    var c := (i as real + 0.5) * (source as real / destination as real) - 0.5;
    if c < 0.0 then 0.0 else if c > (source - 1) as real then (source - 1) as real else c
  }

  /** The kernel's grey value at a point between the pixels of a frame. */
  function GrayBetween(p: seq<int>, pitch: nat, h: nat, w: nat, full: bool, u: real, v: real): real
    requires Plane(p, pitch, h, w) && 0.0 <= u <= (w - 1) as real && 0.0 <= v <= (h - 1) as real
  {
    var x0, y0 := u.Floor, v.Floor;
    var x1, y1 := if x0 + 1 < w then x0 + 1 else w - 1, if y0 + 1 < h then y0 + 1 else h - 1;
    var above := Lerp(GrayAt(p, pitch, h, w, x0, y0, full) as real, GrayAt(p, pitch, h, w, x1, y0, full) as real,
                      u - x0 as real);
    var below := Lerp(GrayAt(p, pitch, h, w, x0, y1, full) as real, GrayAt(p, pitch, h, w, x1, y1, full) as real,
                      u - x0 as real);
    Lerp(above, below, v - y0 as real)
  }

  /** A tap takes the two neighbours of its position, weighted to within half a
      unit. */
  lemma TapIsPosition(source: nat, destination: nat, i: nat)
    requires source > 0 && destination > 0
    ensures var t, u := TapOf(source, destination, i), Position(source, destination, i);
            && t.first == u.Floor && t.second == (if u.Floor + 1 < source then u.Floor + 1 else source - 1)
            && t.weight0 == ONE - t.weight1
            && -0.5 <= t.weight1 as real - 2048.0 * (u - u.Floor as real) <= 0.5
  {
    var c := Coordinate(source, destination, i);
    hide Coordinate;
    WeightsSum(Fraction(c, source));
    RoundHalfEvenUnique(0.0, 0);
  }

  predicate Close(a: real, b: real, d: real) {
    -d <= a - b <= d
  }

  lemma SizeTimes(size: real, y: real, d: real, most: real)
    requires 0.0 <= size <= d && -most <= y <= most
    ensures -(d * most) <= size * y <= d * most
  {
    var p, q, r := y * size, most * size, d * most;
    ScaleMonotone(y, most, size);
    ScaleMonotone(-y, most, size);
    ScaleMonotone(size, d, most);
    assert (-y) * size == -p;
    assert p <= q && -p <= q && q <= r;
  }

  lemma ProductClose(x: real, y: real, d: real, most: real)
    requires Close(x, 0.0, d) && Close(y, 0.0, most)
    ensures Close(x * y, 0.0, d * most)
  {
    if x >= 0.0 {
      SizeTimes(x, y, d, most);
    } else {
      SizeTimes(-x, y, d, most);
      assert (-x) * y == -(x * y);
    }
  }

  /** Interpolating with a weight that is off by `d`. */
  lemma WeightClose(a: real, b: real, f: real, f': real, d: real)
    requires 0.0 <= a <= 255.0 && 0.0 <= b <= 255.0 && Close(f', f, d) && d >= 0.0
    ensures Close(Lerp(a, b, f'), Lerp(a, b, f), d * 255.0)
  {
    ProductClose(f' - f, b - a, d, 255.0);
    assert Lerp(a, b, f') - Lerp(a, b, f) == (f' - f) * (b - a);
  }

  lemma LerpIsMean(a: real, b: real, f: real, rest: real)
    requires rest == 1.0 - f
    ensures Lerp(a, b, f) == a * rest + b * f
  {
    assert f * (b - a) == b * f - a * f;
    assert a * rest == a - a * f;
  }

  lemma Whole(x: real, f: real, rest: real)
    requires f + rest == 1.0
    ensures x * rest + x * f == x
  {
    assert x * (rest + f) == x * rest + x * f;
  }

  lemma SumsInOrder(p: real, q: real, p': real, q': real)
    requires p <= p' && q <= q'
    ensures p + q <= p' + q'
  {
  }

  lemma MeanAtLeast(a: real, b: real, f: real, low: real)
    requires 0.0 <= f <= 1.0 && low <= a && low <= b
    ensures low <= Lerp(a, b, f)
  {
    hide Lerp;
    var rest := 1.0 - f;
    LerpIsMean(a, b, f, rest);
    Whole(low, f, rest);
    ScaleMonotone(low, a, rest);
    ScaleMonotone(low, b, f);
    SumsInOrder(low * rest, low * f, a * rest, b * f);
  }

  lemma MeanInside(a: real, b: real, f: real, low: real, high: real)
    requires 0.0 <= f <= 1.0 && low <= a <= high && low <= b <= high
    ensures low <= Lerp(a, b, f) <= high
  {
    MeanAtLeast(a, b, f, low);
    MeanAtLeast(-a, -b, f, -high);
    assert f * (-b - -a) == -(f * (b - a));
  }

  /** Interpolating between values that are off by `d`. */
  lemma EndsClose(a: real, b: real, a': real, b': real, f: real, d: real)
    requires 0.0 <= f <= 1.0 && Close(a', a, d) && Close(b', b, d)
    ensures Close(Lerp(a', b', f), Lerp(a, b, f), d)
  {
    MeanInside(a' - a, b' - b, f, -d, d);
    assert f * (b' - a') - f * (b - a) == f * ((b' - b) - (a' - a));
  }

  const UNIT := 0.5 / 2048.0

  /** Four byte values interpolated with weights in units of 1 / 2048. */
  lemma CornersClose(g: Corners, fx: real, fx': real, fy: real, fy': real)
    requires Bytes(g) && 0.0 <= fx <= 1.0 && 0.0 <= fy <= 1.0 && 0.0 <= fx' <= 1.0 && 0.0 <= fy' <= 1.0
    requires Close(fx', fx, UNIT) && Close(fy', fy, UNIT)
    ensures Close(Lerp(Lerp(g.g00 as real, g.g10 as real, fx'), Lerp(g.g01 as real, g.g11 as real, fx'), fy'),
                  Lerp(Lerp(g.g00 as real, g.g10 as real, fx), Lerp(g.g01 as real, g.g11 as real, fx), fy), 0.125)
  {
    hide Lerp;
    var above, above' := Lerp(g.g00 as real, g.g10 as real, fx), Lerp(g.g00 as real, g.g10 as real, fx');
    var below, below' := Lerp(g.g01 as real, g.g11 as real, fx), Lerp(g.g01 as real, g.g11 as real, fx');
    WeightClose(g.g00 as real, g.g10 as real, fx, fx', UNIT);
    WeightClose(g.g01 as real, g.g11 as real, fx, fx', UNIT);
    MeanInside(g.g00 as real, g.g10 as real, fx', 0.0, 255.0);
    MeanInside(g.g01 as real, g.g11 as real, fx', 0.0, 255.0);
    WeightClose(above', below', fy, fy', UNIT);
    EndsClose(above, below, above', below', fy, UNIT * 255.0);
  }

  lemma LerpOfWeights(a: int, b: int, weight1: int)
    ensures 2048.0 * Lerp(a as real, b as real, weight1 as real / 2048.0)
         == (a * (ONE - weight1) + b * weight1) as real
  {
    var f := weight1 as real / 2048.0;
    assert 2048.0 * f == weight1 as real;
    assert 2048.0 * (f * (b - a) as real) == weight1 as real * (b - a) as real;
    assert (weight1 * (b - a)) as real == weight1 as real * (b - a) as real;
    assert a * (ONE - weight1) + b * weight1 == ONE * a + weight1 * (b - a);
  }

  lemma LerpScales(a: real, b: real, f: real, k: real)
    ensures k * Lerp(a, b, f) == Lerp(k * a, k * b, f)
  {
    assert k * (f * (b - a)) == f * (k * b - k * a);
  }

  /** The kernel's blend against interpolation with the same weights. */
  lemma BlendIsLerp(g: Corners, a1: int, b1: int)
    requires Weights(ONE - a1, a1) && Weights(ONE - b1, b1)
    ensures var exact := Lerp(Lerp(g.g00 as real, g.g10 as real, a1 as real / 2048.0),
                              Lerp(g.g01 as real, g.g11 as real, a1 as real / 2048.0), b1 as real / 2048.0);
            exact - 1.0 < Blend(g, ONE - a1, a1, ONE - b1, b1) as real < exact + 1.0
  {
    hide Blend, Lerp;
    BlendIsNear(g, ONE - a1, a1, ONE - b1, b1);
    var fx, fy := a1 as real / 2048.0, b1 as real / 2048.0;
    var above, below := g.g00 * (ONE - a1) + g.g10 * a1, g.g01 * (ONE - a1) + g.g11 * a1;
    LerpOfWeights(g.g00, g.g10, a1);
    LerpOfWeights(g.g01, g.g11, a1);
    LerpOfWeights(above, below, b1);
    LerpScales(Lerp(g.g00 as real, g.g10 as real, fx), Lerp(g.g01 as real, g.g11 as real, fx), fy, 2048.0);
    var exact := Lerp(Lerp(g.g00 as real, g.g10 as real, fx), Lerp(g.g01 as real, g.g11 as real, fx), fy);
    assert 2048.0 * (2048.0 * exact) == ((ONE - b1) * above + b1 * below) as real;
  }

  /** With taps for positions whose fractions are `fx` and `fy`, the blend is within
      1.125 grey levels of the interpolation there. */
  lemma BlendIsInterpolation(g: Corners, a1: int, b1: int, fx: real, fy: real)
    requires Bytes(g) && Weights(ONE - a1, a1) && Weights(ONE - b1, b1)
    requires 0.0 <= fx <= 1.0 && 0.0 <= fy <= 1.0
    requires Close(a1 as real, 2048.0 * fx, 0.5) && Close(b1 as real, 2048.0 * fy, 0.5)
    ensures var exact := Lerp(Lerp(g.g00 as real, g.g10 as real, fx), Lerp(g.g01 as real, g.g11 as real, fx), fy);
            -1.125 < Blend(g, ONE - a1, a1, ONE - b1, b1) as real - exact < 1.125
  {
    hide Blend, Lerp;
    BlendIsLerp(g, a1, b1);
    CornersClose(g, fx, a1 as real / 2048.0, fy, b1 as real / 2048.0);
  }

  // -- the grey value by the standard ---------------------------------------------------

  /** The luminance ITU-R BT.601 gives one pixel. */
  function StandardGray(y: int, u: int, v: int, full: bool): real {
    0.299 * ClampReal(ExactRed(y, v, full)) + 0.587 * ClampReal(ExactGreen(y, u, v, full))
    + 0.114 * ClampReal(ExactBlue(y, u, full))
  }

  lemma FoldIsStandard(y: int, u: int, v: int, full: bool)
    requires IsByte(y) && IsByte(u) && IsByte(v)
    ensures -3.3 <= Fold(Pixel(y, u, v, full)) as real - StandardGray(y, u, v, full) <= 0.7
  {
    hide Pixel, Fold, ClampReal, ExactRed, ExactGreen, ExactBlue;
    CloseToStandard(y, u, v, full);
    FoldIsLuminance(Pixel(y, u, v, full));
  }

  /** The grey value the kernel reads at column `x`, row `y` is the standard
      luminance of the bytes stored for that pixel: its own luma, and the U and V,
      in that order, of the two by two block it is in. */
  lemma GrayIsStandard(p: seq<int>, pitch: nat, h: nat, w: nat, x: nat, y: nat, full: bool)
    requires Plane(p, pitch, h, w) && x < w && y < h
    ensures 0 <= y * pitch + x < |p| && 0 <= (h + y / 2) * pitch + 2 * (x / 2) < |p| - 1
    ensures var at := (h + y / 2) * pitch + 2 * (x / 2);
            -3.3 <= GrayAt(p, pitch, h, w, x, y, full) as real
                    - StandardGray(p[y * pitch + x], p[at], p[at + 1], full) <= 0.7
  {
    hide Fold, GrayOf, StandardGray, Pixel;
    ReadsInside(p, pitch, h, w, x, y);
    RowsInOrder(0, y, pitch);
    RowsInOrder(0, h + y / 2, pitch);
    var at := ChromaOffset(pitch, h, x, y);
    var luma := LumaOffset(pitch, x, y);
    FoldIsStandard(p[luma], p[at], p[at + 1], full);
    GrayIsFold(p[luma], p[at], p[at + 1], full);
  }
}
