/** Fixed-point bilinear resizing (ai_engine/gpu_preprocess.py): the taps of one
    axis and the two-stage blend of the kernel. */
module Resample {
  import opened Common
  import opened Nv12

  /** Weights are in units of 1 / 2048. */
  const ONE := 2048

  datatype Tap = Tap(first: int, second: int, weight0: int, weight1: int)

  function Coordinate(source: nat, destination: nat, i: nat): real
    requires destination > 0
  {
    (i as real + 0.5) * (source as real / destination as real) - 0.5
  }

  function Clip(x: int, lo: int, hi: int): int {
    Least(Most(x, lo), hi)
  }

  /** No mixing at the edges. */
  function Fraction(c: real, source: nat): real {
    if c.Floor < 0 || c.Floor >= source - 1 then 0.0 else c - c.Floor as real
  }

  function Weighted(first: int, second: int, fraction: real): Tap {
    Tap(first, second, RoundHalfEven((1.0 - fraction) * 2048.0), RoundHalfEven(fraction * 2048.0))
  }

  /** Where output `i` of an axis samples the source. */
  function TapOf(source: nat, destination: nat, i: nat): Tap
    requires source > 0 && destination > 0
  {
    var c := Coordinate(source, destination, i);
    var from := Clip(c.Floor, 0, source - 1);
    Weighted(from, Least(from + 1, source - 1), Fraction(c, source))
  }

  /** Rounding both weights, ties included, never loses or gains a unit. */
  lemma WeightsSum(fraction: real)
    requires 0.0 <= fraction < 1.0
    ensures RoundHalfEven((1.0 - fraction) * 2048.0) + RoundHalfEven(fraction * 2048.0) == ONE
    ensures RoundHalfEven((1.0 - fraction) * 2048.0) >= 0 && RoundHalfEven(fraction * 2048.0) >= 0
  {
    var n := RoundHalfEven(fraction * 2048.0);
    assert (1.0 - fraction) * 2048.0 == 2048.0 - fraction * 2048.0;
    RoundHalfEvenUnique((1.0 - fraction) * 2048.0, ONE - n);
  }

  function ClipReal(x: real, hi: real): real {
    if x < 0.0 then 0.0 else if x > hi then hi else x
  }

  lemma SamplePoint(first: int, weight0: int, weight1: int)
    requires weight0 + weight1 == ONE
    ensures first * weight0 + (first + 1) * weight1 == ONE * first + weight1
  {
  }

  /** Every tap stays inside the source, its weights are not negative and add up
      to exactly one, and the point it samples is the output's coordinate, kept
      inside the source, to within half a unit. */
  lemma TapIsSound(source: nat, destination: nat, i: nat)
    requires source > 0 && destination > 0
    ensures var t := TapOf(source, destination, i);
            && 0 <= t.first <= t.second < source && t.second <= t.first + 1
            && t.weight0 >= 0 && t.weight1 >= 0 && t.weight0 + t.weight1 == ONE
            && var at := 2048.0 * ClipReal(Coordinate(source, destination, i), (source - 1) as real);
               at - 0.5 <= (t.first * t.weight0 + t.second * t.weight1) as real <= at + 0.5
  {
    hide Coordinate;
    var c := Coordinate(source, destination, i);
    WeightsSum(Fraction(c, source));
    var t := TapOf(source, destination, i);
    RoundHalfEvenUnique(0.0, 0);
    if 0 <= c.Floor < source - 1 {
      SamplePoint(t.first, t.weight0, t.weight1);
    } else {
      RoundHalfEvenUnique(2048.0, 2048);
    }
  }

  lemma ScaleMonotone(a: real, b: real, scale: real)
    requires a <= b && scale >= 0.0
    ensures a * scale <= b * scale
  {
  }

  lemma Spread(a: real, b: real, scale: real)
    ensures (a - b) * scale == a * scale - b * scale
  {
  }

  lemma PointBounds(at: real, source: real, destination: real, scale: real)
    requires scale >= 1.0 && destination * scale == source && 0.5 <= at <= destination - 0.5
    ensures 0.5 <= at * scale <= source - 0.5
  {
    ScaleMonotone(0.5, at, scale);
    ScaleMonotone(at, destination - 0.5, scale);
    Spread(destination, 0.5, scale);
  }

  lemma AtLeastOne(source: real, destination: real, scale: real)
    requires 0.0 < destination <= source && scale == source / destination
    ensures scale >= 1.0 && destination * scale == source
  {
    assert scale * destination == source;
    assert scale < 1.0 ==> (1.0 - scale) * destination > 0.0;
  }

  /** Shrinking never samples before the first element, so the lower clip is only
      there for enlarging. */
  lemma ShrinkStaysInside(source: nat, destination: nat, i: nat)
    requires 0 < destination <= source && i < destination
    ensures 0.0 <= Coordinate(source, destination, i) < source as real - 0.5
  {
    var scale := source as real / destination as real;
    AtLeastOne(source as real, destination as real, scale);
    PointBounds(i as real + 0.5, source as real, destination as real, scale);
  }

  // -- the table -------------------------------------------------------------------

  function RowOf(table: seq<int>, i: nat): Tap
    requires 4 * i + 3 < |table|
  {
    Tap(table[4 * i], table[4 * i + 1], table[4 * i + 2], table[4 * i + 3])
  }

  predicate TableOf(table: seq<int>, source: nat, destination: nat)
    requires source > 0 && destination > 0
  {
    |table| == 4 * destination && forall i :: 0 <= i < destination ==> RowOf(table, i) == TapOf(source, destination, i)
  }

  /** The whole-array steps of the table: coordinates, their floors, and the
      fractions, then overwritten with zero at the edges. */
  method Fractions(source: nat, destination: nat) returns (first: array<int>, fraction: array<real>)
    requires source > 0 && destination > 0
    ensures fresh(first) && fresh(fraction) && first.Length == fraction.Length == destination
    ensures forall k :: 0 <= k < destination ==> first[k] == Coordinate(source, destination, k).Floor
    ensures forall k :: 0 <= k < destination ==> fraction[k] == Fraction(Coordinate(source, destination, k), source)
  {
    hide Coordinate;
    first, fraction := new int[destination], new real[destination];
    for i := 0 to destination
      invariant forall k :: 0 <= k < i ==> first[k] == Coordinate(source, destination, k).Floor
      invariant forall k :: 0 <= k < i ==> fraction[k] == Coordinate(source, destination, k) - first[k] as real
    {
      var c := Coordinate(source, destination, i);
      first[i] := c.Floor;
      fraction[i] := c - first[i] as real;
    }
    for i := 0 to destination
      invariant forall k :: i <= k < destination ==>
                  fraction[k] == Coordinate(source, destination, k) - first[k] as real
      invariant forall k :: 0 <= k < i ==> fraction[k] == Fraction(Coordinate(source, destination, k), source)
      modifies fraction
    {
      if first[i] < 0 || first[i] >= source - 1 {
        fraction[i] := 0.0;
      }
    }
  }

  method SetRow(table: array<int>, i: nat, t: Tap)
    requires 4 * i + 3 < table.Length
    modifies table
    ensures RowOf(table[..], i) == t
    ensures forall k: nat :: 4 * k + 3 < table.Length && k != i ==> RowOf(table[..], k) == old(RowOf(table[..], k))
  {
    table[4 * i], table[4 * i + 1], table[4 * i + 2], table[4 * i + 3] := t.first, t.second, t.weight0, t.weight1;
  }

  method Axis(source: nat, destination: nat) returns (table: array<int>)
    requires source > 0 && destination > 0
    ensures fresh(table) && TableOf(table[..], source, destination)
  {
    hide Coordinate, Fraction, Weighted, RowOf;
    var first, fraction := Fractions(source, destination);
    table := new int[4 * destination];
    for i := 0 to destination
      invariant forall k :: 0 <= k < i ==> RowOf(table[..], k) == TapOf(source, destination, k)
      modifies table
    {
      var from := Clip(first[i], 0, source - 1);
      SetRow(table, i, Weighted(from, Least(from + 1, source - 1), fraction[i]));
    }
  }

  // -- the blend -------------------------------------------------------------------

  /** Four grey values; `g01` is the one below `g00`. */
  datatype Corners = Corners(g00: int, g10: int, g01: int, g11: int)

  predicate Bytes(g: Corners) {
    IsByte(g.g00) && IsByte(g.g10) && IsByte(g.g01) && IsByte(g.g11)
  }

  predicate Weights(a0: int, a1: int) {
    a0 >= 0 && a1 >= 0 && a0 + a1 == ONE
  }

  function Half(b: int, s: int): int {
    (b * (s / 16)) / 65536
  }

  /** Across, then down, with the bits dropped where the kernel drops them. */
  function Blend(g: Corners, a0: int, a1: int, b0: int, b1: int): int {
    (Half(b0, g.g00 * a0 + g.g10 * a1) + Half(b1, g.g01 * a0 + g.g11 * a1) + 2) / 4
  }

  function Lowest(g: Corners): int {
    Least(Least(g.g00, g.g10), Least(g.g01, g.g11))
  }

  function Highest(g: Corners): int {
    Most(Most(g.g00, g.g10), Most(g.g01, g.g11))
  }

  lemma OneTimes(x: int, a0: int, a1: int)
    requires a0 + a1 == ONE
    ensures a0 * x + a1 * x == ONE * x
  {
    assert (a0 + a1) * x == a0 * x + a1 * x;
  }

  lemma TimesMonotone(b: int, x: int, y: int)
    requires 0 <= b && x <= y
    ensures b * x <= b * y
  {
  }

  lemma MeanIsBetween(x: int, y: int, a0: int, a1: int, lo: int, hi: int)
    requires Weights(a0, a1) && lo <= x <= hi && lo <= y <= hi
    ensures ONE * lo <= x * a0 + y * a1 <= ONE * hi
  {
    TimesMonotone(a0, lo, x);
    TimesMonotone(a0, x, hi);
    TimesMonotone(a1, lo, y);
    TimesMonotone(a1, y, hi);
    OneTimes(lo, a0, a1);
    OneTimes(hi, a0, a1);
  }

  lemma Pull(b: int, q: int, s: int)
    ensures b * (16 * q) == 16 * (b * q) && b * (s - 16) == b * s - 16 * b
  {
  }

  lemma Scaled(b: int, q: int, s: int)
    requires 0 <= b && s - 15 <= 16 * q <= s
    ensures b * s - 16 * b <= 16 * (b * q) <= b * s
  {
    TimesMonotone(b, s - 16, 16 * q);
    TimesMonotone(b, 16 * q, s);
    Pull(b, q, s);
  }

  /** One half of the blend against its exact value, `b * s / 2 ** 20`. */
  lemma HalfIsNear(b: int, s: int)
    requires 0 <= b <= ONE
    ensures b * s - 16 * b - 0x10_0000 < 0x10_0000 * Half(b, s) <= b * s
  {
    var q := s / 16;
    assert s - 15 <= 16 * q <= s;
    Scaled(b, q, s);
  }

  /** Exact halves of a constant grey `g` add up to `4 g`, so rounding down loses
      at most one and the blend gives `g` back. */
  lemma HalfMonotone(b: int, s: int, t: int)
    requires 0 <= b && s <= t
    ensures Half(b, s) <= Half(b, t)
  {
    assert s / 16 <= t / 16;
    assert b * (s / 16) <= b * (t / 16);
  }

  lemma ConstantBlend(g: int, b0: int, b1: int)
    requires Weights(b0, b1)
    ensures (Half(b0, ONE * g) + Half(b1, ONE * g) + 2) / 4 == g
  {
    assert (ONE * g) / 16 == 128 * g;
    var x, y := b0 * (128 * g), b1 * (128 * g);
    assert x + y == (b0 + b1) * (128 * g) == 262144 * g;
  }

  /** A resized pixel lies between the darkest and the brightest of its four
      source pixels; four equal ones are reproduced. */
  lemma BlendIsBetween(g: Corners, a0: int, a1: int, b0: int, b1: int)
    requires Weights(a0, a1) && Weights(b0, b1)
    ensures Lowest(g) <= Blend(g, a0, a1, b0, b1) <= Highest(g)
  {
    hide Half;
    var lo, hi := Lowest(g), Highest(g);
    var s0, s1 := g.g00 * a0 + g.g10 * a1, g.g01 * a0 + g.g11 * a1;
    MeanIsBetween(g.g00, g.g10, a0, a1, lo, hi);
    MeanIsBetween(g.g01, g.g11, a0, a1, lo, hi);
    HalfMonotone(b0, ONE * lo, s0);
    HalfMonotone(b1, ONE * lo, s1);
    HalfMonotone(b0, s0, ONE * hi);
    HalfMonotone(b1, s1, ONE * hi);
    ConstantBlend(lo, b0, b1);
    ConstantBlend(hi, b0, b1);
  }

  /** It is within one grey level of the exact bilinear interpolation, which is
      the sum below divided by 2048 twice. */
  lemma BlendIsNear(g: Corners, a0: int, a1: int, b0: int, b1: int)
    requires Weights(a0, a1) && Weights(b0, b1)
    ensures var exact := b0 * (g.g00 * a0 + g.g10 * a1) + b1 * (g.g01 * a0 + g.g11 * a1);
            ONE * ONE * (Blend(g, a0, a1, b0, b1) - 1) < exact < ONE * ONE * (Blend(g, a0, a1, b0, b1) + 1)
  {
    hide Half;
    HalfIsNear(b0, g.g00 * a0 + g.g10 * a1);
    HalfIsNear(b1, g.g01 * a0 + g.g11 * a1);
  }

  lemma ProductFits(b: int, q: int)
    requires 0 <= b <= ONE && 0 <= q <= 32640
    ensures 0 <= b * q <= 2048 * 32640
  {
    TimesMonotone(b, q, 32640);
    TimesMonotone(b, 0, q);
  }

  /** Nothing the blend computes leaves 32 bits. */
  lemma BlendFits(g: Corners, a0: int, a1: int, b0: int, b1: int)
    requires Bytes(g) && Weights(a0, a1) && Weights(b0, b1)
    ensures var s0, s1 := g.g00 * a0 + g.g10 * a1, g.g01 * a0 + g.g11 * a1;
            && FitsInt32(s0) && FitsInt32(s1) && FitsInt32(b0 * (s0 / 16)) && FitsInt32(b1 * (s1 / 16))
    ensures IsByte(Blend(g, a0, a1, b0, b1))
  {
    hide Blend, Half;
    var s0, s1 := g.g00 * a0 + g.g10 * a1, g.g01 * a0 + g.g11 * a1;
    MeanIsBetween(g.g00, g.g10, a0, a1, 0, 255);
    MeanIsBetween(g.g01, g.g11, a0, a1, 0, 255);
    ProductFits(b0, s0 / 16);
    ProductFits(b1, s1 / 16);
    BlendIsBetween(g, a0, a1, b0, b1);
  }
}
