/** Fitting a frame into the model input (ai_engine/gpu_preprocess.py): the
    padding geometry and the kernel that fills the three channels. */
module Letterbox {
  import opened Bilinear
  import opened Common
  import opened Nv12
  import opened Resample

  const SIDE := 640
  const STRIDE := 32
  const GREY := 114

  /** The padded size, the size of the image in it, and where it starts. */
  datatype Box = Box(oh: nat, ow: nat, rh: nat, rw: nat, top: nat, left: nat)

  datatype Geometry = Fits(box: Box) | Unsupported | DivisionByZero

  function Ratio(h: nat, w: nat): real
    requires h > 0 && w > 0
  {
    if SIDE as real / h as real <= SIDE as real / w as real then SIDE as real / h as real else SIDE as real / w as real
  }

  function Margin(pad: nat): int {
    RoundHalfEven(pad as real / 2.0 - 0.1)
  }

  /** One side of the scaled image. */
  function Scaled(side: nat, h: nat, w: nat): int
    requires h > 0 && w > 0
  {
    RoundHalfEven(side as real * Ratio(h, w))
  }

  function Padding(scaled: nat, square: bool): nat
    requires scaled <= SIDE
  {
    if square then SIDE - scaled else (SIDE - scaled) % STRIDE
  }

  /** The margin is half the padding, rounded down. */
  lemma HalfMargin(pad: nat)
    ensures Margin(pad) == pad / 2
  {
    RoundHalfEvenUnique(pad as real / 2.0 - 0.1, pad / 2);
  }

  lemma Inverse(a: real, b: real)
    requires a >= b > 0.0
    ensures 640.0 / a <= 640.0 / b
  {
    var x, y := 640.0 / a, 640.0 / b;
    assert x * a == 640.0 && y * b == 640.0;
    assert y * a >= y * b;
    assert x > y ==> x * a > y * a;
  }

  lemma LongerDecides(h: nat, w: nat)
    requires h > 0 && w > 0
    ensures Ratio(h, w) == 640.0 / Most(h, w) as real
  {
    if h >= w {
      Inverse(h as real, w as real);
    } else {
      Inverse(w as real, h as real);
    }
  }

  lemma RatioAtMostOne(m: nat)
    requires m > 0
    ensures 640.0 / m as real <= 1.0 <==> m >= SIDE
  {
    var ratio := 640.0 / m as real;
    assert ratio * m as real == 640.0;
    assert ratio <= 1.0 ==> ratio * m as real <= m as real;
    assert ratio > 1.0 ==> ratio * m as real > m as real;
  }

  lemma RatioIff(h: nat, w: nat)
    requires h > 0 && w > 0
    ensures Ratio(h, w) == 640.0 / Most(h, w) as real
    ensures Ratio(h, w) <= 1.0 <==> Most(h, w) >= SIDE
  {
    hide Ratio;
    LongerDecides(h, w);
    RatioAtMostOne(Most(h, w));
  }

  /** A side's share of 640, before rounding. */
  function Portion(side: nat, m: nat): real
    requires m > 0
  {
    side as real * (640.0 / m as real)
  }

  lemma Shrinks(a: real, ratio: real)
    requires a >= 0.0 && 0.0 <= ratio <= 1.0
    ensures 0.0 <= a * ratio <= a
  {
    assert a * (1.0 - ratio) >= 0.0;
  }

  lemma Within(ratio: real, m: real)
    requires ratio * m == 640.0 && m >= 640.0
    ensures 0.0 <= ratio <= 1.0
  {
    assert ratio < 0.0 ==> ratio * m < 0.0;
    assert ratio > 1.0 ==> ratio * m > 1.0 * m;
  }

  lemma ShareOf(x: real, side: real, m: real, ratio: real)
    requires x == side * ratio && ratio * m == 640.0 && 0.0 <= side <= m && m >= 640.0
    ensures 0.0 <= x <= side && x <= 640.0 && (side == m ==> x == 640.0)
  {
    Within(ratio, m);
    Shrinks(side, ratio);
    ScaleMonotone(side, m, ratio);
  }

  lemma SameProduct(a: real, x: real, y: real)
    requires x == y
    ensures a * x == a * y == x * a
  {
  }

  lemma PortionIs(side: nat, m: nat, ratio: real)
    requires m > 0 && ratio == 640.0 / m as real
    ensures Portion(side, m) == side as real * ratio
  {
    SameProduct(side as real, ratio, 640.0 / m as real);
  }

  /** A side scaled by 640 over the longer one. */
  lemma Share(side: nat, m: nat)
    requires side <= m && m >= SIDE
    ensures 0.0 <= Portion(side, m) <= side as real
    ensures Portion(side, m) <= 640.0
    ensures side == m ==> Portion(side, m) == 640.0
  {
    hide Portion;
    var ratio := 640.0 / m as real;
    assert ratio * m as real == 640.0;
    PortionIs(side, m, ratio);
    ShareOf(Portion(side, m), side as real, m as real, ratio);
  }

  lemma RoundAtMost(x: real, n: nat)
    requires 0.0 <= x <= n as real
    ensures 0 <= RoundHalfEven(x) <= n
  {
  }

  lemma PortionTimes(side: nat, m: nat)
    requires m > 0
    ensures Portion(side, m) * m as real == 640.0 * side as real
  {
    var ratio := 640.0 / m as real;
    assert ratio * m as real == 640.0;
    assert side as real * ratio * m as real == side as real * (ratio * m as real);
  }

  lemma HalfIff(x: real, m: real, side: real)
    requires x * m == 640.0 * side && m > 0.0
    ensures x <= 0.5 <==> 1280.0 * side <= m
  {
    if x <= 0.5 {
      ScaleMonotone(x, 0.5, m);
    } else {
      assert (x - 0.5) * m > 0.0;
    }
  }

  lemma RoundsToZero(side: nat, m: nat)
    requires 0 < side <= m && m >= SIDE
    ensures RoundHalfEven(Portion(side, m)) == 0 <==> m >= 2 * SIDE * side
  {
    hide Portion;
    var x := Portion(side, m);
    Share(side, m);
    PortionTimes(side, m);
    HalfIff(x, m as real, side as real);
    if x <= 0.5 {
      RoundHalfEvenUnique(x, 0);
    }
  }

  lemma ScaledIsPortion(side: nat, h: nat, w: nat)
    requires h > 0 && w > 0
    ensures Scaled(side, h, w) == RoundHalfEven(Portion(side, Most(h, w)))
  {
    hide Ratio;
    LongerDecides(h, w);
    SameProduct(side as real, Ratio(h, w), 640.0 / Most(h, w) as real);
    assert side as real * Ratio(h, w) == Portion(side, Most(h, w));
  }

  lemma ScaledBounds(side: nat, h: nat, w: nat)
    requires h > 0 && w > 0 && 0 < side <= Most(h, w) && Most(h, w) >= SIDE
    ensures 0 <= Scaled(side, h, w) <= SIDE && Scaled(side, h, w) <= side
    ensures side == Most(h, w) ==> Scaled(side, h, w) == SIDE
    ensures Scaled(side, h, w) == 0 <==> Most(h, w) >= 2 * SIDE * side
  {
    hide Scaled, RoundHalfEven, Most, Portion;
    Share(side, Most(h, w));
    var x := Portion(side, Most(h, w));
    ScaledIsPortion(side, h, w);
    RoundAtMost(x, SIDE);
    RoundAtMost(x, side);
    RoundsToZero(side, Most(h, w));
    RoundHalfEvenUnique(640.0, 640);
  }

  /** `scaled` is `side` times 640 over the longer side `m`, to within half. */
  predicate IsShareOf(scaled: int, side: nat, m: nat) {
    2 * SIDE * side - m <= 2 * (m * scaled) <= 2 * SIDE * side + m
  }

  lemma WithinHalf(x: real, n: real, m: real, share: real)
    requires -0.5 <= x - n <= 0.5 && m >= 0.0 && share == x * m
    ensures share - 0.5 * m <= n * m <= share + 0.5 * m
  {
    var gap := x - n;
    Spread(x, n, m);
    ScaleMonotone(gap, 0.5, m);
    ScaleMonotone(-0.5, gap, m);
    assert gap * m == share - n * m;
  }

  lemma RealProduct(m: int, n: int)
    ensures (m * n) as real == n as real * m as real
  {
  }

  lemma InWholes(product: int, exact: real, m: nat, side: nat)
    requires 640.0 * side as real - 0.5 * m as real <= exact <= 640.0 * side as real + 0.5 * m as real
    requires product as real == exact
    ensures 2 * SIDE * side - m <= 2 * product <= 2 * SIDE * side + m
  {
  }

  lemma RoundedShare(x: real, n: int, m: nat, side: nat)
    requires x * m as real == 640.0 * side as real && -0.5 <= x - n as real <= 0.5
    ensures IsShareOf(n, side, m)
  {
    WithinHalf(x, n as real, m as real, 640.0 * side as real);
    RealProduct(m, n);
    InWholes(m * n, n as real * m as real, m, side);
  }

  lemma ScaledShare(side: nat, h: nat, w: nat)
    requires h > 0 && w > 0
    ensures IsShareOf(Scaled(side, h, w), side, Most(h, w))
  {
    hide Scaled, Portion, RoundHalfEven;
    ScaledIsPortion(side, h, w);
    PortionTimes(side, Most(h, w));
    RoundedShare(Portion(side, Most(h, w)), Scaled(side, h, w), Most(h, w), side);
  }

  /** The longer side becomes 640, the other its share of it, and vanishes only
      when it is at most a 1280th. */
  lemma ScaledSides(h: nat, w: nat)
    requires h > 0 && w > 0 && Ratio(h, w) <= 1.0
    ensures 0 <= Scaled(h, h, w) <= SIDE && Scaled(h, h, w) <= h
    ensures 0 <= Scaled(w, h, w) <= SIDE && Scaled(w, h, w) <= w
    ensures if h >= w then Scaled(h, h, w) == SIDE else Scaled(w, h, w) == SIDE
    ensures IsShareOf(Scaled(h, h, w), h, Most(h, w)) && IsShareOf(Scaled(w, h, w), w, Most(h, w))
    ensures Scaled(h, h, w) == 0 || Scaled(w, h, w) == 0 <==> Most(h, w) >= 2 * SIDE * Least(h, w)
  {
    hide Ratio, RoundHalfEven, IsShareOf;
    RatioIff(h, w);
    ScaledBounds(h, h, w);
    ScaledBounds(w, h, w);
    ScaledShare(h, h, w);
    ScaledShare(w, h, w);
  }

  /** `layout` says the tensor is two-dimensional, of bytes, with adjacent columns. */
  function Geometrize(rows: nat, w: nat, layout: bool, square: bool): Geometry {
    var h := rows * 2 / 3;
    if !layout || rows % 3 != 0 || h % 2 != 0 || w % 2 != 0 then Unsupported
    else if h == 0 || w == 0 then DivisionByZero
    else if Ratio(h, w) > 1.0 then Unsupported
    else
      ScaledSides(h, w);
      var rh, rw := Scaled(h, h, w), Scaled(w, h, w);
      var dh, dw := Padding(rh, square), Padding(rw, square);
      HalfMargin(dh);
      HalfMargin(dw);
      if rh == 0 || rw == 0 then DivisionByZero
      else Fits(Box(rh + dh, rw + dw, rh, rw, Margin(dh), Margin(dw)))
  }

  predicate Accepts(rows: nat, w: nat, layout: bool) {
    var h := rows * 2 / 3;
    && layout && rows % 3 == 0 && w % 2 == 0 && h > 0 && w > 0
    && Most(h, w) >= SIDE && Most(h, w) < 2 * SIDE * Least(h, w)
  }

  /** What the geometry promises of an accepted frame. */
  predicate Sound(box: Box, h: nat, w: nat, square: bool) {
    && 1 <= box.rh <= h && 1 <= box.rw <= w && Most(box.rh, box.rw) == SIDE
    && IsShareOf(box.rh, h, Most(h, w)) && IsShareOf(box.rw, w, Most(h, w))
    && box.top + box.rh <= box.oh <= SIDE && box.left + box.rw <= box.ow <= SIDE
    && box.top == (box.oh - box.rh) / 2 && box.left == (box.ow - box.rw) / 2
    && (if square then box.oh == box.ow == SIDE
        else box.oh % STRIDE == 0 && box.ow % STRIDE == 0 && box.oh - box.rh < STRIDE && box.ow - box.rw < STRIDE)
  }

  /** A frame is accepted exactly when its layout is right, neither side is zero,
      one side reaches 640, and the sides are not more than 1280 to 1 apart, in
      which case the scaled image keeps at least one row and one column. */
  lemma AcceptedIff(rows: nat, w: nat, layout: bool, square: bool)
    ensures Geometrize(rows, w, layout, square).Fits? <==> Accepts(rows, w, layout)
  {
    hide Margin, Scaled, Ratio, IsShareOf;
    var h := rows * 2 / 3;
    if layout && rows % 3 == 0 && w % 2 == 0 && h > 0 && w > 0 {
      RatioIff(h, w);
      if Ratio(h, w) <= 1.0 {
        ScaledSides(h, w);
      }
    }
  }

  /** The scaled image fits inside the padded one, centred to within a pixel, and
      the padded sides are 640, or the multiple of 32 next above. */
  lemma GeometryIsSound(rows: nat, w: nat, layout: bool, square: bool)
    requires Geometrize(rows, w, layout, square).Fits?
    ensures Sound(Geometrize(rows, w, layout, square).box, rows * 2 / 3, w, square)
  {
    hide Scaled, Margin, Ratio, IsShareOf;
    var h := rows * 2 / 3;
    ScaledSides(h, w);
    HalfMargin(Padding(Scaled(h, h, w), square));
    HalfMargin(Padding(Scaled(w, h, w), square));
  }

  // -- the kernel ------------------------------------------------------------------

  /** What a launch is given: the frame in memory, the geometry and the tables. */
  datatype Launch = Launch(p: seq<int>, pitch: nat, h: nat, w: nat, box: Box, xs: seq<int>, ys: seq<int>, full: bool)

  predicate Ready(k: Launch) {
    && Plane(k.p, k.pitch, k.h, k.w) && k.w > 0 && k.h > 0 && k.box.rh > 0 && k.box.rw > 0
    && TableOf(k.xs, k.w, k.box.rw) && TableOf(k.ys, k.h, k.box.rh)
    && k.box.top + k.box.rh <= k.box.oh && k.box.left + k.box.rw <= k.box.ow
  }

  lemma GrayIsByte(k: Launch, x: nat, y: nat)
    requires Plane(k.p, k.pitch, k.h, k.w) && x < k.w && y < k.h
    ensures IsByte(GrayAt(k.p, k.pitch, k.h, k.w, x, y, k.full))
  {
    hide Fold, Pixel, GrayOf;
    ReadsInside(k.p, k.pitch, k.h, k.w, x, y);
    var at := ChromaOffset(k.pitch, k.h, x, y);
    var c := Pixel(k.p[LumaOffset(k.pitch, x, y)], k.p[at], k.p[at + 1], k.full);
    GrayIsFold(k.p[LumaOffset(k.pitch, x, y)], k.p[at], k.p[at + 1], k.full);
    FoldIsBetween(c);
  }

  /** The four source pixels and the weights behind one image pixel. */
  function CornersAt(k: Launch, x: nat, y: nat): (g: Corners)
    requires Ready(k) && x < k.box.rw && y < k.box.rh
    ensures Bytes(g)
  {
    var a, b := TapOf(k.w, k.box.rw, x), TapOf(k.h, k.box.rh, y);
    TapIsSound(k.w, k.box.rw, x);
    TapIsSound(k.h, k.box.rh, y);
    GrayIsByte(k, a.first, b.first);
    GrayIsByte(k, a.second, b.first);
    GrayIsByte(k, a.first, b.second);
    GrayIsByte(k, a.second, b.second);
    Corners(GrayAt(k.p, k.pitch, k.h, k.w, a.first, b.first, k.full),
            GrayAt(k.p, k.pitch, k.h, k.w, a.second, b.first, k.full),
            GrayAt(k.p, k.pitch, k.h, k.w, a.first, b.second, k.full),
            GrayAt(k.p, k.pitch, k.h, k.w, a.second, b.second, k.full))
  }

  /** The image pixel by its meaning: the blend of the four source pixels around
      its coordinate. */
  function ImagePixel(k: Launch, x: nat, y: nat): int
    requires Ready(k) && x < k.box.rw && y < k.box.rh
  {
    var a, b := TapOf(k.w, k.box.rw, x), TapOf(k.h, k.box.rh, y);
    Blend(CornersAt(k, x, y), a.weight0, a.weight1, b.weight0, b.weight1)
  }

  /** The output at column `x`, row `y`: grey around the image. */
  function OutputPixel(k: Launch, x: nat, y: nat): int
    requires Ready(k)
  {
    var bx := k.box;
    if bx.left <= x < bx.left + bx.rw && bx.top <= y < bx.top + bx.rh then ImagePixel(k, x - bx.left, y - bx.top)
    else GREY
  }

  function Cells(k: Launch): nat {
    k.box.oh * k.box.ow
  }

  function Channels(k: Launch): nat {
    3 * Cells(k)
  }

  function OutputAt(k: Launch, i: nat): int
    requires Ready(k) && i < Cells(k)
  {
    OutputPixel(k, i % k.box.ow, i / k.box.ow)
  }

  /** A resized pixel lies between the darkest and brightest source pixel it
      samples, and no image can leave the range of a byte. */
  lemma OutputIsBetween(k: Launch, x: nat, y: nat)
    requires Ready(k) && x < k.box.rw && y < k.box.rh
    ensures Lowest(CornersAt(k, x, y)) <= OutputPixel(k, k.box.left + x, k.box.top + y) <= Highest(CornersAt(k, x, y))
    ensures IsByte(OutputPixel(k, k.box.left + x, k.box.top + y))
  {
    hide Blend, CornersAt, TapOf, Plane;
    var a, b := TapOf(k.w, k.box.rw, x), TapOf(k.h, k.box.rh, y);
    TapIsSound(k.w, k.box.rw, x);
    TapIsSound(k.h, k.box.rh, y);
    BlendIsBetween(CornersAt(k, x, y), a.weight0, a.weight1, b.weight0, b.weight1);
  }

  /** Image and padding alike. */
  lemma OutputIsByte(k: Launch, i: nat)
    requires Ready(k) && i < Cells(k)
    ensures IsByte(OutputAt(k, i))
  {
    hide ImagePixel, Ready;
    var x, y, bx := i % k.box.ow, i / k.box.ow, k.box;
    if bx.left <= x < bx.left + bx.rw && bx.top <= y < bx.top + bx.rh {
      OutputIsBetween(k, x - bx.left, y - bx.top);
    }
  }

  /** What a cell of the output shows: inside the image the interpolated grey value
      of the frame at the centre of that pixel, to within 1.125, and 114 around it. */
  predicate Shows(p: seq<int>, pitch: nat, h: nat, w: nat, full: bool, box: Box, row: nat, column: nat, value: real)
    requires Plane(p, pitch, h, w) && box.rh > 0 && box.rw > 0
  {
    if box.left <= column < box.left + box.rw && box.top <= row < box.top + box.rh then
      var u, v := Position(w, box.rw, column - box.left), Position(h, box.rh, row - box.top);
      -1.125 < value - GrayBetween(p, pitch, h, w, full, u, v) < 1.125
    else value == 114.0
  }

  lemma ImageIsInterpolated(k: Launch, x: nat, y: nat)
    requires Ready(k) && x < k.box.rw && y < k.box.rh
    ensures var u, v := Position(k.w, k.box.rw, x), Position(k.h, k.box.rh, y);
            -1.125 < ImagePixel(k, x, y) as real - GrayBetween(k.p, k.pitch, k.h, k.w, k.full, u, v) < 1.125
  {
    hide GrayAt, TapOf, Position, Blend, Lerp, Plane, TableOf;
    var a, b := TapOf(k.w, k.box.rw, x), TapOf(k.h, k.box.rh, y);
    var u, v := Position(k.w, k.box.rw, x), Position(k.h, k.box.rh, y);
    TapIsPosition(k.w, k.box.rw, x);
    TapIsPosition(k.h, k.box.rh, y);
    TapIsSound(k.w, k.box.rw, x);
    TapIsSound(k.h, k.box.rh, y);
    BlendIsInterpolation(CornersAt(k, x, y), a.weight1, b.weight1, u - u.Floor as real, v - v.Floor as real);
  }

  /** By its meaning, without the tables: every cell shows what it should. */
  lemma OutputShows(k: Launch, row: nat, column: nat)
    requires Ready(k) && row < k.box.oh && column < k.box.ow
    ensures Shows(k.p, k.pitch, k.h, k.w, k.full, k.box, row, column, OutputPixel(k, column, row) as real)
  {
    hide ImagePixel, Position, GrayBetween;
    var box := k.box;
    if box.left <= column < box.left + box.rw && box.top <= row < box.top + box.rh {
      ImageIsInterpolated(k, column - box.left, row - box.top);
    }
  }

  // -- running it --------------------------------------------------------------------

  /** The cells of one thread, one per channel. */
  function Owns(k: Launch, i: nat): set<nat> {
    {i, i + Cells(k), i + 2 * Cells(k)}
  }

  lemma DivisionIsUnique(q1: nat, r1: nat, q2: nat, r2: nat, n: nat)
    requires q1 * n + r1 == q2 * n + r2 && r1 < n && r2 < n
    ensures q1 == q2 && r1 == r2
  {
    if q1 < q2 {
      Distribute(q1, 1, n);
      RowsInOrder(q1 + 1, q2, n);
    } else if q2 < q1 {
      Distribute(q2, 1, n);
      RowsInOrder(q2 + 1, q1, n);
    }
  }

  lemma ModIs(c: nat, n: nat, q: nat)
    requires q * n <= c < q * n + n
    ensures c % n == c - q * n
  {
    DivisionIsUnique(c / n, c % n, q, c - q * n, n);
  }

  /** Every cell of the three channels has exactly one writer, whichever channel it
      is in, so the order the threads run in cannot matter. */
  lemma OneWriter(k: Launch, c: nat)
    requires c < Channels(k)
    ensures c % Cells(k) < Cells(k) && c in Owns(k, c % Cells(k))
    ensures forall i: nat :: i < Cells(k) && c in Owns(k, i) ==> i == c % Cells(k)
  {
    var n := Cells(k);
    if c >= 2 * n {
      ModIs(c, n, 2);
    } else if c >= n {
      ModIs(c, n, 1);
    } else {
      ModIs(c, n, 0);
    }
  }

  predicate Written(k: Launch, i: nat, s: seq<int>)
    requires Ready(k) && i < Cells(k) && |s| == Channels(k)
  {
    forall c :: c in Owns(k, i) ==> s[c] == OutputAt(k, i)
  }

  method Resize(k: Launch, x: nat, y: nat) returns (value: int)
    requires Ready(k) && x < k.box.rw && y < k.box.rh
    ensures value == ImagePixel(k, x, y)
  {
    hide GrayAt, TapOf, Plane, Least, Most;
    TapIsSound(k.w, k.box.rw, x);
    TapIsSound(k.h, k.box.rh, y);
    assert RowOf(k.xs, x) == TapOf(k.w, k.box.rw, x) && RowOf(k.ys, y) == TapOf(k.h, k.box.rh, y);
    var x0, x1, a0, a1 := k.xs[x * 4], k.xs[x * 4 + 1], k.xs[x * 4 + 2], k.xs[x * 4 + 3];
    var y0, y1, b0, b1 := k.ys[y * 4], k.ys[y * 4 + 1], k.ys[y * 4 + 2], k.ys[y * 4 + 3];
    var s0 := GrayAt(k.p, k.pitch, k.h, k.w, x0, y0, k.full) * a0 + GrayAt(k.p, k.pitch, k.h, k.w, x1, y0, k.full) * a1;
    var s1 := GrayAt(k.p, k.pitch, k.h, k.w, x0, y1, k.full) * a0 + GrayAt(k.p, k.pitch, k.h, k.w, x1, y1, k.full) * a1;
    var t0, t1 := (b0 * (s0 / 16)) / 65536, (b1 * (s1 / 16)) / 65536;
    value := (t0 + t1 + 2) / 4;
  }

  /** What one thread does: nothing past the last cell, else one value in each
      channel. */
  method RunThread(k: Launch, i: nat, out: array<int>)
    requires Ready(k) && out.Length == Channels(k)
    modifies out
    ensures forall c :: 0 <= c < out.Length && (i >= Cells(k) || c !in Owns(k, i)) ==> out[c] == old(out[c])
    ensures i < Cells(k) ==> Written(k, i, out[..])
  {
    hide GrayAt, Blend, Ready, TapOf, Plane;
    if i >= Cells(k) {
      return;
    }
    var x, y, value := i % k.box.ow - k.box.left, i / k.box.ow - k.box.top, GREY;
    if x >= 0 && x < k.box.rw && y >= 0 && y < k.box.rh {
      value := Resize(k, x, y);
    }
    out[i], out[i + Cells(k)], out[i + 2 * Cells(k)] := value, value, value;
  }

  const BLOCK := 256

  /** Whole blocks, enough for every cell. */
  function GridSize(box: Box): nat {
    (box.oh * box.ow + BLOCK - 1) / BLOCK * BLOCK
  }

  /** `order` runs every thread of the grid, in any order. */
  predicate Schedule(k: Launch, order: seq<nat>) {
    forall i: nat :: i < GridSize(k.box) ==> i in order
  }

  lemma ThreadKeeps(k: Launch, i: nat, j: nat, was: seq<int>, now: seq<int>)
    requires Ready(k) && i < Cells(k) && |was| == |now| == Channels(k)
    requires forall c :: 0 <= c < |now| && (j >= Cells(k) || c !in Owns(k, j)) ==> now[c] == was[c]
    requires j < Cells(k) ==> Written(k, j, now)
    ensures i == j ==> Written(k, i, now)
    ensures Written(k, i, was) ==> Written(k, i, now)
  {
    hide OutputAt, Ready;
    if j < Cells(k) && i != j {
      forall c: nat | c in Owns(k, i)
        ensures c !in Owns(k, j)
      {
        OneWriter(k, c);
      }
    }
  }

  lemma Covered(k: Launch, order: seq<nat>, i: nat)
    requires Schedule(k, order) && i < Cells(k)
    ensures i in order
  {
    assert GridSize(k.box) >= Cells(k);
  }

  /** Whatever the order, the three channels all hold the output. */
  method RunGrid(k: Launch, order: seq<nat>, out: array<int>)
    requires Ready(k) && out.Length == Channels(k) && Schedule(k, order)
    modifies out
    ensures forall c :: 0 <= c < out.Length ==> c % Cells(k) < Cells(k) && out[c] == OutputAt(k, c % Cells(k))
  {
    hide OutputAt, Ready, Owns, Schedule;
    for j := 0 to |order|
      invariant forall i: nat :: i < Cells(k) && i in order[..j] ==> Written(k, i, out[..])
    {
      ghost var was := out[..];
      RunThread(k, order[j], out);
      forall i: nat | i < Cells(k) && i in order[..j + 1]
        ensures Written(k, i, out[..])
      {
        ThreadKeeps(k, i, order[j], was, out[..]);
        assert order[..j + 1] == order[..j] + [order[j]];
      }
    }
    forall c | 0 <= c < out.Length
      ensures c % Cells(k) < Cells(k) && out[c] == OutputAt(k, c % Cells(k))
    {
      OneWriter(k, c);
      Covered(k, order, c % Cells(k));
      assert order[..|order|] == order;
      assert Written(k, c % Cells(k), out[..]);
    }
  }

  /** A frame that is one grey everywhere stays that grey, exactly, over the whole
      image. */
  lemma ConstantFrame(k: Launch, grey: int, x: nat, y: nat)
    requires Ready(k) && x < k.box.rw && y < k.box.rh
    requires forall sx: nat, sy: nat :: sx < k.w && sy < k.h ==> GrayAt(k.p, k.pitch, k.h, k.w, sx, sy, k.full) == grey
    ensures OutputPixel(k, k.box.left + x, k.box.top + y) == grey
  {
    hide GrayAt, TapOf, OutputPixel, TableOf, Plane;
    TapIsSound(k.w, k.box.rw, x);
    TapIsSound(k.h, k.box.rh, y);
    OutputIsBetween(k, x, y);
  }

  /** Where a channel's row and column are in the tensor. */
  function CellOf(box: Box, channel: nat, row: nat, column: nat): nat {
    channel * (box.oh * box.ow) + row * box.ow + column
  }

  lemma CellIs(box: Box, channel: nat, row: nat, column: nat)
    requires channel < 3 && row < box.oh && column < box.ow
    ensures var c, n := CellOf(box, channel, row, column), box.oh * box.ow;
            && c < 3 * n && n > 0 && c % n == row * box.ow + column < n
            && (c % n) % box.ow == column && (c % n) / box.ow == row
  {
    var n, within := box.oh * box.ow, row * box.ow + column;
    Distribute(row, 1, box.ow);
    RowsInOrder(row + 1, box.oh, box.ow);
    ModIs(channel * n + within, n, channel);
    DivisionIsUnique(within / box.ow, within % box.ow, row, column, box.ow);
  }

  lemma TensorShows(k: Launch, channel: nat, row: nat, column: nat)
    requires Ready(k) && channel < 3 && row < k.box.oh && column < k.box.ow
    ensures var c := CellOf(k.box, channel, row, column);
            && c < Channels(k) && c % Cells(k) < Cells(k)
            && Shows(k.p, k.pitch, k.h, k.w, k.full, k.box, row, column, OutputAt(k, c % Cells(k)) as real)
  {
    hide Shows, Ready, OutputPixel, CellOf;
    CellIs(k.box, channel, row, column);
    OutputShows(k, row, column);
  }

  /** The whole preparation of one frame: refused exactly as `AcceptedIff` says,
      else the padded output in all three channels, scaled to between 0 and 1,
      whatever order the threads ran in. */
  method Prepare(p: seq<int>, pitch: nat, rows: nat, w: nat, layout: bool, square: bool, full: bool, order: seq<nat>)
    returns (geometry: Geometry, tensor: array<real>, ghost k: Launch)
    requires Geometrize(rows, w, layout, square).Fits? ==>
               && Plane(p, pitch, rows * 2 / 3, w)
               && forall i: nat :: i < GridSize(Geometrize(rows, w, layout, square).box) ==> i in order
    ensures geometry == Geometrize(rows, w, layout, square)
    ensures geometry.Fits? ==>
              && k.p == p && k.pitch == pitch && k.h == rows * 2 / 3 && k.w == w && k.full == full
              && k.box == geometry.box && Ready(k) && tensor.Length == Channels(k)
              && forall c :: 0 <= c < tensor.Length ==>
                   && c % Cells(k) < Cells(k) && tensor[c] == OutputAt(k, c % Cells(k)) as real / 255.0
                   && 0.0 <= tensor[c] <= 1.0
    ensures geometry.Fits? ==>
              forall channel: nat, row: nat, column: nat ::
                channel < 3 && row < geometry.box.oh && column < geometry.box.ow ==>
                  && CellOf(geometry.box, channel, row, column) < tensor.Length
                  && Shows(p, pitch, rows * 2 / 3, w, full, geometry.box, row, column,
                           255.0 * tensor[CellOf(geometry.box, channel, row, column)])
  {
    hide Geometrize, Plane, TableOf, TapOf, OutputAt, Shows, CellOf;
    geometry := Geometrize(rows, w, layout, square);
    if !geometry.Fits? {
      tensor := new real[0];
      k := Launch(p, pitch, 0, 0, Box(0, 0, 0, 0, 0, 0), [], [], full);
      return;
    }
    GeometryIsSound(rows, w, layout, square);
    var h, box := rows * 2 / 3, geometry.box;
    var xs := Axis(w, box.rw);
    var ys := Axis(h, box.rh);
    var launch := Launch(p, pitch, h, w, box, xs[..], ys[..], full);
    k := launch;
    var out := new int[3 * (box.oh * box.ow)];
    RunGrid(launch, order, out);
    tensor := new real[out.Length];
    for c := 0 to out.Length
      invariant forall i :: 0 <= i < c ==> tensor[i] == out[i] as real / 255.0 && 0.0 <= tensor[i] <= 1.0
      modifies tensor
    {
      OutputIsByte(launch, c % Cells(launch));
      tensor[c] := out[c] as real / 255.0;
    }
    forall channel: nat, row: nat, column: nat | channel < 3 && row < box.oh && column < box.ow
      ensures CellOf(box, channel, row, column) < tensor.Length
      ensures Shows(p, pitch, h, w, full, box, row, column, 255.0 * tensor[CellOf(box, channel, row, column)])
    {
      TensorShows(launch, channel, row, column);
    }
  }
}
