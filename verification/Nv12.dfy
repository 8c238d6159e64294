/** The NV12 colour path: ITU-R BT.601 in fixed point, once per pixel as the CUDA
    kernel computes it (ai_engine/gpu_preprocess.py) and once over whole arrays
    with repeated chroma (ai_engine/frames.py). */
module Nv12 {
  datatype Bgr = Bgr(b: int, g: int, r: int)

  /** Blue from U, green from U and V, red from V. */
  datatype Coefficients = Coefficients(bu: int, gu: int, gv: int, rv: int)

  const LIMITED := Coefficients(16525, -3209, -6660, 13075)
  const FULL := Coefficients(14516, -2819, -5850, 11485)

  function Coef(full: bool): Coefficients {
    if full then FULL else LIMITED
  }

  predicate IsByte(x: int) {
    0 <= x <= 255
  }

  /** The arithmetic shift: it rounds down, below zero too. */
  function Shr16(a: int): int {
    a / 65536
  }

  function Least(a: int, b: int): int { if a <= b then a else b }

  function Most(a: int, b: int): int { if a >= b then a else b }

  function Clamp(x: int): (c: int)
    ensures IsByte(c) && (IsByte(x) ==> c == x)
    ensures x < 0 ==> c == 0
    ensures x > 255 ==> c == 255
  {
    Least(Most(x, 0), 255)
  }

  function Luma(y: int, full: bool): int {
    if full then y else Shr16((y * 8 - 128) * 9539)
  }

  /** One pixel from its luma and chroma bytes. */
  function Pixel(y: int, u: int, v: int, full: bool): (c: Bgr)
    ensures IsByte(c.b) && IsByte(c.g) && IsByte(c.r)
  {
    var yy, uu, vv, k := Luma(y, full), (u - 128) * 8, (v - 128) * 8, Coef(full);
    Bgr(Clamp(yy + Shr16(uu * k.bu)), Clamp(yy + Shr16(uu * k.gu) + Shr16(vv * k.gv)), Clamp(yy + Shr16(vv * k.rv)))
  }

  function Fold(c: Bgr): int {
    (c.r * 9798 + c.g * 19235 + c.b * 3735 + 16384) / 32768
  }

  // -- the standard ---------------------------------------------------------------

  /** ITU-R BT.601, section 2.5: the signals between 0 and 1, or -0.5 and 0.5,
      behind the bytes. */
  function SignalY(y: int, full: bool): real {
    if full then y as real / 255.0 else (y - 16) as real / 219.0
  }

  function SignalC(c: int, full: bool): real {
    if full then (c - 128) as real / 255.0 else (c - 128) as real / 224.0
  }

  function ClampReal(x: real): real {
    if x < 0.0 then 0.0 else if x > 255.0 then 255.0 else x
  }

  /** Y = 0.299 R + 0.587 G + 0.114 B, Cb = (B - Y) / 1.772, Cr = (R - Y) / 1.402. */
  function ExactBlue(y: int, u: int, full: bool): real {
    255.0 * (SignalY(y, full) + 1.772 * SignalC(u, full))
  }

  function ExactRed(y: int, v: int, full: bool): real {
    255.0 * (SignalY(y, full) + 1.402 * SignalC(v, full))
  }

  function ExactGreen(y: int, u: int, v: int, full: bool): real {
    (255.0 * SignalY(y, full) - 0.299 * ExactRed(y, v, full) - 0.114 * ExactBlue(y, u, full)) / 0.587
  }

  lemma ClampClose(x: int, exact: real, below: real)
    requires exact - below <= x as real <= exact + 0.1 && below >= 0.0
    ensures ClampReal(exact) - below <= Clamp(x) as real <= ClampReal(exact) + 0.1
  {
  }

  lemma GreenSplits(y: int, u: int, v: int, full: bool)
    ensures ExactGreen(y, u, v, full)
         == 255.0 * SignalY(y, full) - 0.114 * 1.772 / 0.587 * (255.0 * SignalC(u, full))
            - 0.299 * 1.402 / 0.587 * (255.0 * SignalC(v, full))
  {
  }

  lemma ShiftClose(a: int)
    ensures a as real / 65536.0 - 1.0 <= Shr16(a) as real <= a as real / 65536.0
  {
  }

  lemma LumaClose(y: int, full: bool)
    requires IsByte(y)
    ensures 255.0 * SignalY(y, full) - 1.02 <= Luma(y, full) as real <= 255.0 * SignalY(y, full) + 0.02
  {
    if !full {
      ShiftClose((y * 8 - 128) * 9539);
    }
  }

  lemma ChromaClose(c: int, full: bool)
    requires IsByte(c)
    ensures var cc, k, s := (c - 128) * 8, Coef(full), 255.0 * SignalC(c, full);
            && 1.772 * s - 1.02 <= Shr16(cc * k.bu) as real <= 1.772 * s + 0.02
            && 1.402 * s - 1.02 <= Shr16(cc * k.rv) as real <= 1.402 * s + 0.02
            && -0.114 * 1.772 / 0.587 * s - 1.02 <= Shr16(cc * k.gu) as real <= -0.114 * 1.772 / 0.587 * s + 0.02
            && -0.299 * 1.402 / 0.587 * s - 1.02 <= Shr16(cc * k.gv) as real <= -0.299 * 1.402 / 0.587 * s + 0.02
  {
    var cc, k := (c - 128) * 8, Coef(full);
    ShiftClose(cc * k.bu);
    ShiftClose(cc * k.rv);
    ShiftClose(cc * k.gu);
    ShiftClose(cc * k.gv);
  }

  /** The fixed-point conversion never exceeds the exact one by more than 0.1, and
      falls short by at most one for each shift that rounds down. */
  lemma CloseToStandard(y: int, u: int, v: int, full: bool)
    requires IsByte(y) && IsByte(u) && IsByte(v)
    ensures var c := Pixel(y, u, v, full);
            && ClampReal(ExactBlue(y, u, full)) - 2.1 <= c.b as real <= ClampReal(ExactBlue(y, u, full)) + 0.1
            && ClampReal(ExactRed(y, v, full)) - 2.1 <= c.r as real <= ClampReal(ExactRed(y, v, full)) + 0.1
            && ClampReal(ExactGreen(y, u, v, full)) - 3.1 <= c.g as real <= ClampReal(ExactGreen(y, u, v, full)) + 0.1
  {
    hide Luma, Shr16, SignalY, SignalC, Clamp, ClampReal, IsByte;
    var yy, uu, vv, k := Luma(y, full), (u - 128) * 8, (v - 128) * 8, Coef(full);
    LumaClose(y, full);
    ChromaClose(u, full);
    ChromaClose(v, full);
    ClampClose(yy + Shr16(uu * k.bu), ExactBlue(y, u, full), 2.1);
    ClampClose(yy + Shr16(vv * k.rv), ExactRed(y, v, full), 2.1);
    GreenSplits(y, u, v, full);
    ClampClose(yy + Shr16(uu * k.gu) + Shr16(vv * k.gv), ExactGreen(y, u, v, full), 3.1);
  }

  /** The grey value is the standard's luminance of the pixel, to within 0.6. */
  lemma FoldIsLuminance(c: Bgr)
    requires IsByte(c.b) && IsByte(c.g) && IsByte(c.r)
    ensures var exact := 0.299 * c.r as real + 0.587 * c.g as real + 0.114 * c.b as real;
            exact - 0.6 <= Fold(c) as real <= exact + 0.6
  {
    var a := c.r * 9798 + c.g * 19235 + c.b * 3735 + 16384;
    assert a as real / 32768.0 - 1.0 < Fold(c) as real <= a as real / 32768.0;
  }

  /** The grey value is a mean of the three channels. */
  lemma FoldIsBetween(c: Bgr)
    ensures Least(c.b, Least(c.g, c.r)) <= Fold(c) <= Most(c.b, Most(c.g, c.r))
    ensures c.b == c.g == c.r ==> Fold(c) == c.b
  {
    var lo, hi := Least(c.b, Least(c.g, c.r)), Most(c.b, Most(c.g, c.r));
    assert 32768 * lo + 16384 <= c.r * 9798 + c.g * 19235 + c.b * 3735 + 16384 <= 32768 * hi + 16384;
  }

  // -- memory -----------------------------------------------------------------

  /** One past the last byte of a frame. */
  function FrameEnd(pitch: nat, h: nat, w: nat): nat
    requires h > 0
  {
    (h + h / 2 - 1) * pitch + w
  }

  /** A frame of `h` luma rows and `h / 2` rows of interleaved chroma, `w` bytes
      wide, in memory whose rows start `pitch` apart. */
  predicate Plane(p: seq<int>, pitch: nat, h: nat, w: nat) {
    && h % 2 == 0 && w % 2 == 0 && 0 < h && 0 < w <= pitch
    && |p| >= FrameEnd(pitch, h, w)
    && forall i :: 0 <= i < |p| ==> IsByte(p[i])
  }

  function LumaOffset(pitch: nat, x: nat, y: nat): nat {
    y * pitch + x
  }

  function ChromaOffset(pitch: nat, h: nat, x: nat, y: nat): nat {
    h * pitch + (y / 2) * pitch + (x / 2) * 2
  }

  lemma RowsInOrder(a: nat, b: nat, pitch: nat)
    requires a <= b
    ensures a * pitch <= b * pitch
  {
  }

  lemma Distribute(a: nat, b: nat, pitch: nat)
    ensures (a + b) * pitch == a * pitch + b * pitch
  {
  }

  lemma LumaBelowEnd(pitch: nat, h: nat, w: nat, x: nat, y: nat)
    requires h % 2 == 0 && x < w <= pitch && y < h
    ensures LumaOffset(pitch, x, y) < FrameEnd(pitch, h, w)
  {
    RowsInOrder(y, h + h / 2 - 1, pitch);
  }

  lemma ChromaRow(pitch: nat, h: nat, x: nat, y: nat)
    ensures ChromaOffset(pitch, h, x, y) == (h + y / 2) * pitch + 2 * (x / 2)
  {
    Distribute(h, y / 2, pitch);
  }

  lemma ChromaBelowEnd(pitch: nat, h: nat, w: nat, x: nat, y: nat)
    requires h % 2 == 0 && w % 2 == 0 && x < w <= pitch && y < h
    ensures ChromaOffset(pitch, h, x, y) + 1 < FrameEnd(pitch, h, w)
  {
    hide ChromaOffset;
    ChromaRow(pitch, h, x, y);
    RowsInOrder(h + y / 2, h + h / 2 - 1, pitch);
  }

  /** Every byte a pixel needs is inside the frame's rows, and within the `w`
      bytes of its row. */
  lemma ReadsInside(p: seq<int>, pitch: nat, h: nat, w: nat, x: nat, y: nat)
    requires Plane(p, pitch, h, w) && x < w && y < h
    ensures LumaOffset(pitch, x, y) < |p|
    ensures ChromaOffset(pitch, h, x, y) + 1 < |p|
    ensures ChromaOffset(pitch, h, x, y) == (h + y / 2) * pitch + 2 * (x / 2)
    ensures h <= h + y / 2 < h + h / 2 && 2 * (x / 2) + 1 < w
  {
    hide LumaOffset, ChromaOffset, FrameEnd;
    LumaBelowEnd(pitch, h, w, x, y);
    ChromaRow(pitch, h, x, y);
    ChromaBelowEnd(pitch, h, w, x, y);
  }

  function Cut(x: int): int {
    if x < 0 then 0 else if x > 255 then 255 else x
  }

  /** The kernel's grey value from the three bytes, in the kernel's own terms. */
  function GrayOf(luma: int, cu: int, cv: int, full: bool): int {
    var yy := if full then luma else ((luma * 8 - 128) * 9539) / 65536;
    var u, v := (cu - 128) * 8, (cv - 128) * 8;
    var b := yy + (u * (if full then 14516 else 16525)) / 65536;
    var g := yy + (u * (if full then -2819 else -3209)) / 65536 + (v * (if full then -5850 else -6660)) / 65536;
    var r := yy + (v * (if full then 11485 else 13075)) / 65536;
    var b, g, r := Cut(b), Cut(g), Cut(r);
    (r * 9798 + g * 19235 + b * 3735 + 16384) / 32768
  }

  function GrayAt(p: seq<int>, pitch: nat, h: nat, w: nat, x: nat, y: nat, full: bool): int
    requires Plane(p, pitch, h, w) && x < w && y < h
  {
    ReadsInside(p, pitch, h, w, x, y);
    var at := ChromaOffset(pitch, h, x, y);
    GrayOf(p[LumaOffset(pitch, x, y)], p[at], p[at + 1], full)
  }

  const INT32_MAX := 0x7fff_ffff

  predicate FitsInt32(x: int) {
    -INT32_MAX - 1 <= x <= INT32_MAX
  }

  /** Nothing the colour path computes leaves 32 bits. */
  lemma ColourFits(y: int, u: int, v: int, full: bool)
    requires IsByte(y) && IsByte(u) && IsByte(v)
    ensures var yy, uu, vv, k := Luma(y, full), (u - 128) * 8, (v - 128) * 8, Coef(full);
            && FitsInt32((y * 8 - 128) * 9539)
            && FitsInt32(uu * k.bu) && FitsInt32(uu * k.gu) && FitsInt32(vv * k.gv) && FitsInt32(vv * k.rv)
            && FitsInt32(yy + Shr16(uu * k.gu) + Shr16(vv * k.gv))
            && var c := Pixel(y, u, v, full); FitsInt32(c.r * 9798 + c.g * 19235 + c.b * 3735 + 16384)
  {
  }

  /** Every integer the kernel computes on the way to the bytes of one pixel. */
  predicate OffsetsFit(pitch: nat, h: nat, x: nat, y: nat) {
    && FitsInt32(y * pitch) && FitsInt32(LumaOffset(pitch, x, y))
    && FitsInt32(h * pitch) && FitsInt32((y / 2) * pitch) && FitsInt32(h * pitch + (y / 2) * pitch)
    && FitsInt32(ChromaOffset(pitch, h, x, y)) && FitsInt32(ChromaOffset(pitch, h, x, y) + 1)
  }

  lemma LastOffset(pitch: nat, h: nat, w: nat)
    requires h % 2 == 0 && w % 2 == 0 && 0 < h && 0 < w <= pitch
    ensures ChromaOffset(pitch, h, w - 1, h - 1) + 2 == FrameEnd(pitch, h, w)
  {
    assert (h - 1) / 2 == h / 2 - 1 && ((w - 1) / 2) * 2 == w - 2;
    Distribute(h, h / 2 - 1, pitch);
  }

  lemma OffsetParts(pitch: nat, h: nat, x: nat, y: nat)
    ensures LumaOffset(pitch, x, y) == y * pitch + x
    ensures ChromaOffset(pitch, h, x, y) == h * pitch + (y / 2) * pitch + (x / 2) * 2
  {
  }

  lemma PixelOffsetsFit(pitch: nat, h: nat, w: nat, x: nat, y: nat)
    requires h % 2 == 0 && w % 2 == 0 && x < w <= pitch && y < h && FrameEnd(pitch, h, w) <= INT32_MAX + 1
    ensures OffsetsFit(pitch, h, x, y)
  {
    hide LumaOffset, ChromaOffset, FrameEnd;
    LumaBelowEnd(pitch, h, w, x, y);
    ChromaBelowEnd(pitch, h, w, x, y);
    OffsetParts(pitch, h, x, y);
  }

  /** The offsets of all pixels fit 32 bits exactly when the frame ends within the
      first two gigabytes of its plane. */
  lemma OffsetsFitIff(pitch: nat, h: nat, w: nat)
    requires h % 2 == 0 && w % 2 == 0 && 0 < h && 0 < w <= pitch
    ensures (forall x: nat, y: nat :: x < w && y < h ==> OffsetsFit(pitch, h, x, y))
            <==> FrameEnd(pitch, h, w) <= INT32_MAX + 1
  {
    hide FrameEnd;
    if FrameEnd(pitch, h, w) <= INT32_MAX + 1 {
      forall x: nat, y: nat | x < w && y < h
        ensures OffsetsFit(pitch, h, x, y)
      {
        PixelOffsetsFit(pitch, h, w, x, y);
      }
    } else {
      LastOffset(pitch, h, w);
      assert !OffsetsFit(pitch, h, w - 1, h - 1);
    }
  }

  // -- the whole-array form ------------------------------------------------------

  type Grid<T> = seq<seq<T>>

  predicate Shape<T>(g: Grid<T>, rows: nat, columns: nat) {
    |g| == rows && forall i :: 0 <= i < rows ==> |g[i]| == columns
  }

  /** Every element twice in a row. */
  function Repeat<T>(s: seq<T>): seq<T> {
    if s == [] then [] else Repeat(s[..|s| - 1]) + [s[|s| - 1], s[|s| - 1]]
  }

  lemma {:induction false} RepeatAt<T>(s: seq<T>)
    ensures |Repeat(s)| == 2 * |s| && forall k :: 0 <= k < 2 * |s| ==> Repeat(s)[k] == s[k / 2]
  {
    if s != [] {
      RepeatAt(s[..|s| - 1]);
    }
  }

  function Columns<T>(g: Grid<T>): (r: Grid<T>)
    ensures |r| == |g| && forall i :: 0 <= i < |g| ==> r[i] == Repeat(g[i])
  {
    seq(|g|, i requires 0 <= i < |g| => Repeat(g[i]))
  }

  /** Nearest-neighbour doubling: repeat the rows, then the columns. */
  function Upsample<T>(g: Grid<T>): Grid<T> {
    Columns(Repeat(g))
  }

  lemma UpsampleAt<T>(g: Grid<T>, rows: nat, columns: nat)
    requires Shape(g, rows, columns)
    ensures Shape(Upsample(g), 2 * rows, 2 * columns)
    ensures forall y, x :: 0 <= y < 2 * rows && 0 <= x < 2 * columns ==> Upsample(g)[y][x] == g[y / 2][x / 2]
  {
    RepeatAt(g);
    forall y | 0 <= y < 2 * rows
      ensures |Upsample(g)[y]| == 2 * columns
      ensures forall x :: 0 <= x < 2 * columns ==> Upsample(g)[y][x] == g[y / 2][x / 2]
    {
      RepeatAt(g[y / 2]);
    }
  }

  /** One channel of the interleaved chroma rows. */
  function Channel(native: Grid<int>, h: nat, w: nat, which: nat): (g: Grid<int>)
    requires h % 2 == 0 && w % 2 == 0 && which < 2
    requires |native| >= h + h / 2 && forall i :: 0 <= i < |native| ==> |native[i]| == w
    ensures Shape(g, h / 2, w / 2)
    ensures forall i, j :: 0 <= i < h / 2 && 0 <= j < w / 2 ==> g[i][j] == native[h + i][2 * j + which]
  {
    seq(h / 2, i requires 0 <= i < h / 2 =>
      seq(w / 2, j requires 0 <= j < w / 2 => native[h + i][2 * j + which]))
  }

  /** A pointwise computation over three equal grids. */
  function Zip(f: (int, int, int) -> Bgr, a: Grid<int>, b: Grid<int>, c: Grid<int>, h: nat, w: nat): (g: Grid<Bgr>)
    requires Shape(a, h, w) && Shape(b, h, w) && Shape(c, h, w)
    ensures Shape(g, h, w)
    ensures forall y, x :: 0 <= y < h && 0 <= x < w ==> g[y][x] == f(a[y][x], b[y][x], c[y][x])
  {
    seq(h, y requires 0 <= y < h => seq(w, x requires 0 <= x < w => f(a[y][x], b[y][x], c[y][x])))
  }

  function Height(native: Grid<int>): nat {
    |native| * 2 / 3
  }

  /** The image of a frame whose width and height are even. */
  function Image(native: Grid<int>, w: nat, full: bool): Grid<Bgr>
    requires Height(native) % 2 == 0 && w % 2 == 0 && forall i :: 0 <= i < |native| ==> |native[i]| == w
  {
    var h := Height(native);
    var u, v := Channel(native, h, w, 0), Channel(native, h, w, 1);
    UpsampleAt(u, h / 2, w / 2);
    UpsampleAt(v, h / 2, w / 2);
    Zip((y, cu, cv) => Pixel(y, cu, cv, full), native[..h], Upsample(u), Upsample(v), h, w)
  }

  predicate InMemory(p: seq<int>, pitch: nat, i: nat, j: nat, value: int) {
    i * pitch + j < |p| && p[i * pitch + j] == value
  }

  /** The rows of a frame, as the kernel's memory holds them. */
  predicate Holds(p: seq<int>, pitch: nat, h: nat, w: nat, native: Grid<int>) {
    && Plane(p, pitch, h, w) && |native| >= h + h / 2 && (forall i :: 0 <= i < |native| ==> |native[i]| == w)
    && forall i, j {:trigger native[i][j]} :: 0 <= i < h + h / 2 && 0 <= j < w ==>
         InMemory(p, pitch, i, j, native[i][j])
  }

  lemma ImageAt(native: Grid<int>, w: nat, full: bool, x: nat, y: nat)
    requires Height(native) % 2 == 0 && w % 2 == 0 && forall i :: 0 <= i < |native| ==> |native[i]| == w
    requires x < w && y < Height(native)
    ensures var h := Height(native);
            && Shape(Image(native, w, full), h, w) && h + y / 2 < |native|
            && Image(native, w, full)[y][x]
               == Pixel(native[y][x], native[h + y / 2][2 * (x / 2)], native[h + y / 2][2 * (x / 2) + 1], full)
  {
    hide Upsample, Pixel;
    var h := Height(native);
    UpsampleAt(Channel(native, h, w, 0), h / 2, w / 2);
    UpsampleAt(Channel(native, h, w, 1), h / 2, w / 2);
  }

  lemma CutIsClamp(x: int)
    ensures Cut(x) == Clamp(x)
  {
  }

  lemma GrayIsFold(y: int, u: int, v: int, full: bool)
    ensures GrayOf(y, u, v, full) == Fold(Pixel(y, u, v, full))
  {
    hide Cut, Clamp;
    var yy, uu, vv, k := Luma(y, full), (u - 128) * 8, (v - 128) * 8, Coef(full);
    CutIsClamp(yy + Shr16(uu * k.bu));
    CutIsClamp(yy + Shr16(uu * k.gu) + Shr16(vv * k.gv));
    CutIsClamp(yy + Shr16(vv * k.rv));
  }

  /** The two colour paths agree: folding the whole-array image to grey gives at
      every coordinate the kernel's value. */
  lemma PathsAgree(p: seq<int>, pitch: nat, native: Grid<int>, w: nat, full: bool, x: nat, y: nat)
    requires Height(native) % 2 == 0 && Holds(p, pitch, Height(native), w, native)
    requires x < w && y < Height(native)
    ensures Shape(Image(native, w, full), Height(native), w)
    ensures Fold(Image(native, w, full)[y][x]) == GrayAt(p, pitch, Height(native), w, x, y, full)
    ensures var c := Image(native, w, full)[y][x];
            Least(c.b, Least(c.g, c.r)) <= GrayAt(p, pitch, Height(native), w, x, y, full) <= Most(c.b, Most(c.g, c.r))
  {
    hide Pixel, Fold, GrayOf, Image, Least, Most;
    var h := Height(native);
    ReadsInside(p, pitch, h, w, x, y);
    ImageAt(native, w, full, x, y);
    var i, j := h + y / 2, 2 * (x / 2);
    assert InMemory(p, pitch, y, x, native[y][x]);
    assert InMemory(p, pitch, i, j, native[i][j]) && InMemory(p, pitch, i, j + 1, native[i][j + 1]);
    GrayIsFold(native[y][x], native[i][j], native[i][j + 1], full);
    FoldIsBetween(Image(native, w, full)[y][x]);
  }
}
