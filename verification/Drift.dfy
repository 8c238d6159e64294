/** A detection that moves (ai_engine/accumulate.py): how far behind it the
    smoothed box of its region is, and how fast it may move and still fire. */
module Drift {
  import opened Boxes
  import opened Cadence
  import opened Common
  import opened Config
  import opened Corroboration
  import opened Evidence
  import opened EvidenceRuns

  /** The box of size `w` by `h` whose corner is at (`x`, `y`). */
  function At(x: real, y: real, w: real, h: real): Box {
    Box(x, y, x + w, y + h)
  }

  predicate Near(a: real, b: real, reach: real) {
    -reach <= a - b <= reach
  }

  /** From frame `i` to the next the box moves at most the smoothing weight's part of
      the reach. */
  predicate Moves(p: Params, xs: seq<real>, ys: seq<real>, reachX: real, reachY: real, i: nat)
    requires i + 1 < |xs| == |ys|
  {
    Near(xs[i + 1], xs[i], p.ema * reachX) && Near(ys[i + 1], ys[i], p.ema * reachY)
  }

  /** Frame `i` shows one box of that size at (`xs[i]`, `ys[i]`), and it never moves
      further than that. */
  predicate Drifts(p: Params, frames: seq<Frame>, xs: seq<real>, ys: seq<real>, w: real, h: real, reachX: real,
                   reachY: real)
  {
    && |xs| == |ys| == |frames|
    && (forall i :: 0 <= i < |frames| ==> frames[i].boxes == [At(xs[i], ys[i], w, h)])
    && (forall i: nat :: i + 1 < |frames| ==> Moves(p, xs, ys, reachX, reachY, i))
  }

  /** Two boxes of one size shifted by less than the reach still overlap enough. */
  predicate ReachLinks(link: real, w: real, h: real, reachX: real, reachY: real) {
    && 0.0 <= reachX < w && 0.0 <= reachY < h && 0.0 <= link
    && link * (2.0 * (w * h) - (w - reachX) * (h - reachY)) <= (w - reachX) * (h - reachY)
  }

  lemma Positive(a: real, b: real)
    requires a > 0.0 && b > 0.0
    ensures a * b > 0.0
  {
  }

  lemma ShiftedOverlap(a: Box, b: Box, w: real, h: real, u: real, v: real)
    requires 0.0 < u <= w && 0.0 < v <= h
    requires a.x2 == a.x1 + w && b.x2 == b.x1 + w && a.y2 == a.y1 + h && b.y2 == b.y1 + h
    requires Near(a.x1, b.x1, w - u) && Near(a.y1, b.y1, h - v)
    ensures Intersection(a, b) >= u * v > 0.0
    ensures Area(a) == Area(b) == w * h
  {
    assert a.x2 - a.x1 == b.x2 - b.x1 == w && a.y2 - a.y1 == b.y2 - b.y1 == h;
    assert OverlapWidth(a, b) >= u && OverlapHeight(a, b) >= v;
    MulMonotone(u, v, OverlapWidth(a, b), OverlapHeight(a, b));
    Positive(u, v);
  }

  lemma ShareGrows(link: real, least: real, inter: real, area: real)
    requires 0.0 <= link && 0.0 < least <= inter <= area
    requires link * (2.0 * area - least) <= least
    ensures inter / (area + area - inter) >= link
  {
    var union := area + area - inter;
    var big := 2.0 * area - least;
    assert link * union <= link * big;
    var q := inter / union;
    assert q * union == inter;
    if q < link {
      assert q * union < link * union;
    }
  }

  lemma ShiftedLinks(link: real, a: Box, b: Box, w: real, h: real, reachX: real, reachY: real)
    requires ReachLinks(link, w, h, reachX, reachY)
    requires a.x2 == a.x1 + w && b.x2 == b.x1 + w && a.y2 == a.y1 + h && b.y2 == b.y1 + h
    requires Near(a.x1, b.x1, reachX) && Near(a.y1, b.y1, reachY)
    ensures Iou(a, b) >= link
  {
    hide Intersection, Area;
    ShiftedOverlap(a, b, w, h, w - reachX, h - reachY);
    IntersectionBounded(a, b);
    ShareGrows(link, (w - reachX) * (h - reachY), Intersection(a, b), w * h);
  }

  lemma RestOfGap(ema: real, det: real, held: real, rest: real)
    requires rest == 1.0 - ema
    ensures det - Mix(ema, det, held) == rest * (det - held)
  {
    assert rest * (det - held) == rest * det - rest * held;
    assert rest * det == det - ema * det;
  }

  lemma RestWithin(gap: real, rest: real, reach: real)
    requires 0.0 <= rest && -reach <= gap <= reach
    ensures -(rest * reach) <= rest * gap <= rest * reach
  {
    Scale(rest, gap, reach);
    Scale(rest, -gap, reach);
    assert rest * -gap == -(rest * gap);
  }

  lemma Sum(a: real, b: real, p: real, q: real, reach: real)
    requires -p <= a <= p && -q <= b <= q && p + q == reach
    ensures -reach <= a + b <= reach
  {
  }

  lemma Parts(ema: real, rest: real, reach: real)
    requires ema + rest == 1.0
    ensures ema * reach + rest * reach == reach
  {
    assert (ema + rest) * reach == ema * reach + rest * reach;
  }

  /** One step of smoothing leaves the rest of the distance; one step of drift then
      adds to it. */
  lemma LagStays(ema: real, det: real, held: real, next: real, reach: real)
    requires 0.0 <= ema <= 1.0 && 0.0 <= reach && Near(det, held, reach) && Near(next, det, ema * reach)
    ensures Near(next, Mix(ema, det, held), reach)
  {
    hide Mix;
    var rest := 1.0 - ema;
    RestOfGap(ema, det, held, rest);
    RestWithin(det - held, rest, reach);
    Parts(ema, rest, reach);
    Sum(next - det, det - Mix(ema, det, held), ema * reach, rest * reach, reach);
  }

  lemma MixShift(ema: real, a: real, b: real, w: real)
    ensures Mix(ema, a + w, b + w) == Mix(ema, a, b) + w
  {
    MixSelf(ema, w);
    assert ema * (a + w) == ema * a + ema * w;
    assert (1.0 - ema) * (b + w) == (1.0 - ema) * b + (1.0 - ema) * w;
  }

  /** The region's box has the size of the detections and is within reach of the
      next one. */
  predicate InReach(b: Box, x: real, y: real, w: real, h: real, reachX: real, reachY: real) {
    && b.x2 == b.x1 + w && b.y2 == b.y1 + h
    && Near(x, b.x1, reachX) && Near(y, b.y1, reachY)
  }

  lemma SmoothInReach(ema: real, held: Box, x: real, y: real, x': real, y': real, w: real, h: real, reachX: real,
                      reachY: real)
    requires 0.0 <= ema <= 1.0 && 0.0 <= reachX && 0.0 <= reachY
    requires InReach(held, x, y, w, h, reachX, reachY)
    requires Near(x', x, ema * reachX) && Near(y', y, ema * reachY)
    ensures InReach(Smooth(ema, At(x, y, w, h), held), x', y', w, h, reachX, reachY)
  {
    hide Mix;
    LagStays(ema, x, held.x1, x', reachX);
    LagStays(ema, y, held.y1, y', reachY);
    MixShift(ema, x, held.x1, w);
    MixShift(ema, y, held.y1, h);
  }

  lemma PartOf(ema: real, reach: real)
    requires 0.0 <= ema <= 1.0 && 0.0 <= reach
    ensures 0.0 <= ema * reach <= reach
  {
    Scale(ema, 0.0, reach);
    Scale(1.0 - ema, 0.0, reach);
    assert ema * reach + (1.0 - ema) * reach == reach;
  }

  lemma StartInReach(ema: real, x: real, y: real, x': real, y': real, w: real, h: real, reachX: real, reachY: real)
    requires 0.0 <= ema <= 1.0 && 0.0 <= reachX && 0.0 <= reachY
    requires Near(x', x, ema * reachX) && Near(y', y, ema * reachY)
    ensures InReach(At(x, y, w, h), x', y', w, h, reachX, reachY)
  {
    PartOf(ema, reachX);
    PartOf(ema, reachY);
  }

  predicate HeldInReach(p: Params, frames: seq<Frame>, xs: seq<real>, ys: seq<real>, w: real, h: real, reachX: real,
                        reachY: real, k: nat)
    requires k < |frames| == |xs| == |ys|
  {
    var s := After(p, frames, k);
    s.regions != [] ==> InReach(s.regions[0].box, xs[k], ys[k], w, h, reachX, reachY)
  }

  lemma NextInReach(p: Params, frames: seq<Frame>, xs: seq<real>, ys: seq<real>, w: real, h: real, reachX: real,
                    reachY: real, k: nat)
    requires 0.0 <= p.ema <= 1.0 && Drifts(p, frames, xs, ys, w, h, reachX, reachY) && k + 1 < |frames|
    requires 0.0 <= reachX && 0.0 <= reachY
    requires HeldInReach(p, frames, xs, ys, w, h, reachX, reachY, k)
    requires Tracks(p, After(p, frames, k), frames[k].boxes[0], After(p, frames, k + 1))
    ensures HeldInReach(p, frames, xs, ys, w, h, reachX, reachY, k + 1)
  {
    hide After, Smooth, InReach;
    assert Moves(p, xs, ys, reachX, reachY, k);
    var s := After(p, frames, k);
    if s.regions != [] {
      SmoothInReach(p.ema, s.regions[0].box, xs[k], ys[k], xs[k + 1], ys[k + 1], w, h, reachX, reachY);
    } else {
      StartInReach(p.ema, xs[k], ys[k], xs[k + 1], ys[k + 1], w, h, reachX, reachY);
    }
  }

  lemma LinksInReach(p: Params, frames: seq<Frame>, xs: seq<real>, ys: seq<real>, w: real, h: real, reachX: real,
                     reachY: real, k: nat)
    requires ReachLinks(p.iouLink, w, h, reachX, reachY) && Drifts(p, frames, xs, ys, w, h, reachX, reachY)
    requires k < |frames| && HeldInReach(p, frames, xs, ys, w, h, reachX, reachY, k)
    ensures LinksAt(p, frames, k)
  {
    hide After, Iou, ReachLinks;
    var s := After(p, frames, k);
    if s.regions != [] {
      ShiftedLinks(p.iouLink, frames[k].boxes[0], s.regions[0].box, w, h, reachX, reachY);
    }
  }

  lemma NothingHeld(p: Params, frames: seq<Frame>, xs: seq<real>, ys: seq<real>, w: real, h: real, reachX: real,
                    reachY: real)
    requires 0 < |frames| == |xs| == |ys|
    ensures HeldInReach(p, frames, xs, ys, w, h, reachX, reachY, 0)
  {
  }

  lemma ReachIsNotNegative(link: real, w: real, h: real, reachX: real, reachY: real)
    requires ReachLinks(link, w, h, reachX, reachY)
    ensures 0.0 <= reachX && 0.0 <= reachY
  {
  }

  lemma DriftSizes(p: Params, frames: seq<Frame>, xs: seq<real>, ys: seq<real>, w: real, h: real, reachX: real,
                   reachY: real)
    requires Drifts(p, frames, xs, ys, w, h, reachX, reachY)
    ensures |frames| == |xs| == |ys|
  {
  }

  lemma {:induction false} DriftLinks(p: Params, frames: seq<Frame>, xs: seq<real>, ys: seq<real>, w: real, h: real,
                                      reachX: real, reachY: real, conf: real, n: nat)
    requires p.threshold > 0.0 && 0.0 <= p.ema <= 1.0 && ReachLinks(p.iouLink, w, h, reachX, reachY)
    requires OneEach(frames, conf) && TimesAscend(frames) && n < |frames|
    requires Drifts(p, frames, xs, ys, w, h, reachX, reachY)
    ensures LinksUpTo(p, frames, conf, n + 1) && HeldInReach(p, frames, xs, ys, w, h, reachX, reachY, n)
  {
    hide HoldsOne, LinksAt, Tracks, Drifts, After, HeldInReach, TimesAscend, ReachLinks;
    ReachIsNotNegative(p.iouLink, w, h, reachX, reachY);
    DriftSizes(p, frames, xs, ys, w, h, reachX, reachY);
    if n == 0 {
      NothingHeld(p, frames, xs, ys, w, h, reachX, reachY);
    } else {
      DriftLinks(p, frames, xs, ys, w, h, reachX, reachY, conf, n - 1);
      OneAfter(p, frames, conf, n - 1);
      NextInReach(p, frames, xs, ys, w, h, reachX, reachY, n - 1);
    }
    LinksInReach(p, frames, xs, ys, w, h, reachX, reachY, n);
  }

  /** A box that moves fires like one that stays put, as long as two boxes of its
      size shifted by the reach still overlap enough and it moves from frame to
      frame at most the smoothing weight's part of that reach, in any direction. */
  lemma DriftFires(p: Params, frames: seq<Frame>, xs: seq<real>, ys: seq<real>, w: real, h: real, reachX: real,
                   reachY: real, conf: real, k: nat)
    requires p.threshold > 0.0 && 0.0 <= p.ema <= 1.0 && ReachLinks(p.iouLink, w, h, reachX, reachY)
    requires OneEach(frames, conf) && TimesAscend(frames) && k < |frames|
    requires Drifts(p, frames, xs, ys, w, h, reachX, reachY)
    ensures |FiredAt(p, frames, k)| == if ReachesAt(p, frames, conf, k) then 1 else 0
  {
    hide FiredAt, ReachesAt, LinksAt, Drifts, HeldInReach;
    DriftLinks(p, frames, xs, ys, w, h, reachX, reachY, conf, k);
    FiresWhenLinked(p, frames, conf, k);
  }

  function Walk(): (frames: seq<Frame>)
    ensures |frames| == 3
    ensures forall i :: 0 <= i < 3 ==>
              frames[i] == Frame(i as real / 2.0, [Box(i as real, 0.0, i as real + 100.0, 100.0)], [1.0])
  {
    seq(3, i requires 0 <= i < 3 => Frame(i as real / 2.0, [Box(i as real, 0.0, i as real + 100.0, 100.0)], [1.0]))
  }

  /** For instance, as deployed: a box of a hundred pixels that moves one pixel a
      frame fires on the third. */
  lemma MovingBoxFires()
    ensures |FiredAt(DEPLOYED, Walk(), 0)| == |FiredAt(DEPLOYED, Walk(), 1)| == 0
    ensures |FiredAt(DEPLOYED, Walk(), 2)| == 1
  {
    hide FiredAt;
    var frames := Walk();
    var xs, ys := [0.0, 1.0, 2.0], [0.0, 0.0, 0.0];
    assert Drifts(DEPLOYED, frames, xs, ys, 100.0, 100.0, 2.0, 0.0);
    assert !Reached(DEPLOYED, frames, 1.0, 0) && !Reached(DEPLOYED, frames, 1.0, 1);
    assert Reached(DEPLOYED, frames, 1.0, 2);
    DriftFires(DEPLOYED, frames, xs, ys, 100.0, 100.0, 2.0, 0.0, 1.0, 0);
    DriftFires(DEPLOYED, frames, xs, ys, 100.0, 100.0, 2.0, 0.0, 1.0, 1);
    DriftFires(DEPLOYED, frames, xs, ys, 100.0, 100.0, 2.0, 0.0, 1.0, 2);
  }
}
