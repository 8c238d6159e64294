/** A detection that is linked on every frame fires on elapsed time, not on frame
    count: one that stays put, and one that moves slowly enough. */
module Cadence {
  import opened Boxes
  import opened Common
  import opened Evidence
  import opened EvidenceRuns
  import opened Corroboration

  /** One detection on every frame, always at the same confidence. */
  predicate OneEach(frames: seq<Frame>, conf: real) {
    forall i :: 0 <= i < |frames| ==> |frames[i].boxes| == 1 && frames[i].confs == [conf]
  }

  /** Frame `k` has reached the threshold, counting from the first frame. */
  predicate Reached(p: Params, frames: seq<Frame>, conf: real, k: nat)
    requires k < |frames|
  {
    conf * (frames[k].t - frames[0].t) >= p.threshold && frames[k].t >= -1.0
  }

  /** One region that has seen every frame since the first, or none while it
      has no evidence. */
  predicate HoldsOne(p: Params, frames: seq<Frame>, conf: real, k: nat, s: State)
    requires k < |frames|
  {
    var score := conf * (frames[k].t - frames[0].t);
    && s.prevT == Some(frames[k].t)
    && if score > 0.0 then
         && |s.regions| == 1
         && var r := s.regions[0];
            && r.score == score
            && (r.fired <==> Reached(p, frames, conf, k))
            && (!r.fired ==> r.cooldownUntil == -1.0)
       else s.regions == []
  }

  lemma ScoreAdds(conf: real, t0: real, t1: real, t2: real)
    requires t0 <= t1 <= t2
    ensures conf * (t1 - t0) + conf * (t2 - t1) == conf * (t2 - t0)
    ensures conf * (t1 - t0) > 0.0 ==> conf * (t2 - t0) >= conf * (t1 - t0)
  {
    var a, b := t1 - t0, t2 - t1;
    if conf > 0.0 {
      Product(0.0, conf, b);
    } else {
      Product(conf, 0.0, a);
    }
  }

  lemma ScoreStarts(conf: real, t0: real, t1: real, t2: real)
    requires t0 <= t1 <= t2 && conf * (t1 - t0) <= 0.0
    ensures conf * (t2 - t1) > 0.0 <==> conf * (t2 - t0) > 0.0
    ensures conf * (t2 - t1) > 0.0 ==> conf * (t2 - t1) == conf * (t2 - t0)
  {
    var a, b := t1 - t0, t2 - t1;
    if conf > 0.0 {
      assert a > 0.0 ==> conf * a > 0.0;
    } else {
      Product(conf, 0.0, b);
      Product(conf, 0.0, a + b);
    }
  }

  lemma OneSettled(p: Params, t: real, dt: real, l: Linking)
    requires |l.regions| == 1 && 0 in l.matched
    ensures var r := Settle(p, t, dt, l.regions[0], true);
            && SettleAll(p, t, dt, l, 1) == [r]
            && Survivors([r]) == (if Kept(r) then [r] else [])
            && Firings(p, t, dt, l, 1) == (if Fires(p, t, l.regions[0]) then [r] else [])
  {
    hide Settle, Fires;
    var r := Settle(p, t, dt, l.regions[0], true);
    assert SettleAll(p, t, dt, l, 0) == [] && Firings(p, t, dt, l, 0) == [];
    assert [r][..0] == [];
    assert Survivors([r]) == Survivors([]) + (if Kept(r) then [r] else []);
  }

  /** Nothing held: a detection starts a region that lives only if it has
      evidence. */
  lemma StepFromNothing(p: Params, s: State, t: real, box: Box, conf: real)
    requires p.threshold > 0.0 && s.regions == []
    ensures var dt := Elapsed(s.prevT, t);
            var r := Settle(p, t, dt, Created(s.nextId, t, dt, box, conf), true);
            var o := Step(p, s, t, [box], [conf]);
            && o.state.prevT == Some(t)
            && o.state.regions == (if conf * dt > 0.0 then [r] else [])
            && o.fired == (if conf * dt >= p.threshold && t >= -1.0 then [r] else [])
  {
    hide Iou, Smooth;
    var dt := Elapsed(s.prevT, t);
    var l := LinkAll(p, t, dt, [], s.nextId, [box], [conf], 1);
    assert LinkAll(p, t, dt, [], s.nextId, [box], [conf], 0) == Linking([], {}, s.nextId);
    assert l == Linking([Created(s.nextId, t, dt, box, conf)], {0}, s.nextId + 1);
    OneSettled(p, t, dt, l);
  }

  /** The region held overlaps enough: it is matched again and gains `conf * dt`. */
  lemma StepFromOne(p: Params, s: State, t: real, box: Box, conf: real)
    requires p.threshold > 0.0 && |s.regions| == 1 && Iou(box, s.regions[0].box) >= p.iouLink
    ensures var dt := Elapsed(s.prevT, t);
            var linked := Supported(p, s.regions[0], t, dt, box, conf);
            var r := Settle(p, t, dt, linked, true);
            var o := Step(p, s, t, [box], [conf]);
            && linked.box == Smooth(p.ema, box, s.regions[0].box)
            && o.state.prevT == Some(t)
            && o.state.regions == (if Kept(r) then [r] else [])
            && o.fired == (if Fires(p, t, linked) then [r] else [])
  {
    hide Iou, Smooth;
    var dt := Elapsed(s.prevT, t);
    var none := Linking(s.regions, {}, s.nextId);
    var l := LinkAll(p, t, dt, s.regions, s.nextId, [box], [conf], 1);
    assert LinkAll(p, t, dt, s.regions, s.nextId, [box], [conf], 0) == none;
    assert BestMatch(p.iouLink, box, s.regions, {}, 0) == -1;
    assert BestMatch(p.iouLink, box, s.regions, {}, 1) == 0;
    assert l == Linking([Supported(p, s.regions[0], t, dt, box, conf)], {0}, s.nextId);
    OneSettled(p, t, dt, l);
  }

  lemma NoRegionNoScore(p: Params, frames: seq<Frame>, conf: real, k: nat, s: State)
    requires k < |frames| && HoldsOne(p, frames, conf, k, s) && s.regions == []
    ensures conf * (frames[k].t - frames[0].t) <= 0.0
  {
  }

  predicate FirstReached(p: Params, frames: seq<Frame>, conf: real, k: nat)
    requires k < |frames|
  {
    Reached(p, frames, conf, k) && (k == 0 || !Reached(p, frames, conf, k - 1))
  }

  /** The box of the region held, if one is: the detection that started it, then
      smoothed towards each further one. */
  predicate Tracks(p: Params, s: State, box: Box, s': State) {
    s'.regions != [] ==>
      s'.regions[0].box == if s.regions == [] then box else Smooth(p.ema, box, s.regions[0].box)
  }

  lemma OneFromNothing(p: Params, frames: seq<Frame>, box: Box, conf: real, k: nat, s: State)
    requires p.threshold > 0.0 && TimesAscend(frames) && k < |frames|
    requires s.regions == []
    requires if k > 0 then HoldsOne(p, frames, conf, k - 1, s) else s.prevT == None
    ensures var o := Step(p, s, frames[k].t, [box], [conf]);
            && HoldsOne(p, frames, conf, k, o.state) && Tracks(p, s, box, o.state)
            && |o.fired| == if FirstReached(p, frames, conf, k) then 1 else 0
  {
    hide Step, Smooth;
    var t0, t := frames[0].t, frames[k].t;
    StepFromNothing(p, s, t, box, conf);
    if k > 0 {
      NoRegionNoScore(p, frames, conf, k - 1, s);
      ScoreStarts(conf, t0, frames[k - 1].t, t);
    }
  }

  lemma OneFromOne(p: Params, frames: seq<Frame>, box: Box, conf: real, k: nat, s: State)
    requires p.threshold > 0.0 && TimesAscend(frames) && 0 < k < |frames|
    requires s.regions != [] && HoldsOne(p, frames, conf, k - 1, s)
    requires Iou(box, s.regions[0].box) >= p.iouLink
    ensures var o := Step(p, s, frames[k].t, [box], [conf]);
            && HoldsOne(p, frames, conf, k, o.state) && Tracks(p, s, box, o.state)
            && |o.fired| == if FirstReached(p, frames, conf, k) then 1 else 0
  {
    hide Step, Smooth, Iou;
    var t0, t1, t := frames[0].t, frames[k - 1].t, frames[k].t;
    StepFromOne(p, s, t, box, conf);
    ScoreAdds(conf, t0, t1, t);
    assert Elapsed(s.prevT, t) == t - t1;
  }

  /** On frame `k` the detection overlaps the region held, if there is one. */
  predicate LinksAt(p: Params, frames: seq<Frame>, k: nat)
    requires k < |frames| && |frames[k].boxes| == 1
  {
    var s := After(p, frames, k);
    s.regions != [] ==> Iou(frames[k].boxes[0], s.regions[0].box) >= p.iouLink
  }

  lemma OneStep(p: Params, frames: seq<Frame>, conf: real, k: nat)
    requires p.threshold > 0.0 && OneEach(frames, conf) && TimesAscend(frames) && k < |frames|
    requires k > 0 ==> HoldsOne(p, frames, conf, k - 1, After(p, frames, k))
    requires LinksAt(p, frames, k)
    ensures HoldsOne(p, frames, conf, k, After(p, frames, k + 1))
    ensures Tracks(p, After(p, frames, k), frames[k].boxes[0], After(p, frames, k + 1))
    ensures |FiredAt(p, frames, k)| == if FirstReached(p, frames, conf, k) then 1 else 0
  {
    hide Step, HoldsOne, FirstReached, Iou, Tracks;
    var s := After(p, frames, k);
    assert frames[k].boxes == [frames[k].boxes[0]];
    if s.regions == [] {
      OneFromNothing(p, frames, frames[k].boxes[0], conf, k, s);
    } else {
      OneFromOne(p, frames, frames[k].boxes[0], conf, k, s);
    }
  }

  predicate LinksUpTo(p: Params, frames: seq<Frame>, conf: real, n: nat)
    requires n <= |frames| && OneEach(frames, conf)
  {
    forall k :: 0 <= k < n ==> LinksAt(p, frames, k)
  }

  lemma {:induction false} OneAfter(p: Params, frames: seq<Frame>, conf: real, k: nat)
    requires p.threshold > 0.0 && OneEach(frames, conf) && TimesAscend(frames) && k < |frames|
    requires LinksUpTo(p, frames, conf, k + 1)
    ensures HoldsOne(p, frames, conf, k, After(p, frames, k + 1))
    ensures Tracks(p, After(p, frames, k), frames[k].boxes[0], After(p, frames, k + 1))
  {
    hide HoldsOne, LinksAt, After, Tracks, FirstReached, FiredAt;
    if k > 0 {
      OneAfter(p, frames, conf, k - 1);
    }
    OneStep(p, frames, conf, k);
  }

  lemma StaysReached(p: Params, frames: seq<Frame>, conf: real, j: nat, k: nat)
    requires p.threshold > 0.0 && TimesAscend(frames) && j <= k < |frames| && Reached(p, frames, conf, j)
    ensures Reached(p, frames, conf, k)
  {
    ScoreAdds(conf, frames[0].t, frames[j].t, frames[k].t);
  }

  /** Frame `k` is the first to reach the threshold. */
  predicate ReachesAt(p: Params, frames: seq<Frame>, conf: real, k: nat)
    requires k < |frames|
  {
    Reached(p, frames, conf, k) && forall j :: 0 <= j < k ==> !Reached(p, frames, conf, j)
  }

  /** Whatever the spacing of the frames, a detection that overlaps its region on
      every frame fires exactly once, on the first frame at which confidence times
      elapsed time has reached the threshold, and never if none does. */
  lemma FiresWhenLinked(p: Params, frames: seq<Frame>, conf: real, k: nat)
    requires p.threshold > 0.0 && OneEach(frames, conf) && TimesAscend(frames) && k < |frames|
    requires LinksUpTo(p, frames, conf, k + 1)
    ensures |FiredAt(p, frames, k)| == if ReachesAt(p, frames, conf, k) then 1 else 0
  {
    hide FiredAt, Reached, LinksAt, After, HoldsOne, Tracks;
    if k > 0 {
      OneAfter(p, frames, conf, k - 1);
      forall j | 0 <= j < k && Reached(p, frames, conf, j)
        ensures Reached(p, frames, conf, k - 1)
      {
        StaysReached(p, frames, conf, j, k - 1);
      }
    }
    OneStep(p, frames, conf, k);
  }

  // -- a box that stays put ----------------------------------------------------------

  /** The same box at the same confidence on every frame. */
  predicate Steady(frames: seq<Frame>, box: Box, conf: real) {
    forall i :: 0 <= i < |frames| ==> frames[i].boxes == [box] && frames[i].confs == [conf]
  }

  predicate HeldIs(s: State, box: Box) {
    s.regions != [] ==> s.regions[0].box == box
  }

  lemma SteadyNext(p: Params, frames: seq<Frame>, box: Box, conf: real, k: nat)
    requires p.iouLink <= 1.0 && PositiveArea(box) && Steady(frames, box, conf) && k < |frames|
    requires HeldIs(After(p, frames, k), box)
    ensures LinksAt(p, frames, k)
    ensures Tracks(p, After(p, frames, k), box, After(p, frames, k + 1)) ==> HeldIs(After(p, frames, k + 1), box)
  {
    hide After, Iou, Smooth;
    IouLaws(box, box);
    SmoothFixpoint(p.ema, box);
  }

  lemma NothingYet(p: Params, frames: seq<Frame>, box: Box)
    ensures HeldIs(After(p, frames, 0), box)
  {
  }

  lemma {:induction false} SteadyLinks(p: Params, frames: seq<Frame>, box: Box, conf: real, n: nat)
    requires p.threshold > 0.0 && p.iouLink <= 1.0 && PositiveArea(box)
    requires Steady(frames, box, conf) && TimesAscend(frames) && n <= |frames|
    ensures LinksUpTo(p, frames, conf, n) && HeldIs(After(p, frames, n), box)
  {
    hide HoldsOne, Tracks, LinksAt, TimesAscend, After, HeldIs;
    if n == 0 {
      NothingYet(p, frames, box);
    } else {
      SteadyLinks(p, frames, box, conf, n - 1);
      SteadyNext(p, frames, box, conf, n - 1);
      OneAfter(p, frames, conf, n - 1);
    }
  }

  /** Cadence independence: a box that stays put fires so. */
  lemma FiresOnElapsedTime(p: Params, frames: seq<Frame>, box: Box, conf: real, k: nat)
    requires p.threshold > 0.0 && p.iouLink <= 1.0 && PositiveArea(box)
    requires Steady(frames, box, conf) && TimesAscend(frames) && k < |frames|
    ensures |FiredAt(p, frames, k)|
            == if Reached(p, frames, conf, k) && (forall j :: 0 <= j < k ==> !Reached(p, frames, conf, j)) then 1 else 0
  {
    hide FiredAt, Reached;
    SteadyLinks(p, frames, box, conf, k + 1);
    FiresWhenLinked(p, frames, conf, k);
  }
}
