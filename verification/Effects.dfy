/** What one frame does to the regions held and what an event says, field by field
    (ai_engine/accumulate.py). */
module Effects {
  import opened Boxes
  import opened Common
  import opened Corroboration
  import opened Evidence
  import opened EvidenceRuns
  import opened Linkage
  import opened Regions

  // -- every detection counts --------------------------------------------------------

  /** Some region ends with this very detection. */
  predicate HitBy(l: Linking, s: Sighting) {
    exists i :: i in l.matched && i < |l.regions| && l.regions[i].log != [] && LatestOf(l.regions[i]) == s
  }

  lemma LinkHits(p: Params, t: real, dt: real, l: Linking, box: Box, conf: real, other: Sighting)
    requires forall i :: i in l.matched ==> i < |l.regions|
    ensures HitBy(Link(p, t, dt, l, box, conf), Hit(t, dt, conf, box))
    ensures HitBy(l, other) ==> HitBy(Link(p, t, dt, l, box, conf), other)
  {
    hide Smooth, BestMatch, Iou;
    var best := BestMatch(p.iouLink, box, l.regions, l.matched, |l.regions|);
    BestMatchIsUnmatched(p.iouLink, box, l.regions, l.matched, |l.regions|);
    var l' := Link(p, t, dt, l, box, conf);
    var x := if best < 0 then |l.regions| else best;
    assert x in l'.matched && LatestOf(l'.regions[x]) == Hit(t, dt, conf, box);
    if HitBy(l, other) {
      var i :| i in l.matched && i < |l.regions| && l.regions[i].log != [] && LatestOf(l.regions[i]) == other;
      assert l'.regions[i] == l.regions[i] && i in l'.matched;
    }
  }

  lemma {:induction false} AllHit(p: Params, t: real, dt: real, regions: seq<RegionState>, nextId: nat,
                                  boxes: seq<Box>, confs: seq<real>, n: nat)
    requires n <= Pairs(boxes, confs)
    ensures var l := LinkAll(p, t, dt, regions, nextId, boxes, confs, n);
            forall k :: 0 <= k < n ==> HitBy(l, Hit(t, dt, confs[k], boxes[k]))
  {
    hide HitBy, Link;
    if n > 0 {
      AllHit(p, t, dt, regions, nextId, boxes, confs, n - 1);
      OneRegionEach(p, t, dt, regions, nextId, boxes, confs, n - 1);
      var l := LinkAll(p, t, dt, regions, nextId, boxes, confs, n - 1);
      forall k | 0 <= k < n
        ensures HitBy(LinkAll(p, t, dt, regions, nextId, boxes, confs, n), Hit(t, dt, confs[k], boxes[k]))
      {
        LinkHits(p, t, dt, l, boxes[n - 1], confs[n - 1], Hit(t, dt, confs[k], boxes[k]));
      }
    }
  }

  predicate Latest(r: RegionState, hit: Sighting) {
    r.log != [] && LatestOf(r) == hit
  }

  /** After the frame a region holds this detection as its latest entry, unless it
      has no evidence to be kept for. */
  ghost predicate CountedIn(s: State, hit: Sighting) {
    exists r: RegionState :: Latest(r, hit) && (r in s.regions || (r.score <= 0.0 && !r.fired))
  }

  /** Every detection that has a confidence counts for a region, whatever else the
      frame shows. */
  lemma EveryDetectionCounts(p: Params, s: State, t: real, boxes: seq<Box>, confs: seq<real>, k: nat)
    requires k < |boxes| && k < |confs| && IdsAscend(s.regions, s.nextId)
    requires forall i :: 0 <= i < |s.regions| ==> Explained(p, s.regions[i])
    ensures CountedIn(Step(p, s, t, boxes, confs).state, Hit(t, Elapsed(s.prevT, t), confs[k], boxes[k]))
  {
    hide LinkAll, Explained, Smooth, Survivors, SettleAll;
    var dt := Elapsed(s.prevT, t);
    var n := Pairs(boxes, confs);
    var l := Linked(p, s, t, boxes, confs);
    AllHit(p, t, dt, s.regions, s.nextId, boxes, confs, n);
    LinkAllKeeps(p, t, dt, s.regions, s.nextId, boxes, confs, n);
    var hit := Hit(t, dt, confs[k], boxes[k]);
    assert HitBy(l, hit);
    var i :| i in l.matched && i < |l.regions| && l.regions[i].log != [] && LatestOf(l.regions[i]) == hit;
    SettleAllAt(p, t, dt, l, |l.regions|, i);
    SettledAscend(p, t, dt, l);
    var settled := SettleAll(p, t, dt, l, |l.regions|);
    SurvivorsAre(settled, l.nextId);
    assert settled[i] in settled;
    assert Latest(settled[i], hit);
  }

  // -- a frame without detections ------------------------------------------------------

  /** `r'` is `r` after `dt` seconds without support: everything as it was but the
      evidence lost. */
  predicate Unsupported(p: Params, t: real, dt: real, r: RegionState, r': RegionState) {
    && r'.id == r.id && r'.box == r.box && r'.peak == r.peak && r'.firstT == r.firstT && r'.lastT == r.lastT
    && r'.score == (if r.score - p.decay * dt > 0.0 then r.score - p.decay * dt else 0.0)
    && (r.fired ==> r'.fired)
  }

  lemma LeakIsUnsupported(p: Params, t: real, dt: real, r: RegionState)
    ensures Unsupported(p, t, dt, r, Settle(p, t, dt, r, false))
  {
  }

  lemma QuietlySettled(p: Params, s: State, t: real)
    requires IdsAscend(s.regions, s.nextId)
    ensures var dt := Elapsed(s.prevT, t);
            var settled := SettleAll(p, t, dt, Linking(s.regions, {}, s.nextId), |s.regions|);
            && Step(p, s, t, [], []).state.regions == Survivors(settled)
            && IdsAscend(settled, s.nextId) && |settled| == |s.regions|
            && forall i :: 0 <= i < |s.regions| ==> settled[i] == Settle(p, t, dt, s.regions[i], false)
  {
    hide Settle, Survivors;
    assert Linked(p, s, t, [], []) == Linking(s.regions, {}, s.nextId);
    SettledAscend(p, t, Elapsed(s.prevT, t), Linking(s.regions, {}, s.nextId));
  }

  /** The one with an id, among regions with ascending ids. */
  lemma SameId(regions: seq<RegionState>, nextId: nat, i: nat, r: RegionState)
    requires IdsAscend(regions, nextId) && i < |regions| && r in regions && r.id == regions[i].id
    ensures r == regions[i]
  {
    var j :| 0 <= j < |regions| && regions[j] == r;
  }

  /** What every region held becomes on a frame that shows nothing: it goes when its
      evidence is gone, unless it has fired. */
  lemma QuietFrame(p: Params, s: State, t: real, i: nat)
    requires i < |s.regions| && IdsAscend(s.regions, s.nextId) && p.threshold > 0.0
    ensures var r, dt, after := s.regions[i], Elapsed(s.prevT, t), Step(p, s, t, [], []).state;
            && ((exists r' :: r' in after.regions && r'.id == r.id) <==> r.fired || r.score - p.decay * dt > 0.0)
            && (forall r' :: r' in after.regions && r'.id == r.id ==> Unsupported(p, t, dt, r, r'))
  {
    hide Unsupported, Survivors, SettleAll, Step, IdsAscend;
    var dt := Elapsed(s.prevT, t);
    QuietlySettled(p, s, t);
    var settled := SettleAll(p, t, dt, Linking(s.regions, {}, s.nextId), |s.regions|);
    SurvivorsAre(settled, s.nextId);
    LeakIsUnsupported(p, t, dt, s.regions[i]);
    assert settled[i] in settled;
    forall r' | r' in Survivors(settled) && r'.id == s.regions[i].id
      ensures r' == settled[i]
    {
      SameId(settled, s.nextId, i, r');
    }
  }

  // -- what an event says ----------------------------------------------------------------

  predicate Within(a: real, b: real, d: real) {
    -d <= a - b <= d
  }

  /** The largest confidence among the hits of a log. */
  predicate IsPeak(log: seq<Sighting>, peak: real) {
    && (forall k :: 0 <= k < |log| && log[k].Hit? ==> log[k].conf <= peak)
    && exists k :: 0 <= k < |log| && log[k].Hit? && log[k].conf == peak
  }

  lemma {:induction false} PeakIsPeak(log: seq<Sighting>)
    requires StartsWithHit(log)
    ensures IsPeak(log, PeakOf(log))
  {
    HitsAtMostPeak(log);
    if |log| > 1 {
      var front, last := log[..|log| - 1], log[|log| - 1];
      PeakIsPeak(front);
      var k :| 0 <= k < |front| && front[k].Hit? && front[k].conf == PeakOf(front);
      assert log[k] == front[k] && log[|log| - 1] == last;
    }
  }

  predicate IsFraction(x: real, n: int, scale: int)
    requires scale > 0
  {
    x == n as real / scale as real
  }

  ghost predicate HasDigits(x: real, scale: int)
    requires scale > 0
  {
    exists n :: IsFraction(x, n, scale)
  }

  lemma RoundedIsNear(x: real, scale: int)
    requires scale > 0
    ensures -0.5 <= (x - Rounded(x, scale)) * scale as real <= 0.5
    ensures HasDigits(Rounded(x, scale), scale)
  {
    var n := RoundHalfEven(x * scale as real);
    assert IsFraction(Rounded(x, scale), n, scale);
    assert Rounded(x, scale) * scale as real == n as real;
    assert (x - Rounded(x, scale)) * scale as real == x * scale as real - n as real;
  }

  /** The event of a region that has this log: its time, its smoothed box, the
      evidence and the peak to three digits, the age to two. */
  ghost predicate Says(p: Params, t: real, log: seq<Sighting>, e: Event) {
    && StartsWithHit(log) && e.t == t && e.box == BoxOf(p.ema, log)
    && Within(e.score, Balance(p.decay, log), 0.0005)
    && (exists peak :: IsPeak(log, peak) && Within(e.peakConf, peak, 0.0005))
    && Within(e.ageS, t - log[0].t, 0.005)
    && HasDigits(e.score, 1000) && HasDigits(e.peakConf, 1000) && HasDigits(e.ageS, 100)
  }

  /** Over every run, each event is about a region that fired on this frame and says
      so of it. */
  lemma EventsSay(p: Params, frames: seq<Frame>, k: nat, j: nat)
    requires p.threshold > 0.0 && k < |frames| && j < |FiredAt(p, frames, k)|
    ensures Says(p, frames[k].t, FiredAt(p, frames, k)[j].log, Reports(frames[k].t, FiredAt(p, frames, k))[j])
  {
    hide FiredAt, Balance, BoxOf, PeakOf, LastHitTime, IsPeak, Covers, Rounded, HasDigits;
    EventsAreJust(p, frames, k);
    var t, r := frames[k].t, FiredAt(p, frames, k)[j];
    assert r in FiredAt(p, frames, k);
    assert FiresJustly(p, frames, k, r);
    PeakIsPeak(r.log);
    RoundedIsNear(r.score, 1000);
    RoundedIsNear(r.peak, 1000);
    RoundedIsNear(t - r.firstT, 100);
    assert IsPeak(r.log, r.peak) && Within(Rounded(r.peak, 1000), r.peak, 0.0005);
  }

  // -- where the smoothed box goes ---------------------------------------------------------

  function Times(n: nat, s: Sighting): (log: seq<Sighting>)
    ensures |log| == n && forall i :: 0 <= i < n ==> log[i] == s
  {
    seq(n, i requires 0 <= i < n => s)
  }

  function Power(x: real, n: nat): real {
    if n == 0 then 1.0 else Power(x, n - 1) * x
  }

  lemma MixLeavesRest(w: real, next: real, previous: real)
    ensures next - Mix(w, next, previous) == (1.0 - w) * (next - previous)
  {
    assert (1.0 - w) * (next - previous) == (1.0 - w) * next - (1.0 - w) * previous;
    assert (1.0 - w) * next == next - w * next;
  }

  lemma Regroup(rest: real, power: real, gap: real, share: real)
    requires share == power * rest
    ensures rest * (power * gap) == share * gap
  {
  }

  /** One more sighting takes the gap from `power` of itself to `power * rest`. */
  /** What is left of the way to `goal` is this share of the way from `start`. */
  predicate OffBy(x: real, goal: real, share: real, start: real) {
    goal - x == share * (goal - start)
  }

  lemma GapShrinks(w: real, next: real, previous: real, power: real, share: real, start: real)
    requires OffBy(previous, next, power, start) && share == power * (1.0 - w)
    ensures OffBy(Mix(w, next, previous), next, share, start)
  {
    hide Mix;
    MixLeavesRest(w, next, previous);
    Regroup(1.0 - w, power, next - start, share);
  }

  lemma SmoothIs(w: real, next: Box, previous: Box)
    ensures var b := Smooth(w, next, previous);
            && b.x1 == Mix(w, next.x1, previous.x1) && b.y1 == Mix(w, next.y1, previous.y1)
            && b.x2 == Mix(w, next.x2, previous.x2) && b.y2 == Mix(w, next.y2, previous.y2)
  {
  }

  /** How far a box is from another, edge by edge. */
  predicate Off(b: Box, goal: Box, share: real, start: Box) {
    && OffBy(b.x1, goal.x1, share, start.x1) && OffBy(b.y1, goal.y1, share, start.y1)
    && OffBy(b.x2, goal.x2, share, start.x2) && OffBy(b.y2, goal.y2, share, start.y2)
  }

  lemma OffShrinks(w: real, next: Box, previous: Box, power: real, share: real, start: Box)
    requires Off(previous, next, power, start) && share == power * (1.0 - w)
    ensures Off(Smooth(w, next, previous), next, share, start)
  {
    hide Mix, Smooth, OffBy;
    SmoothIs(w, next, previous);
    GapShrinks(w, next.x1, previous.x1, power, share, start.x1);
    GapShrinks(w, next.y1, previous.y1, power, share, start.y1);
    GapShrinks(w, next.x2, previous.x2, power, share, start.x2);
    GapShrinks(w, next.y2, previous.y2, power, share, start.y2);
  }

  lemma OffWhole(start: Box, goal: Box)
    ensures Off(start, goal, 1.0, start)
  {
  }

  /** Each further sighting of one box leaves the rest `1 - ema` of the distance to
      it: after `n` of them the smoothed box is off by that to the power of `n`. */
  lemma {:induction false} BoxConverges(ema: real, log: seq<Sighting>, hit: Sighting, n: nat)
    requires StartsWithHit(log) && hit.Hit?
    ensures var all := log + Times(n, hit);
            StartsWithHit(all) && Off(BoxOf(ema, all), hit.box, Power(1.0 - ema, n), BoxOf(ema, log))
  {
    hide Off, Smooth;
    var all := log + Times(n, hit);
    if n == 0 {
      assert all == log;
      OffWhole(BoxOf(ema, log), hit.box);
    } else {
      BoxConverges(ema, log, hit, n - 1);
      assert all[..|all| - 1] == log + Times(n - 1, hit);
      assert Power(1.0 - ema, n) == Power(1.0 - ema, n - 1) * (1.0 - ema);
      assert BoxOf(ema, all) == Smooth(ema, hit.box, BoxOf(ema, all[..|all| - 1]));
      OffShrinks(ema, hit.box, BoxOf(ema, all[..|all| - 1]), Power(1.0 - ema, n - 1), Power(1.0 - ema, n),
                 BoxOf(ema, log));
    }
  }
}
