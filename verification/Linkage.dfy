/** Position-based linking: which region each detection of a frame goes to, and
    where a region's smoothed box can be. */
module Linkage {
  import opened Boxes
  import opened Evidence
  import opened Regions
  import opened EvidenceRuns

  /** No open region overlaps enough, or `best` is open, overlaps enough and
      overlaps most; of several equally good ones it is the last. */
  predicate GreedyChoice(link: real, box: Box, regions: seq<RegionState>, matched: set<nat>, best: int) {
    && -1 <= best < |regions|
    && (best < 0 ==>
          forall i :: 0 <= i < |regions| && i !in matched ==> Iou(box, regions[i].box) < link)
    && (best >= 0 ==>
          && best !in matched
          && Iou(box, regions[best].box) >= link
          && forall i :: 0 <= i < |regions| && i !in matched ==>
               Iou(box, regions[i].box) < Iou(box, regions[best].box)
               || (Iou(box, regions[i].box) == Iou(box, regions[best].box) && i <= best))
  }

  lemma {:induction false} BestMatchIsGreedy(link: real, box: Box, regions: seq<RegionState>, matched: set<nat>, n: nat)
    requires n <= |regions|
    ensures GreedyChoice(link, box, regions[..n], matched, BestMatch(link, box, regions, matched, n))
  {
    hide Iou;
    if n > 0 {
      BestMatchIsGreedy(link, box, regions, matched, n - 1);
    }
  }

  /** Linking one more detection claims one region nobody claimed before: the
      greedy choice, or a new one when every open region overlaps too little.
      Every other region is untouched. */
  ghost predicate ClaimsOne(p: Params, t: real, dt: real, l: Linking, box: Box, conf: real, l': Linking) {
    exists best ::
      && GreedyChoice(p.iouLink, box, l.regions, l.matched, best)
      && var x := if best < 0 then |l.regions| else best;
         && x < |l'.regions| == (if best < 0 then |l.regions| + 1 else |l.regions|)
         && l'.matched == l.matched + {x}
         && (forall i :: 0 <= i < |l.regions| && i != x ==> l'.regions[i] == l.regions[i])
         && l'.regions[x].log == (if best < 0 then [] else l.regions[x].log) + [Hit(t, dt, conf, box)]
  }

  lemma LinkingIsGreedy(p: Params, s: State, f: Frame, k: nat)
    requires k < Pairs(f.boxes, f.confs)
    ensures var dt := Elapsed(s.prevT, f.t);
            ClaimsOne(p, f.t, dt, LinkAll(p, f.t, dt, s.regions, s.nextId, f.boxes, f.confs, k), f.boxes[k], f.confs[k],
                      LinkAll(p, f.t, dt, s.regions, s.nextId, f.boxes, f.confs, k + 1))
  {
    hide Iou, Smooth, BestMatch, GreedyChoice;
    var dt := Elapsed(s.prevT, f.t);
    var l := LinkAll(p, f.t, dt, s.regions, s.nextId, f.boxes, f.confs, k);
    var best := BestMatch(p.iouLink, f.boxes[k], l.regions, l.matched, |l.regions|);
    BestMatchIsGreedy(p.iouLink, f.boxes[k], l.regions, l.matched, |l.regions|);
    assert l.regions[..|l.regions|] == l.regions;
    assert GreedyChoice(p.iouLink, f.boxes[k], l.regions, l.matched, best);
  }

  /** Each of the frame's detections matches or creates a region of its own. */
  lemma {:induction false} OneRegionEach(p: Params, t: real, dt: real, regions: seq<RegionState>, nextId: nat,
                                         boxes: seq<Box>, confs: seq<real>, n: nat)
    requires n <= Pairs(boxes, confs)
    ensures var l := LinkAll(p, t, dt, regions, nextId, boxes, confs, n);
            |l.matched| == n && forall i :: i in l.matched ==> i < |l.regions|
  {
    hide Iou, Smooth, BestMatch;
    if n > 0 {
      OneRegionEach(p, t, dt, regions, nextId, boxes, confs, n - 1);
      var l := LinkAll(p, t, dt, regions, nextId, boxes, confs, n - 1);
      BestMatchIsUnmatched(p.iouLink, boxes[n - 1], l.regions, l.matched, |l.regions|);
    }
  }

  // -- where the smoothed box can be --------------------------------------

  predicate HitsOrdered(log: seq<Sighting>) {
    forall k :: 0 <= k < |log| && log[k].Hit? ==> Ordered(log[k].box)
  }

  predicate HitsInside(log: seq<Sighting>, low: Box, high: Box) {
    forall k :: 0 <= k < |log| && log[k].Hit? ==> EdgesWithin(log[k].box, low, high)
  }

  lemma {:induction false} BoxInHull(ema: real, log: seq<Sighting>, low: Box, high: Box)
    requires 0.0 <= ema <= 1.0 && StartsWithHit(log)
    ensures HitsOrdered(log) ==> Ordered(BoxOf(ema, log))
    ensures HitsInside(log, low, high) ==> EdgesWithin(BoxOf(ema, log), low, high)
  {
    hide Smooth, EdgesWithin, Ordered;
    if |log| > 1 {
      var front, last := log[..|log| - 1], log[|log| - 1];
      BoxInHull(ema, front, low, high);
      if last.Hit? {
        SmoothStaysInside(ema, last.box, BoxOf(ema, front), low, high);
      }
    }
  }

  /** After any frames, every region's box is ordered if its detections were,
      and stays inside any range that holds all detections linked to it. */
  lemma RegionBoxInHull(p: Params, frames: seq<Frame>, n: nat, r: RegionState, low: Box, high: Box)
    requires p.threshold > 0.0 && 0.0 <= p.ema <= 1.0
    requires n <= |frames| && r in After(p, frames, n).regions
    ensures HitsOrdered(r.log) ==> Ordered(r.box)
    ensures HitsInside(r.log, low, high) ==> EdgesWithin(r.box, low, high)
  {
    ExactEvidence(p, frames, n);
    hide After;
    assert Accounted(p, frames, n, r);
    BoxInHull(p.ema, r.log, low, high);
  }
}
