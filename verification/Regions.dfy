/** What the evidence of a region means: every field of a region is a function
    of its log, and one frame extends each log by one entry. */
module Regions {
  import opened Boxes
  import opened Evidence

  /** Evidence gained on matching frames minus evidence leaked on the others. */
  function Gain(decay: real, s: Sighting): real {
    match s
    case Hit(_, dt, conf, _) => conf * dt
    case Miss(_, dt) => -(decay * dt)
  }

  function Balance(decay: real, log: seq<Sighting>): real {
    if log == [] then 0.0
    else Balance(decay, log[..|log| - 1]) + Gain(decay, log[|log| - 1])
  }

  predicate StartsWithHit(log: seq<Sighting>) {
    log != [] && log[0].Hit?
  }

  function PeakOf(log: seq<Sighting>): real
    requires StartsWithHit(log)
  {
    var last := log[|log| - 1];
    if |log| == 1 then last.conf
    else
      var before := PeakOf(log[..|log| - 1]);
      if last.Hit? then Max(before, last.conf) else before
  }

  function BoxOf(ema: real, log: seq<Sighting>): Box
    requires StartsWithHit(log)
  {
    var last := log[|log| - 1];
    if |log| == 1 then last.box
    else
      var before := BoxOf(ema, log[..|log| - 1]);
      if last.Hit? then Smooth(ema, last.box, before) else before
  }

  function LastHitTime(log: seq<Sighting>): real
    requires StartsWithHit(log)
  {
    var last := log[|log| - 1];
    if last.Hit? then last.t else LastHitTime(log[..|log| - 1])
  }

  /** The log accounts for the region: for the score only until it fires. */
  predicate Explained(p: Params, r: RegionState) {
    && StartsWithHit(r.log)
    && r.box == BoxOf(p.ema, r.log)
    && r.peak == PeakOf(r.log)
    && r.firstT == r.log[0].t
    && r.lastT == LastHitTime(r.log)
    && (!r.fired ==> r.score == Balance(p.decay, r.log) && r.cooldownUntil == -1.0)
  }

  predicate IdsAscend(regions: seq<RegionState>, nextId: nat) {
    && (forall i, j :: 0 <= i < j < |regions| ==> regions[i].id < regions[j].id)
    && forall i :: 0 <= i < |regions| ==> regions[i].id < nextId
  }

  /** `r'` is `r` one frame later, still carrying its score unclamped. */
  predicate Extends(r: RegionState, r': RegionState, t: real, dt: real) {
    && r'.id == r.id && r'.fired == r.fired
    && |r'.log| == |r.log| + 1 && r'.log[..|r.log|] == r.log
    && r'.log[|r.log|].t == t && r'.log[|r.log|].dt == dt
  }

  function LatestOf(r: RegionState): Sighting
    requires r.log != []
  {
    r.log[|r.log| - 1]
  }

  predicate JustCreated(r: RegionState, t: real, dt: real) {
    && !r.fired && |r.log| == 1
    && r.log[0].Hit? && r.log[0].t == t && r.log[0].dt == dt
  }

  // -- linking one frame's detections -------------------------------------

  /** The sighting is one of the frame's first `n` detections. */
  predicate Detected(boxes: seq<Box>, confs: seq<real>, n: nat, s: Sighting)
    requires n <= Pairs(boxes, confs)
  {
    s.Hit? && exists d :: 0 <= d < n && boxes[d] == s.box && confs[d] == s.conf
  }

  /** Linking leaves unmatched regions alone and adds exactly one hit, taken
      from the frame's first `n` detections, to each matched one. */
  predicate LinkedFrom(p: Params, t: real, dt: real, before: seq<RegionState>, nextId: nat,
                       boxes: seq<Box>, confs: seq<real>, n: nat, l: Linking)
    requires n <= Pairs(boxes, confs)
  {
    && |before| <= |l.regions| && l.nextId == nextId + |l.regions| - |before|
    && (forall i :: i in l.matched ==> i < |l.regions|)
    && (forall i :: 0 <= i < |l.regions| && i !in l.matched ==> i < |before| && l.regions[i] == before[i])
    && (forall i :: |before| <= i < |l.regions| ==> JustCreated(l.regions[i], t, dt))
    && (forall i :: 0 <= i < |before| && i in l.matched ==>
          Extends(before[i], l.regions[i], t, dt))
    && (forall i :: 0 <= i < |l.regions| ==> Explained(p, l.regions[i]))
    && (forall i :: i in l.matched ==> Detected(boxes, confs, n, LatestOf(l.regions[i])))
    && IdsAscend(l.regions, l.nextId)
  }

  lemma SupportedIsExplained(p: Params, r: RegionState, t: real, dt: real, box: Box, conf: real)
    requires Explained(p, r)
    ensures Explained(p, Supported(p, r, t, dt, box, conf))
    ensures Extends(r, Supported(p, r, t, dt, box, conf), t, dt)
  {
    var log' := r.log + [Hit(t, dt, conf, box)];
    assert log'[..|log'| - 1] == r.log;
  }

  lemma {:induction false} BestMatchIsUnmatched(link: real, box: Box, regions: seq<RegionState>, matched: set<nat>,
                                                n: nat)
    requires n <= |regions|
    ensures var best := BestMatch(link, box, regions, matched, n);
            best >= 0 ==> best !in matched
  {
    if n > 0 {
      BestMatchIsUnmatched(link, box, regions, matched, n - 1);
    }
  }

  lemma DetectedGrows(boxes: seq<Box>, confs: seq<real>, n: nat, s: Sighting)
    requires n < Pairs(boxes, confs) && Detected(boxes, confs, n, s)
    ensures Detected(boxes, confs, n + 1, s)
  {
  }

  lemma NextIsDetected(boxes: seq<Box>, confs: seq<real>, n: nat, t: real, dt: real)
    requires n < Pairs(boxes, confs)
    ensures Detected(boxes, confs, n + 1, Hit(t, dt, confs[n], boxes[n]))
  {
  }

  lemma CreatedIsExplained(p: Params, id: nat, t: real, dt: real, box: Box, conf: real)
    ensures Explained(p, Created(id, t, dt, box, conf))
  {
    var log := [Hit(t, dt, conf, box)];
    assert log[..0] == [];
    assert Balance(p.decay, log) == 0.0 + conf * dt;
  }

  lemma LinkKeeps(p: Params, t: real, dt: real, before: seq<RegionState>, nextId: nat,
                  boxes: seq<Box>, confs: seq<real>, n: nat, l: Linking)
    requires n < Pairs(boxes, confs)
    requires LinkedFrom(p, t, dt, before, nextId, boxes, confs, n, l)
    ensures LinkedFrom(p, t, dt, before, nextId, boxes, confs, n + 1, Link(p, t, dt, l, boxes[n], confs[n]))
  {
    hide Explained, Smooth, BestMatch, Detected;
    var box, conf := boxes[n], confs[n];
    var best := BestMatch(p.iouLink, box, l.regions, l.matched, |l.regions|);
    forall i | i in l.matched
      ensures Detected(boxes, confs, n + 1, LatestOf(l.regions[i]))
    {
      DetectedGrows(boxes, confs, n, LatestOf(l.regions[i]));
    }
    NextIsDetected(boxes, confs, n, t, dt);
    if best < 0 {
      CreatedIsExplained(p, l.nextId, t, dt, box, conf);
    } else {
      BestMatchIsUnmatched(p.iouLink, box, l.regions, l.matched, |l.regions|);
      SupportedIsExplained(p, l.regions[best], t, dt, box, conf);
      assert l.regions[best] == before[best];
    }
  }

  lemma {:induction false} LinkAllKeeps(p: Params, t: real, dt: real, before: seq<RegionState>, nextId: nat,
                                        boxes: seq<Box>, confs: seq<real>, n: nat)
    requires n <= Pairs(boxes, confs)
    requires IdsAscend(before, nextId) && forall i :: 0 <= i < |before| ==> Explained(p, before[i])
    ensures LinkedFrom(p, t, dt, before, nextId, boxes, confs, n,
                       LinkAll(p, t, dt, before, nextId, boxes, confs, n))
  {
    hide Explained, Link, Detected;
    if n > 0 {
      hide LinkedFrom;
      LinkAllKeeps(p, t, dt, before, nextId, boxes, confs, n - 1);
      LinkKeeps(p, t, dt, before, nextId, boxes, confs, n - 1,
                LinkAll(p, t, dt, before, nextId, boxes, confs, n - 1));
    }
  }

  // -- leaking, firing and dropping ---------------------------------------

  lemma {:induction false} SettleAllAt(p: Params, t: real, dt: real, l: Linking, n: nat, i: nat)
    requires i < n <= |l.regions|
    ensures SettleAll(p, t, dt, l, n)[i] == Settle(p, t, dt, l.regions[i], i in l.matched)
  {
    if i < n - 1 {
      SettleAllAt(p, t, dt, l, n - 1, i);
    }
  }

  predicate FiresAt(p: Params, t: real, dt: real, l: Linking, i: nat, r: RegionState)
    requires i < |l.regions|
  {
    && Fires(p, t, Leak(p, t, dt, l.regions[i], i in l.matched))
    && r == Settle(p, t, dt, l.regions[i], i in l.matched)
  }

  /** A region that fires is one of the linked regions at the moment it crosses
      the threshold, and conversely. */
  lemma {:induction false} FiringsAre(p: Params, t: real, dt: real, l: Linking, n: nat)
    requires n <= |l.regions|
    ensures forall r :: r in Firings(p, t, dt, l, n) ==>
              exists i :: 0 <= i < n && FiresAt(p, t, dt, l, i, r)
    ensures forall i, r :: 0 <= i < n && FiresAt(p, t, dt, l, i, r) ==> r in Firings(p, t, dt, l, n)
  {
    if n > 0 {
      FiringsAre(p, t, dt, l, n - 1);
      var before := Firings(p, t, dt, l, n - 1);
      forall r | r in Firings(p, t, dt, l, n)
        ensures exists i :: 0 <= i < n && FiresAt(p, t, dt, l, i, r)
      {
        if r !in before {
          assert FiresAt(p, t, dt, l, n - 1, r);
        }
      }
    }
  }

  lemma {:induction false} SurvivorsAre(regions: seq<RegionState>, nextId: nat)
    requires IdsAscend(regions, nextId)
    ensures IdsAscend(Survivors(regions), nextId)
    ensures forall r :: r in Survivors(regions) <==> r in regions && Kept(r)
  {
    if regions != [] {
      var n := |regions| - 1;
      var front := regions[..n];
      SurvivorsAre(front, nextId);
      assert regions == front + [regions[n]];
      forall r | r in Survivors(front)
        ensures r.id < regions[n].id
      {
        assert r in front;
      }
    }
  }
}
