/** Fired regions: each fires once and stays, and the cooldown gates nothing. */
module Lifecycle {
  import opened Boxes
  import opened Evidence
  import opened Regions
  import opened EvidenceRuns

  predicate HoldsFired(regions: seq<RegionState>, id: nat) {
    exists i :: 0 <= i < |regions| && regions[i].id == id && regions[i].fired
  }

  // -- firing once ---------------------------------------------------------

  /** Linking and settling keep identities and keep fired regions fired. */
  predicate SameRegionsFirst(before: seq<RegionState>, after: seq<RegionState>) {
    && |before| <= |after|
    && forall i :: 0 <= i < |before| ==> after[i].id == before[i].id && after[i].fired == before[i].fired
  }

  lemma LinkedKeepsFired(p: Params, frames: seq<Frame>, n: nat, s: State)
    requires n < |frames| && Good(p, frames, n, s)
    ensures var f := frames[n];
            var l := Linked(p, s, f.t, f.boxes, f.confs);
            IdsAscend(l.regions, l.nextId) && SameRegionsFirst(s.regions, l.regions)
  {
    hide Linked, Good, Explained, Detected, ElapsedAt;
    LinkedAscends(p, frames, n, s);
  }

  lemma SettleIdentity(p: Params, t: real, dt: real, r: RegionState, seen: bool)
    ensures var r' := Settle(p, t, dt, r, seen); r'.id == r.id && (r.fired ==> r'.fired)
  {
  }

  lemma HeldIfPresent(regions: seq<RegionState>, r: RegionState)
    requires r in regions && r.fired
    ensures HoldsFired(regions, r.id)
  {
  }

  lemma SettledAreHeld(p: Params, s: State, f: Frame)
    requires var l := Linked(p, s, f.t, f.boxes, f.confs); IdsAscend(l.regions, l.nextId)
    ensures var dt := Elapsed(s.prevT, f.t);
            var l := Linked(p, s, f.t, f.boxes, f.confs);
            forall i :: 0 <= i < |l.regions| ==>
              var r := Settle(p, f.t, dt, l.regions[i], i in l.matched);
              && r.id == l.regions[i].id
              && (l.regions[i].fired ==> r.fired)
              && (r.fired ==> HoldsFired(StepOn(p, s, f).state.regions, r.id))
  {
    hide Linked, SettleAll, Survivors, Settle, HoldsFired;
    var dt := Elapsed(s.prevT, f.t);
    var l := Linked(p, s, f.t, f.boxes, f.confs);
    SettledAscend(p, f.t, dt, l);
    var settled := SettleAll(p, f.t, dt, l, |l.regions|);
    SurvivorsAre(settled, l.nextId);
    forall i | 0 <= i < |l.regions|
      ensures settled[i].id == l.regions[i].id && (l.regions[i].fired ==> settled[i].fired)
      ensures settled[i].fired ==> HoldsFired(StepOn(p, s, f).state.regions, settled[i].id)
    {
      SettleIdentity(p, f.t, dt, l.regions[i], i in l.matched);
      if settled[i].fired {
        assert settled[i] in settled && Kept(settled[i]);
        HeldIfPresent(StepOn(p, s, f).state.regions, settled[i]);
      }
    }
  }

  lemma LeakKeepsFired(p: Params, t: real, dt: real, r: RegionState, seen: bool)
    ensures Leak(p, t, dt, r, seen).fired == r.fired
  {
  }

  /** A region that was fired stays, fired; one that fires now stays too and was
      not fired before. */
  lemma StepFates(p: Params, frames: seq<Frame>, n: nat, s: State)
    requires n < |frames| && Good(p, frames, n, s)
    ensures var o := StepOn(p, s, frames[n]);
            && (forall id :: HoldsFired(s.regions, id) ==> HoldsFired(o.state.regions, id))
            && (forall r :: r in o.fired ==> HoldsFired(o.state.regions, r.id) && !HoldsFired(s.regions, r.id))
  {
    var f := frames[n];
    var dt := ElapsedAt(frames, n);
    assert dt == Elapsed(s.prevT, f.t);
    hide Linked, Good, SettleAll, Survivors, Leak;
    var o := StepOn(p, s, f);
    var l := Linked(p, s, f.t, f.boxes, f.confs);
    LinkedKeepsFired(p, frames, n, s);
    SettledAreHeld(p, s, f);
    forall id | HoldsFired(s.regions, id)
      ensures HoldsFired(o.state.regions, id)
    {
      var i :| 0 <= i < |s.regions| && s.regions[i].id == id && s.regions[i].fired;
      assert l.regions[i].id == id && l.regions[i].fired;
    }
    FiringsAre(p, f.t, dt, l, |l.regions|);
    forall r | r in o.fired
      ensures HoldsFired(o.state.regions, r.id) && !HoldsFired(s.regions, r.id)
    {
      var i :| 0 <= i < |l.regions| && FiresAt(p, f.t, dt, l, i, r);
      LeakKeepsFired(p, f.t, dt, l.regions[i], i in l.matched);
      assert forall j :: 0 <= j < |s.regions| && s.regions[j].id == r.id ==> i == j;
    }
  }

  lemma AfterNext(p: Params, frames: seq<Frame>, k: nat)
    requires k < |frames|
    ensures After(p, frames, k + 1) == StepOn(p, After(p, frames, k), frames[k]).state
  {
    hide StepOn;
  }

  lemma FiredPersistsOnce(p: Params, frames: seq<Frame>, k: nat, id: nat)
    requires p.threshold > 0.0 && k < |frames|
    requires HoldsFired(After(p, frames, k).regions, id)
    ensures HoldsFired(After(p, frames, k + 1).regions, id)
  {
    hide *;
    ExactEvidence(p, frames, k);
    AfterNext(p, frames, k);
    StepFates(p, frames, k, After(p, frames, k));
  }

  lemma {:induction false} FiredPersists(p: Params, frames: seq<Frame>, j: nat, k: nat, id: nat)
    requires p.threshold > 0.0 && j <= k <= |frames|
    requires HoldsFired(After(p, frames, j).regions, id)
    ensures HoldsFired(After(p, frames, k).regions, id)
  {
    hide *;
    if j < k {
      FiredPersists(p, frames, j, k - 1, id);
      FiredPersistsOnce(p, frames, k - 1, id);
    }
  }

  /** Over a whole run no region fires on two frames, and a region that fired is
      still held, fired, after every later frame. */
  lemma FiresOnce(p: Params, frames: seq<Frame>, j: nat, k: nat, r: RegionState)
    requires p.threshold > 0.0 && j < k < |frames|
    requires r in FiredAt(p, frames, j)
    ensures forall q :: q in FiredAt(p, frames, k) ==> q.id != r.id
    ensures HoldsFired(After(p, frames, k).regions, r.id)
  {
    hide StepOn, HoldsFired;
    ExactEvidence(p, frames, j);
    StepFates(p, frames, j, After(p, frames, j));
    FiredPersists(p, frames, j + 1, k, r.id);
    ExactEvidence(p, frames, k);
    StepFates(p, frames, k, After(p, frames, k));
  }

  /** The regions that fired are in ascending identity order, below every
      region from index `n` on. */
  predicate AscendBelow(fired: seq<RegionState>, regions: seq<RegionState>, n: nat) {
    && (forall i, j :: 0 <= i < j < |fired| ==> fired[i].id < fired[j].id)
    && (forall i, j :: 0 <= i < |fired| && n <= j < |regions| ==> fired[i].id < regions[j].id)
  }

  lemma AscendBelowNext(fired: seq<RegionState>, regions: seq<RegionState>, n: nat, nextId: nat, r: RegionState)
    requires n < |regions| && IdsAscend(regions, nextId) && AscendBelow(fired, regions, n) && r.id == regions[n].id
    ensures AscendBelow(fired, regions, n + 1) && AscendBelow(fired + [r], regions, n + 1)
  {
  }

  lemma AscendBelowNone(regions: seq<RegionState>)
    ensures AscendBelow([], regions, 0)
  {
  }

  /** Within one frame the regions that fire are distinct. */
  lemma {:induction false} FiringsDistinct(p: Params, t: real, dt: real, l: Linking, n: nat)
    requires n <= |l.regions| && IdsAscend(l.regions, l.nextId)
    ensures AscendBelow(Firings(p, t, dt, l, n), l.regions, n)
  {
    hide AscendBelow;
    if n > 0 {
      FiringsDistinct(p, t, dt, l, n - 1);
      var r := Settle(p, t, dt, l.regions[n - 1], n - 1 in l.matched);
      AscendBelowNext(Firings(p, t, dt, l, n - 1), l.regions, n - 1, l.nextId, r);
    } else {
      AscendBelowNone(l.regions);
    }
  }

  // -- the cooldown ---------------------------------------------------------

  /** The same regions except for `cooldownUntil`, which an unfired region has
      never set. */
  predicate AlikeRegion(a: RegionState, b: RegionState) {
    && a.(cooldownUntil := 0.0) == b.(cooldownUntil := 0.0)
    && (!a.fired ==> a.cooldownUntil == b.cooldownUntil == -1.0)
  }

  predicate Alike(a: seq<RegionState>, b: seq<RegionState>) {
    && |a| == |b|
    && forall i :: 0 <= i < |a| ==> AlikeRegion(a[i], b[i])
  }

  lemma {:induction false} BestMatchAlike(link: real, box: Box, a: seq<RegionState>, b: seq<RegionState>,
                                          matched: set<nat>, n: nat)
    requires Alike(a, b) && n <= |a|
    ensures BestMatch(link, box, a, matched, n) == BestMatch(link, box, b, matched, n)
  {
    if n > 0 {
      hide Iou;
      BestMatchAlike(link, box, a, b, matched, n - 1);
      assert AlikeRegion(a[n - 1], b[n - 1]);
    }
  }

  lemma SupportedAlike(p: Params, q: Params, a: RegionState, b: RegionState, t: real, dt: real, box: Box, conf: real)
    requires q == p.(cooldown := q.cooldown) && AlikeRegion(a, b)
    ensures AlikeRegion(Supported(p, a, t, dt, box, conf), Supported(q, b, t, dt, box, conf))
  {
  }

  lemma CreatedAlike(id: nat, t: real, dt: real, box: Box, conf: real)
    ensures AlikeRegion(Created(id, t, dt, box, conf), Created(id, t, dt, box, conf))
  {
  }

  lemma {:induction false} LinkAllAlike(p: Params, q: Params, t: real, dt: real, a: seq<RegionState>,
                                        b: seq<RegionState>,
                                        nextId: nat, boxes: seq<Box>, confs: seq<real>, n: nat)
    requires q == p.(cooldown := q.cooldown) && Alike(a, b) && n <= Pairs(boxes, confs)
    ensures var l, m := LinkAll(p, t, dt, a, nextId, boxes, confs, n), LinkAll(q, t, dt, b, nextId, boxes, confs, n);
            Alike(l.regions, m.regions) && l.matched == m.matched && l.nextId == m.nextId
  {
    if n > 0 {
      hide AlikeRegion, Supported, Created, BestMatch;
      LinkAllAlike(p, q, t, dt, a, b, nextId, boxes, confs, n - 1);
      var l, m := LinkAll(p, t, dt, a, nextId, boxes, confs, n - 1), LinkAll(q, t, dt, b, nextId, boxes, confs, n - 1);
      BestMatchAlike(p.iouLink, boxes[n - 1], l.regions, m.regions, l.matched, |l.regions|);
      var best := BestMatch(p.iouLink, boxes[n - 1], l.regions, l.matched, |l.regions|);
      if best >= 0 {
        SupportedAlike(p, q, l.regions[best], m.regions[best], t, dt, boxes[n - 1], confs[n - 1]);
      } else {
        CreatedAlike(l.nextId, t, dt, boxes[n - 1], confs[n - 1]);
      }
    }
  }

  lemma SettleAlike(p: Params, q: Params, t: real, dt: real, a: RegionState, b: RegionState, seen: bool)
    requires q == p.(cooldown := q.cooldown) && AlikeRegion(a, b)
    ensures AlikeRegion(Settle(p, t, dt, a, seen), Settle(q, t, dt, b, seen))
    ensures Fires(p, t, Leak(p, t, dt, a, seen)) <==> Fires(q, t, Leak(q, t, dt, b, seen))
  {
  }

  lemma {:induction false} SettleAllAlike(p: Params, q: Params, t: real, dt: real, l: Linking, m: Linking, n: nat)
    requires q == p.(cooldown := q.cooldown)
    requires Alike(l.regions, m.regions) && l.matched == m.matched && n <= |l.regions|
    ensures Alike(SettleAll(p, t, dt, l, n), SettleAll(q, t, dt, m, n))
    ensures Alike(Firings(p, t, dt, l, n), Firings(q, t, dt, m, n))
  {
    if n > 0 {
      hide AlikeRegion, Settle, Fires, Leak;
      SettleAllAlike(p, q, t, dt, l, m, n - 1);
      SettleAlike(p, q, t, dt, l.regions[n - 1], m.regions[n - 1], n - 1 in l.matched);
    }
  }

  lemma {:induction false} SurvivorsAlike(a: seq<RegionState>, b: seq<RegionState>)
    requires Alike(a, b)
    ensures Alike(Survivors(a), Survivors(b))
  {
    if a != [] {
      var n := |a| - 1;
      SurvivorsAlike(a[..n], b[..n]);
      assert AlikeRegion(a[n], b[n]);
    }
  }

  lemma StepAlike(p: Params, q: Params, s: State, s': State, f: Frame)
    requires q == p.(cooldown := q.cooldown)
    requires Alike(s.regions, s'.regions) && s.prevT == s'.prevT && s.nextId == s'.nextId
    ensures var o, o' := StepOn(p, s, f), StepOn(q, s', f);
            && Alike(o.state.regions, o'.state.regions)
            && o.state.prevT == o'.state.prevT && o.state.nextId == o'.state.nextId
            && Alike(o.fired, o'.fired)
  {
    hide AlikeRegion, LinkAll, SettleAll, Survivors, Firings;
    var dt := Elapsed(s.prevT, f.t);
    var l, m := Linked(p, s, f.t, f.boxes, f.confs), Linked(q, s', f.t, f.boxes, f.confs);
    LinkAllAlike(p, q, f.t, dt, s.regions, s'.regions, s.nextId, f.boxes, f.confs, Pairs(f.boxes, f.confs));
    SettleAllAlike(p, q, f.t, dt, l, m, |l.regions|);
    SurvivorsAlike(SettleAll(p, f.t, dt, l, |l.regions|), SettleAll(q, f.t, dt, m, |m.regions|));
  }

  lemma {:induction false} AfterAlike(p: Params, q: Params, frames: seq<Frame>, n: nat)
    requires q == p.(cooldown := q.cooldown) && n <= |frames|
    ensures var s, s' := After(p, frames, n), After(q, frames, n);
            Alike(s.regions, s'.regions) && s.prevT == s'.prevT && s.nextId == s'.nextId
  {
    if n > 0 {
      hide Alike, LinkAll, SettleAll, Survivors, Firings;
      AfterAlike(p, q, frames, n - 1);
      StepAlike(p, q, After(p, frames, n - 1), After(q, frames, n - 1), frames[n - 1]);
    }
  }

  /** The cooldown is dead: accumulators that differ in nothing else report the
      same events on every frame of every run. */
  lemma CooldownIsDead(p: Params, cooldown: real, frames: seq<Frame>, k: nat)
    requires k < |frames|
    ensures var t := frames[k].t;
            Reports(t, FiredAt(p, frames, k)) == Reports(t, FiredAt(p.(cooldown := cooldown), frames, k))
  {
    hide StepOn, Rounded;
    var q := p.(cooldown := cooldown);
    AfterAlike(p, q, frames, k);
    StepAlike(p, q, After(p, frames, k), After(q, frames, k), frames[k]);
    var a, b := FiredAt(p, frames, k), FiredAt(q, frames, k);
    forall i | 0 <= i < |a|
      ensures Report(frames[k].t, a[i]) == Report(frames[k].t, b[i])
    {
      assert AlikeRegion(a[i], b[i]);
    }
  }
}
