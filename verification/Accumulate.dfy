/** The spatial-temporal evidence accumulator (ai_engine/accumulate.py): regions
    updated in place, proved against the step function of `Evidence`. */
module Accumulate {
  import opened Boxes
  import opened Common
  import opened Evidence

  class Region {
    var box: Box
    var score: real
    var peakConf: real
    var firstT: real
    var lastT: real
    var fired: bool
    var cooldownUntil: real
    ghost var id: nat
    ghost var log: seq<Sighting>

    ghost function View(): RegionState
      reads this
    {
      RegionState(id, box, score, peakConf, firstT, lastT, fired, cooldownUntil, log)
    }

    constructor (ghost id: nat, t: real, ghost dt: real, box: Box, conf: real, score: real)
      requires score == conf * dt
      ensures View() == Created(id, t, dt, box, conf)
    {
      this.box, this.score, this.peakConf := box, score, conf;
      firstT, lastT, fired, cooldownUntil := t, t, false, -1.0;
      this.id, log := id, [Hit(t, dt, conf, box)];
    }
  }

  class Accumulator {
    const iouLink: real
    const threshold: real
    const decay: real
    const ema: real
    const cooldownS: real
    var regions: seq<Region>
    var prevT: Option<real>
    ghost var contents: seq<RegionState>
    ghost var nextId: nat
    ghost var repr: set<Region>

    ghost function P(): Params {
      Params(iouLink, threshold, decay, ema, cooldownS)
    }

    /** `contents` is what the region objects hold, and they are distinct. */
    ghost predicate Valid()
      reads this, repr
    {
      && |regions| == |contents|
      && (forall i :: 0 <= i < |regions| ==> regions[i] in repr)
      && (forall i, j :: 0 <= i < j < |regions| ==> regions[i] != regions[j])
      && forall i :: 0 <= i < |regions| ==> regions[i].View() == contents[i]
    }

    ghost function View(): State
      reads this
    {
      State(contents, prevT, nextId)
    }

    constructor (p: Params)
      ensures Valid() && P() == p && View() == EMPTY && repr == {}
    {
      iouLink, threshold, decay := p.iouLink, p.threshold, p.decay;
      ema, cooldownS := p.ema, p.cooldown;
      regions, prevT := [], None;
      contents, nextId, repr := [], 0, {};
    }

    method Reset()
      requires Valid()
      modifies this
      ensures Valid() && repr == old(repr)
      ensures View() == State([], None, old(nextId))
    {
      regions, contents, prevT := [], [], None;
    }

    method FindBest(box: Box, matched: set<nat>) returns (best: int)
      requires Valid()
      ensures best == BestMatch(iouLink, box, contents, matched, |contents|)
    {
      best := -1;
      var bestIou := iouLink;
      for i := 0 to |regions|
        invariant best == BestMatch(iouLink, box, contents, matched, i)
        invariant bestIou == BestScore(iouLink, box, contents, best)
      {
        if i !in matched {
          var v := Iou(box, regions[i].box);
          if v >= bestIou {
            best, bestIou := i, v;
          }
        }
      }
    }

    method LinkBox(t: real, dt: real, box: Box, conf: real, matched: set<nat>) returns (matched': set<nat>)
      requires Valid()
      modifies this`regions, this`contents, this`nextId, this`repr, repr
      ensures Valid() && fresh(repr - old(repr))
      ensures Linking(contents, matched', nextId)
              == Link(P(), t, dt, Linking(old(contents), matched, old(nextId)), box, conf)
    {
      hide BestMatch, Smooth;
      var best := FindBest(box, matched);
      if best < 0 {
        var r := new Region(nextId, t, dt, box, conf, conf * dt);
        matched' := matched + {|regions|};
        regions, repr := regions + [r], repr + {r};
        contents, nextId := contents + [r.View()], nextId + 1;
      } else {
        var r := regions[best];
        matched' := matched + {best};
        r.log := r.log + [Hit(t, dt, conf, box)];
        r.box := Smooth(ema, box, r.box);
        r.score := r.score + conf * dt;
        r.peakConf := Max(r.peakConf, conf);
        r.lastT := t;
        contents := contents[best := r.View()];
      }
    }

    method ReportOn(r: Region, t: real) returns (event: Event)
      ensures event == Report(t, r.View())
    {
      event := Event(t, r.box, Rounded(r.score, 1000), Rounded(r.peakConf, 1000), Rounded(t - r.firstT, 100));
    }

    method SettleRegion(r: Region, t: real, dt: real, seen: bool) returns (fires: bool)
      modifies r
      ensures r.View() == Settle(P(), t, dt, old(r.View()), seen)
      ensures fires == Fires(P(), t, Leak(P(), t, dt, old(r.View()), seen))
    {
      if !seen {
        r.score := Max(0.0, r.score - decay * dt);
        r.log := r.log + [Miss(t, dt)];
      }
      fires := !r.fired && r.score >= threshold && t >= r.cooldownUntil;
      if fires {
        r.fired := true;
        r.cooldownUntil := t + cooldownS;
      }
    }

    method SettleRegions(t: real, dt: real, matched: set<nat>) returns (events: seq<Event>)
      requires Valid()
      modifies this`contents, repr
      ensures Valid()
      ensures var l := Linking(old(contents), matched, old(nextId));
              && contents == SettleAll(P(), t, dt, l, |l.regions|)
              && events == Reports(t, Firings(P(), t, dt, l, |l.regions|))
    {
      hide Settle, Fires, Leak, Report;
      events := [];
      ghost var p, l := P(), Linking(contents, matched, nextId);
      ghost var done: seq<RegionState> := [];
      ghost var fired: seq<RegionState> := [];
      for i := 0 to |regions|
        invariant |done| == i && |regions| == |l.regions|
        invariant forall k :: 0 <= k < i ==> regions[k].View() == done[k]
        invariant forall k :: i <= k < |regions| ==> regions[k].View() == l.regions[k]
        invariant done == SettleAll(p, t, dt, l, i)
        invariant fired == Firings(p, t, dt, l, i)
        invariant |events| == |fired| && forall k :: 0 <= k < |fired| ==> events[k] == Report(t, fired[k])
      {
        var r := regions[i];
        var fires := SettleRegion(r, t, dt, i in matched);
        done := done + [r.View()];
        if fires {
          var event := ReportOn(r, t);
          events := events + [event];
          fired := fired + [r.View()];
        }
      }
      contents := done;
      assert events == Reports(t, fired);
    }

    method DropSpent()
      requires Valid()
      modifies this`regions, this`contents
      ensures Valid()
      ensures contents == Survivors(old(contents))
    {
      var kept: seq<Region> := [];
      ghost var keptView: seq<RegionState> := [];
      for i := 0 to |regions|
        invariant Valid()
        invariant keptView == Survivors(contents[..i])
        invariant |kept| == |keptView|
        invariant forall k :: 0 <= k < |kept| ==> kept[k] in regions[..i] && kept[k].View() == keptView[k]
        invariant forall j, k :: 0 <= j < k < |kept| ==> kept[j] != kept[k]
      {
        assert contents[..i + 1][..i] == contents[..i];
        if regions[i].score > 0.0 || regions[i].fired {
          kept := kept + [regions[i]];
          keptView := keptView + [regions[i].View()];
        }
      }
      assert contents[..|regions|] == contents;
      regions, contents := kept, keptView;
    }

    method LinkDetections(t: real, dt: real, boxes: seq<Box>, confs: seq<real>) returns (matched: set<nat>)
      requires Valid()
      modifies this`regions, this`contents, this`nextId, this`repr, repr
      ensures Valid() && fresh(repr - old(repr))
      ensures Linking(contents, matched, nextId)
              == LinkAll(P(), t, dt, old(contents), old(nextId), boxes, confs, Pairs(boxes, confs))
    {
      matched := {};
      for k := 0 to Pairs(boxes, confs)
        invariant Valid() && fresh(repr - old(repr))
        invariant Linking(contents, matched, nextId)
                  == LinkAll(P(), t, dt, old(contents), old(nextId), boxes, confs, k)
      {
        matched := LinkBox(t, dt, boxes[k], confs[k], matched);
      }
    }

    method Update(t: real, boxes: seq<Box>, confs: seq<real>) returns (events: seq<Event>)
      requires Valid()
      modifies this, repr
      ensures Valid() && fresh(repr - old(repr))
      ensures View() == Step(P(), old(View()), t, boxes, confs).state
      ensures events == Reports(t, Step(P(), old(View()), t, boxes, confs).fired)
    {
      hide SettleAll, Survivors, Firings, LinkAll;
      var dt := if prevT.None? then 0.0 else Max(0.0, t - prevT.value);
      prevT := Some(t);
      var matched := LinkDetections(t, dt, boxes, confs);
      events := SettleRegions(t, dt, matched);
      DropSpent();
    }
  }
}
