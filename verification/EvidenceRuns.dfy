/** Whole runs of one accumulator: what the evidence of every region and every
    event says about the frames that were processed. */
module EvidenceRuns {
  import opened Boxes
  import opened Common
  import opened Evidence
  import opened Regions

  datatype Frame = Frame(t: real, boxes: seq<Box>, confs: seq<real>)

  function StepOn(p: Params, s: State, f: Frame): Outcome {
    Step(p, s, f.t, f.boxes, f.confs)
  }

  /** The accumulator after the first `n` frames, starting empty. */
  function After(p: Params, frames: seq<Frame>, n: nat): State
    requires n <= |frames|
  {
    if n == 0 then EMPTY else StepOn(p, After(p, frames, n - 1), frames[n - 1]).state
  }

  /** The regions that fire on frame `k`. */
  function FiredAt(p: Params, frames: seq<Frame>, k: nat): seq<RegionState>
    requires k < |frames|
  {
    StepOn(p, After(p, frames, k), frames[k]).fired
  }

  function TimeBefore(frames: seq<Frame>, n: nat): Option<real>
    requires n <= |frames|
  {
    if n == 0 then None else Some(frames[n - 1].t)
  }

  function ElapsedAt(frames: seq<Frame>, k: nat): real
    requires k < |frames|
  {
    Elapsed(TimeBefore(frames, k), frames[k].t)
  }

  /** Entry `s` is what frame `f` says: its time, and if it is a hit, one of its
      detections. */
  predicate TellsOf(frames: seq<Frame>, k: nat, s: Sighting)
    requires k < |frames|
  {
    var f := frames[k];
    && s.t == f.t && s.dt == ElapsedAt(frames, k)
    && (s.Hit? ==> Detected(f.boxes, f.confs, Pairs(f.boxes, f.confs), s))
  }

  /** The log covers the last |log| of the first `n` frames, one entry each. */
  predicate Covers(frames: seq<Frame>, n: nat, log: seq<Sighting>)
    requires n <= |frames|
  {
    && |log| <= n
    && forall k :: 0 <= k < |log| ==> TellsOf(frames, n - |log| + k, log[k])
  }

  /** What holds of a region held after `n` frames. */
  predicate Accounted(p: Params, frames: seq<Frame>, n: nat, r: RegionState)
    requires n <= |frames|
  {
    && Explained(p, r)
    && Covers(frames, n, r.log)
    && Kept(r)
    && (!r.fired ==> 0.0 < r.score && (r.score < p.threshold || frames[n - 1].t < -1.0))
  }

  /** What holds of a region at the moment it fires on frame `k`. */
  predicate FiresJustly(p: Params, frames: seq<Frame>, k: nat, r: RegionState)
    requires k < |frames|
  {
    && r.fired
    && Explained(p, r)
    && Covers(frames, k + 1, r.log)
    && r.score == Balance(p.decay, r.log)
    && r.score >= p.threshold
  }

  predicate Good(p: Params, frames: seq<Frame>, n: nat, s: State)
    requires n <= |frames|
  {
    && s.prevT == TimeBefore(frames, n)
    && IdsAscend(s.regions, s.nextId)
    && forall r :: r in s.regions ==> Accounted(p, frames, n, r)
  }

  lemma GoodAt(p: Params, frames: seq<Frame>, n: nat, s: State)
    requires n <= |frames| && Good(p, frames, n, s)
    ensures forall i :: 0 <= i < |s.regions| ==> Explained(p, s.regions[i]) && Covers(frames, n, s.regions[i].log)
  {
    forall i | 0 <= i < |s.regions|
      ensures Accounted(p, frames, n, s.regions[i])
    {
      assert s.regions[i] in s.regions;
    }
  }

  // -- one frame -----------------------------------------------------------

  lemma CoversNext(frames: seq<Frame>, n: nat, log: seq<Sighting>, s: Sighting)
    requires n < |frames| && Covers(frames, n, log) && TellsOf(frames, n, s)
    ensures Covers(frames, n + 1, log + [s])
  {
    hide TellsOf;
    var log' := log + [s];
    forall k | 0 <= k < |log'|
      ensures TellsOf(frames, n + 1 - |log'| + k, log'[k])
    {
      if k < |log| {
        assert log'[k] == log[k];
      }
    }
  }

  lemma ExplainedStartsWithHit(p: Params, r: RegionState)
    requires Explained(p, r)
    ensures StartsWithHit(r.log)
  {
  }

  lemma EmptyCovers(frames: seq<Frame>, n: nat)
    requires n <= |frames|
    ensures Covers(frames, n, [])
  {
  }

  /** A linked region's log covers the frame if it was matched, and the frames
      before it otherwise. */
  lemma LinkedCovers(p: Params, frames: seq<Frame>, n: nat, s: State, i: nat)
    requires n < |frames| && Good(p, frames, n, s)
    requires var f := frames[n]; i < |Linked(p, s, f.t, f.boxes, f.confs).regions|
    ensures var f := frames[n];
            var l := Linked(p, s, f.t, f.boxes, f.confs);
            && Explained(p, l.regions[i])
            && if i in l.matched then Covers(frames, n + 1, l.regions[i].log)
               else Covers(frames, n, l.regions[i].log) && i < |s.regions| && l.regions[i] == s.regions[i]
  {
    hide Explained, LinkAll, Detected, Covers, IdsAscend;
    var f := frames[n];
    var dt := ElapsedAt(frames, n);
    var l := Linked(p, s, f.t, f.boxes, f.confs);
    var d := Pairs(f.boxes, f.confs);
    GoodAt(p, frames, n, s);
    LinkAllKeeps(p, f.t, dt, s.regions, s.nextId, f.boxes, f.confs, d);
    assert LinkedFrom(p, f.t, dt, s.regions, s.nextId, f.boxes, f.confs, d, l);
    var r := l.regions[i];
    if i in l.matched {
      assert StartsWithHit(r.log) by { ExplainedStartsWithHit(p, r); }
      var m := |r.log| - 1;
      assert Detected(f.boxes, f.confs, d, r.log[m]);
      if i < |s.regions| {
        assert r.log[..m] == s.regions[i].log;
      } else {
        assert r.log[..m] == [];
        EmptyCovers(frames, n);
      }
      assert r.log == r.log[..m] + [r.log[m]];
      CoversNext(frames, n, r.log[..m], r.log[m]);
    }
  }

  lemma LeakIsExplained(p: Params, t: real, dt: real, r: RegionState)
    requires Explained(p, r)
    ensures var r' := Leak(p, t, dt, r, false);
            && Explained(p, r'.(score := r.score - p.decay * dt))
            && r'.log == r.log + [Miss(t, dt)]
  {
    var log' := r.log + [Miss(t, dt)];
    assert log'[..|log'| - 1] == r.log;
  }

  lemma MissTells(frames: seq<Frame>, n: nat)
    requires n < |frames|
    ensures TellsOf(frames, n, Miss(frames[n].t, ElapsedAt(frames, n)))
  {
  }

  /** Settling a linked region: if it is kept, its log explains it; if it fires
      now, its score is the exact balance and has reached the threshold. */
  lemma SettleKeeps(p: Params, frames: seq<Frame>, n: nat, s: State, i: nat)
    requires p.threshold > 0.0
    requires n < |frames| && Good(p, frames, n, s)
    requires var f := frames[n]; i < |Linked(p, s, f.t, f.boxes, f.confs).regions|
    ensures var f := frames[n];
            var l := Linked(p, s, f.t, f.boxes, f.confs);
            var dt := ElapsedAt(frames, n);
            var r := Settle(p, f.t, dt, l.regions[i], i in l.matched);
            && (Kept(r) ==> Accounted(p, frames, n + 1, r))
            && (Fires(p, f.t, Leak(p, f.t, dt, l.regions[i], i in l.matched)) ==> FiresJustly(p, frames, n, r))
  {
    hide LinkAll, Linked, Balance, BoxOf, PeakOf, LastHitTime, Covers, ElapsedAt;
    LinkedCovers(p, frames, n, s, i);
    var f := frames[n];
    var l := Linked(p, s, f.t, f.boxes, f.confs);
    var dt := ElapsedAt(frames, n);
    if i !in l.matched {
      LeakIsExplained(p, f.t, dt, l.regions[i]);
      MissTells(frames, n);
      CoversNext(frames, n, l.regions[i].log, Miss(f.t, dt));
    }
  }

  lemma SettledAscend(p: Params, t: real, dt: real, l: Linking)
    requires IdsAscend(l.regions, l.nextId)
    ensures IdsAscend(SettleAll(p, t, dt, l, |l.regions|), l.nextId)
    ensures forall i :: 0 <= i < |l.regions| ==>
              SettleAll(p, t, dt, l, |l.regions|)[i] == Settle(p, t, dt, l.regions[i], i in l.matched)
  {
    forall i | 0 <= i < |l.regions|
      ensures SettleAll(p, t, dt, l, |l.regions|)[i] == Settle(p, t, dt, l.regions[i], i in l.matched)
      ensures SettleAll(p, t, dt, l, |l.regions|)[i].id == l.regions[i].id
    {
      SettleAllAt(p, t, dt, l, |l.regions|, i);
    }
  }

  lemma LinkedAscends(p: Params, frames: seq<Frame>, n: nat, s: State)
    requires n < |frames| && Good(p, frames, n, s)
    ensures var f := frames[n];
            var l := Linked(p, s, f.t, f.boxes, f.confs);
            LinkedFrom(p, f.t, ElapsedAt(frames, n), s.regions, s.nextId, f.boxes, f.confs, Pairs(f.boxes, f.confs), l)
  {
    hide LinkAll, LinkedFrom, Explained, Covers, IdsAscend;
    var f := frames[n];
    GoodAt(p, frames, n, s);
    LinkAllKeeps(p, f.t, ElapsedAt(frames, n), s.regions, s.nextId, f.boxes, f.confs, Pairs(f.boxes, f.confs));
  }

  lemma StepKeepsGood(p: Params, frames: seq<Frame>, n: nat, s: State)
    requires p.threshold > 0.0
    requires n < |frames| && Good(p, frames, n, s)
    ensures Good(p, frames, n + 1, StepOn(p, s, frames[n]).state)
    ensures forall r :: r in StepOn(p, s, frames[n]).fired ==> FiresJustly(p, frames, n, r)
  {
    hide Accounted, FiresJustly, Settle, Linked, Survivors, SettleAll, Firings, Kept, Leak, Fires;
    var f := frames[n];
    var dt := ElapsedAt(frames, n);
    var l := Linked(p, s, f.t, f.boxes, f.confs);
    var settled := SettleAll(p, f.t, dt, l, |l.regions|);
    LinkedAscends(p, frames, n, s);
    SettledAscend(p, f.t, dt, l);
    SurvivorsAre(settled, l.nextId);
    FiringsAre(p, f.t, dt, l, |l.regions|);
    forall i | 0 <= i < |l.regions|
      ensures Kept(settled[i]) ==> Accounted(p, frames, n + 1, settled[i])
      ensures Fires(p, f.t, Leak(p, f.t, dt, l.regions[i], i in l.matched)) ==> FiresJustly(p, frames, n, settled[i])
    {
      SettleKeeps(p, frames, n, s, i);
    }
  }

  // -- runs ----------------------------------------------------------------

  /** Exact evidence: after any frames, every region's score, peak, box and
      times are those its log accounts for, the log holds one entry for each
      frame since its creation, and an unfired region's score lies strictly
      between zero and the threshold. The clamp at zero never shows. */
  lemma {:induction false} ExactEvidence(p: Params, frames: seq<Frame>, n: nat)
    requires p.threshold > 0.0 && n <= |frames|
    ensures Good(p, frames, n, After(p, frames, n))
  {
    hide Step, Accounted;
    if n > 0 {
      ExactEvidence(p, frames, n - 1);
      StepKeepsGood(p, frames, n - 1, After(p, frames, n - 1));
    }
  }

  /** Every region fires on evidence that is the exact balance of its log. */
  lemma EventsAreJust(p: Params, frames: seq<Frame>, k: nat)
    requires p.threshold > 0.0 && k < |frames|
    ensures forall r :: r in FiredAt(p, frames, k) ==> FiresJustly(p, frames, k, r)
  {
    ExactEvidence(p, frames, k);
    StepKeepsGood(p, frames, k, After(p, frames, k));
  }
}
