/** No event without corroboration: how long and how often a region must have
    been supported before it can fire. */
module Corroboration {
  import opened Boxes
  import opened Evidence
  import opened Regions
  import opened EvidenceRuns

  predicate TimesAscend(frames: seq<Frame>) {
    forall i, j :: 0 <= i < j < |frames| ==> frames[i].t <= frames[j].t
  }

  function Gap(frames: seq<Frame>, i: nat): real
    requires 0 < i < |frames|
  {
    frames[i].t - frames[i - 1].t
  }

  predicate GapsWithin(frames: seq<Frame>, gap: real) {
    forall i :: 0 < i < |frames| ==> Gap(frames, i) <= gap
  }

  predicate ConfsWithin(frames: seq<Frame>, most: real) {
    forall i, d :: 0 <= i < |frames| && 0 <= d < |frames[i].confs| ==> frames[i].confs[d] <= most
  }

  function TotalTime(log: seq<Sighting>): real {
    if log == [] then 0.0 else TotalTime(log[..|log| - 1]) + log[|log| - 1].dt
  }

  predicate NonNegativeSteps(log: seq<Sighting>) {
    forall k :: 0 <= k < |log| ==> log[k].dt >= 0.0
  }

  predicate HitsAtMost(log: seq<Sighting>, most: real) {
    forall k :: 0 <= k < |log| && log[k].Hit? ==> log[k].conf <= most
  }

  lemma {:induction false} HitsAtMostPeak(log: seq<Sighting>)
    requires StartsWithHit(log)
    ensures HitsAtMost(log, PeakOf(log))
  {
    if |log| > 1 {
      var front := log[..|log| - 1];
      HitsAtMostPeak(front);
      forall k | 0 <= k < |log| && log[k].Hit?
        ensures log[k].conf <= PeakOf(log)
      {
        if k < |log| - 1 {
          assert front[k] == log[k];
        }
      }
    }
  }

  lemma Product(x: real, y: real, z: real)
    requires x <= y && 0.0 <= z
    ensures x * z <= y * z
  {
    assert (y - x) * z >= 0.0;
  }

  lemma GainBounded(decay: real, s: Sighting, most: real)
    requires decay >= 0.0 && most >= 0.0 && s.dt >= 0.0
    requires s.Hit? ==> s.conf <= most
    ensures Gain(decay, s) <= most * s.dt
  {
    Product(0.0, most, s.dt);
    if s.Hit? {
      Product(s.conf, most, s.dt);
    } else {
      Product(0.0, decay, s.dt);
    }
  }

  lemma Distribute(x: real, y: real, z: real)
    ensures x * y + x * z == x * (y + z)
  {
  }

  /** However the hits and misses fall, the balance is at most the largest
      confidence times the elapsed time. */
  lemma {:induction false} BalanceBounded(decay: real, log: seq<Sighting>, most: real)
    requires decay >= 0.0 && most >= 0.0
    requires NonNegativeSteps(log) && HitsAtMost(log, most)
    ensures Balance(decay, log) <= most * TotalTime(log)
  {
    if log != [] {
      var front, last := log[..|log| - 1], log[|log| - 1];
      BalanceBounded(decay, front, most);
      GainBounded(decay, last, most);
      Distribute(most, TotalTime(front), last.dt);
    }
  }

  lemma CoversFront(frames: seq<Frame>, n: nat, log: seq<Sighting>)
    requires 0 < n <= |frames| && log != [] && Covers(frames, n, log)
    ensures Covers(frames, n - 1, log[..|log| - 1])
  {
    var front := log[..|log| - 1];
    forall k | 0 <= k < |front|
      ensures TellsOf(frames, n - 1 - |front| + k, front[k])
    {
      assert TellsOf(frames, n - |log| + k, log[k]);
    }
  }

  lemma {:induction false} CoveredTime(frames: seq<Frame>, n: nat, log: seq<Sighting>)
    requires TimesAscend(frames) && n <= |frames| && log != [] && Covers(frames, n, log)
    ensures TotalTime(log) == frames[n - 1].t - log[0].t + log[0].dt
  {
    var last := |log| - 1;
    assert TellsOf(frames, n - 1, log[last]);
    if last > 0 {
      CoversFront(frames, n, log);
      CoveredTime(frames, n - 1, log[..last]);
    } else {
      assert log[..0] == [];
    }
  }

  lemma CoveredSteps(frames: seq<Frame>, n: nat, log: seq<Sighting>, gap: real)
    requires n <= |frames| && Covers(frames, n, log) && gap >= 0.0 && GapsWithin(frames, gap)
    ensures NonNegativeSteps(log)
    ensures forall k :: 0 <= k < |log| ==> log[k].dt <= gap
  {
    forall k | 0 <= k < |log|
      ensures 0.0 <= log[k].dt <= gap
    {
      var i := n - |log| + k;
      assert TellsOf(frames, i, log[k]);
      assert i > 0 ==> Gap(frames, i) <= gap;
    }
  }

  lemma CoveredConfs(frames: seq<Frame>, n: nat, log: seq<Sighting>, most: real)
    requires n <= |frames| && Covers(frames, n, log) && ConfsWithin(frames, most)
    ensures HitsAtMost(log, most)
  {
    forall k | 0 <= k < |log| && log[k].Hit?
      ensures log[k].conf <= most
    {
      assert TellsOf(frames, n - |log| + k, log[k]);
    }
  }

  predicate Backed(p: Params, frames: seq<Frame>, k: nat, r: RegionState)
    requires k < |frames|
  {
    && StartsWithHit(r.log) && Covers(frames, k + 1, r.log)
    && r.peak == PeakOf(r.log) && r.firstT == r.log[0].t
    && r.score == Balance(p.decay, r.log) >= p.threshold
  }

  lemma EventIsBacked(p: Params, frames: seq<Frame>, k: nat, r: RegionState)
    requires p.threshold > 0.0 && k < |frames| && r in FiredAt(p, frames, k)
    ensures Backed(p, frames, k, r)
  {
    EventsAreJust(p, frames, k);
    hide FiredAt;
    assert FiresJustly(p, frames, k, r);
  }

  lemma HitsAtMostMore(log: seq<Sighting>, most: real, more: real)
    requires HitsAtMost(log, most) && most <= more
    ensures HitsAtMost(log, more)
  {
  }

  lemma {:induction false} TotalTimeAtLeastFirst(log: seq<Sighting>)
    requires log != [] && NonNegativeSteps(log)
    ensures TotalTime(log) >= log[0].dt
  {
    if |log| > 1 {
      TotalTimeAtLeastFirst(log[..|log| - 1]);
    } else {
      assert log[..0] == [];
    }
  }

  lemma BackedDuration(p: Params, frames: seq<Frame>, k: nat, r: RegionState, gap: real)
    requires p.threshold > 0.0 && p.decay >= 0.0 && gap >= 0.0
    requires TimesAscend(frames) && GapsWithin(frames, gap)
    requires k < |frames| && Backed(p, frames, k, r)
    ensures r.score <= r.peak * (frames[k].t - r.firstT + gap)
    ensures r.peak > 0.0 && 0.0 <= frames[k].t - r.firstT
  {
    hide PeakOf, Balance, TotalTime, Covers, HitsAtMost;
    var most := Max(0.0, r.peak);
    HitsAtMostPeak(r.log);
    HitsAtMostMore(r.log, r.peak, most);
    CoveredSteps(frames, k + 1, r.log, gap);
    BalanceBounded(p.decay, r.log, most);
    CoveredTime(frames, k + 1, r.log);
    TotalTimeAtLeastFirst(r.log);
    var total := TotalTime(r.log);
    Product(total, frames[k].t - r.firstT + gap, most);
  }

  lemma BackedThreshold(p: Params, frames: seq<Frame>, k: nat, r: RegionState)
    requires k < |frames| && Backed(p, frames, k, r)
    ensures p.threshold <= r.score
  {
  }

  /** An event's unrounded score is at most its peak confidence times the time
      since the region appeared plus one gap, so that product has reached the
      threshold. */
  lemma EventNeedsDuration(p: Params, frames: seq<Frame>, k: nat, r: RegionState, gap: real)
    requires p.threshold > 0.0 && p.decay >= 0.0 && gap >= 0.0
    requires TimesAscend(frames) && GapsWithin(frames, gap)
    requires k < |frames| && r in FiredAt(p, frames, k)
    ensures p.threshold <= r.score <= r.peak * (frames[k].t - r.firstT + gap)
    ensures r.peak > 0.0 && 0.0 <= frames[k].t - r.firstT
  {
    hide *;
    EventIsBacked(p, frames, k, r);
    BackedDuration(p, frames, k, r, gap);
    BackedThreshold(p, frames, k, r);
  }

  lemma {:induction false} PeakOfAtMost(log: seq<Sighting>, most: real)
    requires StartsWithHit(log) && HitsAtMost(log, most)
    ensures PeakOf(log) <= most
  {
    if |log| > 1 {
      PeakOfAtMost(log[..|log| - 1], most);
    }
  }

  lemma PeakAtMost(p: Params, frames: seq<Frame>, k: nat, r: RegionState, most: real)
    requires p.threshold > 0.0 && ConfsWithin(frames, most)
    requires k < |frames| && r in FiredAt(p, frames, k)
    ensures r.peak <= most
  {
    EventIsBacked(p, frames, k, r);
    hide FiredAt;
    CoveredConfs(frames, k + 1, r.log, most);
    PeakOfAtMost(r.log, most);
  }

  predicate Supports(s: Sighting) {
    s.Hit? && s.conf > 0.0 && s.dt > 0.0
  }

  lemma NoSupportNoGain(decay: real, s: Sighting)
    requires decay >= 0.0 && s.dt >= 0.0 && !Supports(s)
    ensures Gain(decay, s) <= 0.0
  {
    if s.Hit? && s.conf <= 0.0 {
      Product(s.conf, 0.0, s.dt);
    } else {
      Product(0.0, decay, s.dt);
    }
  }

  /** The last entry that contributes: everything before it is already worth
      the balance less that one contribution. */
  lemma {:induction false} LastSupport(decay: real, log: seq<Sighting>) returns (j: nat)
    requires decay >= 0.0 && NonNegativeSteps(log) && HitsAtMost(log, 1.0)
    requires Balance(decay, log) > 0.0
    ensures j < |log| && Supports(log[j])
    ensures Balance(decay, log[..j]) >= Balance(decay, log) - log[j].dt
  {
    var last := |log| - 1;
    var front := log[..last];
    var s := log[last];
    GainBounded(decay, s, 1.0);
    if Supports(s) {
      j := last;
    } else {
      NoSupportNoGain(decay, s);
      j := LastSupport(decay, front);
      assert front[..j] == log[..j];
    }
  }

  lemma StepIsGap(frames: seq<Frame>, j: nat, s: Sighting)
    requires 0 < j < |frames| && TellsOf(frames, j, s) && s.dt > 0.0
    ensures frames[j - 1].t < frames[j].t
  {
  }

  /** Some entry of the log is a positive detection taken from frame `i`. */
  predicate SupportedOn(frames: seq<Frame>, i: nat, log: seq<Sighting>)
    requires i < |frames|
  {
    exists s :: s in log && Supports(s) && TellsOf(frames, i, s)
  }

  lemma BackedTwice(p: Params, frames: seq<Frame>, k: nat, r: RegionState, gap: real)
    returns (i: nat, j: nat)
    requires p.decay >= 0.0 && 0.0 <= gap < p.threshold
    requires TimesAscend(frames) && GapsWithin(frames, gap) && ConfsWithin(frames, 1.0)
    requires k < |frames| && Backed(p, frames, k, r)
    ensures i < j <= k
    ensures SupportedOn(frames, i, r.log) && SupportedOn(frames, j, r.log)
    ensures frames[i].t < frames[j].t
  {
    hide PeakOf, Balance, TellsOf, ElapsedAt;
    var log, offset := r.log, k + 1 - |r.log|;
    CoveredSteps(frames, k + 1, log, gap);
    CoveredConfs(frames, k + 1, log, 1.0);
    var late := LastSupport(p.decay, log);
    var early := LastSupport(p.decay, log[..late]);
    assert log[..late][early] == log[early];
    i, j := offset + early, offset + late;
    assert TellsOf(frames, i, log[early]) && TellsOf(frames, j, log[late]);
    StepIsGap(frames, j, log[late]);
  }

  /** Where a gap is worth less than the threshold, two frames at different
      times support every region that fires, each with positive confidence. */
  lemma EventNeedsTwoFrames(p: Params, frames: seq<Frame>, k: nat, r: RegionState, gap: real)
    returns (i: nat, j: nat)
    requires p.decay >= 0.0 && 0.0 <= gap < p.threshold
    requires TimesAscend(frames) && GapsWithin(frames, gap) && ConfsWithin(frames, 1.0)
    requires k < |frames| && r in FiredAt(p, frames, k)
    ensures i < j <= k
    ensures SupportedOn(frames, i, r.log) && SupportedOn(frames, j, r.log)
    ensures frames[i].t < frames[j].t
  {
    hide *;
    EventIsBacked(p, frames, k, r);
    i, j := BackedTwice(p, frames, k, r, gap);
  }
}
