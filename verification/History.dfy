/** When a camera's evidence is discarded: the bookkeeping of the accumulator
    registry (ai_engine/pipeline.py) against the observations themselves. */
module History {
  import opened Common
  import opened Config
  import opened Evidence
  import opened EvidenceRuns
  import opened Corroboration

  /** One processed frame: the stream object and segment it came from. */
  datatype Observation<S> = Observation(stream: S, segment: int, frame: Frame)

  /** What the registry keeps for a camera. */
  datatype Entry<S> = Entry(stream: S, acc: State, segment: int, lastT: Option<real>)

  /** What happens to the registry: a frame of one camera is resolved and
      processed, or all cameras but the live ones are pruned. */
  datatype Op<S> = Observe(camera: int, seen: Observation<S>) | Prune(live: set<int>)

  predicate Gapped(lastT: Option<real>, t: Option<real>) {
    lastT.Some? && t.Some? && t.value - lastT.value > MAX_FRAME_GAP_SECONDS
  }

  predicate Unbroken<S(==)>(e: Entry<S>, stream: S, segment: int, t: Option<real>) {
    e.stream == stream && e.segment == segment && !Gapped(e.lastT, t)
  }

  /** The accumulator the camera continues with: its own, or an empty one. */
  function Resolve<S(==)>(entries: map<int, Entry<S>>, camera: int, stream: S, segment: int,
                     t: Option<real>): Entry<S> {
    if camera in entries && Unbroken(entries[camera], stream, segment, t)
    then entries[camera].(lastT := t)
    else Entry(stream, EMPTY, segment, t)
  }

  function Process<S>(e: Entry<S>, f: Frame): Entry<S> {
    e.(acc := StepOn(DEPLOYED, e.acc, f).state)
  }

  function Pruned<S>(entries: map<int, Entry<S>>, live: set<int>): map<int, Entry<S>> {
    map c | c in entries && c in live :: entries[c]
  }

  function ApplyOp<S(==)>(entries: map<int, Entry<S>>, op: Op<S>): map<int, Entry<S>> {
    match op
    case Observe(camera, o) =>
      entries[camera := Process(Resolve(entries, camera, o.stream, o.segment, Some(o.frame.t)), o.frame)]
    case Prune(live) => Pruned(entries, live)
  }

  function EntriesAfter<S(==)>(ops: seq<Op<S>>, n: nat): map<int, Entry<S>>
    requires n <= |ops|
  {
    if n == 0 then map[] else ApplyOp(EntriesAfter(ops, n - 1), ops[n - 1])
  }

  // -- the same, said of the observations -----------------------------------

  /** The next frame carries on from the last: same stream object, same segment,
      no long gap. */
  predicate Continues<S(==)>(last: Observation<S>, next: Observation<S>) {
    && last.stream == next.stream
    && last.segment == next.segment
    && next.frame.t - last.frame.t <= MAX_FRAME_GAP_SECONDS
  }

  /** The camera's unbroken recent frames: the longest tail of its observations
      since it was last pruned in which each continues the one before. */
  function Recent<S(==)>(ops: seq<Op<S>>, n: nat, camera: int): seq<Observation<S>>
    requires n <= |ops|
  {
    if n == 0 then []
    else
      var before := Recent(ops, n - 1, camera);
      match ops[n - 1]
      case Prune(live) => if camera in live then before else []
      case Observe(c, o) =>
        if c != camera then before
        else if before != [] && Continues(before[|before| - 1], o) then before + [o]
        else [o]
  }

  function Frames<S>(seen: seq<Observation<S>>): (frames: seq<Frame>)
    ensures |frames| == |seen|
    ensures forall i :: 0 <= i < |seen| ==> frames[i] == seen[i].frame
  {
    seq(|seen|, i requires 0 <= i < |seen| => seen[i].frame)
  }

  predicate OneSegment<S(==)>(seen: seq<Observation<S>>) {
    && (forall i, j :: 0 <= i < j < |seen| ==>
          seen[i].stream == seen[j].stream && seen[i].segment == seen[j].segment)
    && GapsWithin(Frames(seen), MAX_FRAME_GAP_SECONDS)
  }

  /** The entry of a camera whose unbroken recent frames are `seen`. */
  function EntryFor<S>(seen: seq<Observation<S>>): Entry<S>
    requires seen != []
  {
    var last := seen[|seen| - 1];
    Entry(last.stream, After(DEPLOYED, Frames(seen), |seen|), last.segment, Some(last.frame.t))
  }

  lemma ShorterPrefix(a: seq<Frame>, b: seq<Frame>, n: nat)
    requires 0 < n <= |a| && n <= |b| && a[..n] == b[..n]
    ensures a[..n - 1] == b[..n - 1] && a[n - 1] == b[n - 1]
  {
    assert a[..n - 1] == a[..n][..n - 1] && b[..n - 1] == b[..n][..n - 1];
    assert a[n - 1] == a[..n][n - 1] && b[n - 1] == b[..n][n - 1];
  }

  lemma {:induction false} AfterPrefix(p: Params, a: seq<Frame>, b: seq<Frame>, n: nat)
    requires n <= |a| && n <= |b| && a[..n] == b[..n]
    ensures After(p, a, n) == After(p, b, n)
  {
    if n > 0 {
      hide StepOn;
      ShorterPrefix(a, b, n);
      AfterPrefix(p, a, b, n - 1);
    }
  }

  lemma EntryForNext<S>(seen: seq<Observation<S>>, o: Observation<S>)
    requires seen != []
    ensures Process(EntryFor(seen).(stream := o.stream, segment := o.segment, lastT := Some(o.frame.t)), o.frame)
            == EntryFor(seen + [o])
  {
    hide StepOn;
    var a, b := Frames(seen), Frames(seen + [o]);
    assert a[..|seen|] == b[..|seen|];
    AfterPrefix(DEPLOYED, a, b, |seen|);
  }

  lemma EntryForFirst<S>(o: Observation<S>)
    ensures Process(Entry(o.stream, EMPTY, o.segment, Some(o.frame.t)), o.frame) == EntryFor([o])
  {
    hide StepOn;
    var a := Frames([o]);
    assert After(DEPLOYED, a, 0) == EMPTY;
    assert After(DEPLOYED, a, 1) == StepOn(DEPLOYED, EMPTY, a[0]).state;
  }

  lemma EntryForKeeps<S>(seen: seq<Observation<S>>)
    requires seen != []
    ensures var last, e := seen[|seen| - 1], EntryFor(seen);
            e.stream == last.stream && e.segment == last.segment && e.lastT == Some(last.frame.t)
  {
  }

  /** Segment discipline: after any operations on any cameras, what the registry
      holds for a camera is exactly what a fresh accumulator makes of that
      camera's unbroken recent frames, and nothing else. */
  lemma {:induction false} RegistryHoldsRecent<S>(ops: seq<Op<S>>, n: nat, camera: int)
    requires n <= |ops|
    ensures var seen := Recent(ops, n, camera);
            && (camera in EntriesAfter(ops, n) <==> seen != [])
            && (seen != [] ==> EntriesAfter(ops, n)[camera] == EntryFor(seen))
  {
    hide StepOn, EntryFor, Process;
    if n > 0 {
      RegistryHoldsRecent(ops, n - 1, camera);
      var before := Recent(ops, n - 1, camera);
      match ops[n - 1]
      case Prune(live) =>
      case Observe(c, o) =>
        if c == camera {
          EntryForFirst(o);
          if before != [] {
            EntryForKeeps(before);
            EntryForNext(before, o);
          }
        }
    }
  }

  lemma AfterTime(p: Params, frames: seq<Frame>, n: nat)
    requires 0 < n <= |frames|
    ensures After(p, frames, n).prevT == Some(frames[n - 1].t)
  {
  }

  lemma NoBreak<S>()
    ensures OneSegment<S>([])
  {
  }

  lemma OneSegmentAppend<S>(before: seq<Observation<S>>, o: Observation<S>)
    requires OneSegment(before) && (before == [] || Continues(before[|before| - 1], o))
    ensures OneSegment(before + [o])
  {
    var seen := before + [o];
    forall i | 0 < i < |seen|
      ensures Gap(Frames(seen), i) <= MAX_FRAME_GAP_SECONDS
    {
      if i < |before| {
        assert Gap(Frames(before), i) <= MAX_FRAME_GAP_SECONDS;
      }
    }
  }

  lemma {:induction false} RecentUnbroken<S>(ops: seq<Op<S>>, n: nat, camera: int)
    requires n <= |ops|
    ensures OneSegment(Recent(ops, n, camera))
  {
    hide OneSegment, Continues;
    if n > 0 {
      RecentUnbroken(ops, n - 1, camera);
      var before := Recent(ops, n - 1, camera);
      match ops[n - 1]
      case Prune(live) => NoBreak<S>();
      case Observe(c, o) =>
        NoBreak<S>();
        OneSegmentAppend([], o);
        assert [] + [o] == [o];
        if before != [] && Continues(before[|before| - 1], o) {
          OneSegmentAppend(before, o);
        }
    } else {
      NoBreak<S>();
    }
  }

  /** Every accumulator's whole history is one stream object, one segment and
      no consecutive gap above the limit, and the registry's last time is the
      accumulator's. */
  lemma RecentIsOneSegment<S>(ops: seq<Op<S>>, n: nat, camera: int)
    requires n <= |ops|
    ensures OneSegment(Recent(ops, n, camera))
    ensures camera in EntriesAfter(ops, n) ==>
              var e := EntriesAfter(ops, n)[camera]; e.lastT == e.acc.prevT && e.lastT.Some?
  {
    RegistryHoldsRecent(ops, n, camera);
    hide EntriesAfter, StepOn, Step;
    RecentUnbroken(ops, n, camera);
    var seen := Recent(ops, n, camera);
    if seen != [] {
      assert After(DEPLOYED, Frames(seen), |seen|).prevT == Some(Frames(seen)[|seen| - 1].t) by {
        AfterTime(DEPLOYED, Frames(seen), |seen|);
      }
    }
  }

  lemma EntriesNext<S>(ops: seq<Op<S>>, n: nat)
    requires n < |ops|
    ensures EntriesAfter(ops, n + 1) == ApplyOp(EntriesAfter(ops, n), ops[n])
  {
    hide ApplyOp;
  }

  lemma NoEntries<S>(ops: seq<Op<S>>)
    ensures EntriesAfter(ops, 0) == map[]
  {
  }

  lemma {:induction false} EntriesPrefix<S>(ops: seq<Op<S>>, more: seq<Op<S>>, n: nat)
    requires n <= |ops|
    ensures EntriesAfter(ops + more, n) == EntriesAfter(ops, n)
  {
    hide ApplyOp, EntriesAfter;
    if n > 0 {
      EntriesPrefix(ops, more, n - 1);
      assert (ops + more)[n - 1] == ops[n - 1];
      EntriesNext(ops, n - 1);
      EntriesNext(ops + more, n - 1);
    } else {
      NoEntries(ops);
      NoEntries(ops + more);
    }
  }

  // -- corroboration ---------------------------------------------------------

  /** The regions that fire when observation `n` is resolved and processed. */
  function FiredOn<S(==)>(ops: seq<Op<S>>, n: nat): seq<RegionState>
    requires n < |ops| && ops[n].Observe?
  {
    var o := ops[n].seen;
    var e := Resolve(EntriesAfter(ops, n), ops[n].camera, o.stream, o.segment, Some(o.frame.t));
    StepOn(DEPLOYED, e.acc, o.frame).fired
  }

  /** They are the regions a fresh accumulator fires on the last of the camera's
      unbroken recent frames. */
  lemma FiredOnRecent<S>(ops: seq<Op<S>>, n: nat)
    requires n < |ops| && ops[n].Observe?
    ensures var seen := Recent(ops, n + 1, ops[n].camera);
            && seen != [] && seen[|seen| - 1] == ops[n].seen
            && FiredOn(ops, n) == FiredAt(DEPLOYED, Frames(seen), |seen| - 1)
  {
    hide StepOn;
    var camera, o := ops[n].camera, ops[n].seen;
    RegistryHoldsRecent(ops, n, camera);
    var before, seen := Recent(ops, n, camera), Recent(ops, n + 1, camera);
    if seen == [o] {
      assert After(DEPLOYED, Frames(seen), 0) == EMPTY;
    } else {
      assert seen == before + [o];
      assert Frames(before)[..|before|] == Frames(seen)[..|before|];
      AfterPrefix(DEPLOYED, Frames(before), Frames(seen), |before|);
    }
  }

  lemma OneSegmentFacts<S>(seen: seq<Observation<S>>)
    requires OneSegment(seen)
    ensures GapsWithin(Frames(seen), MAX_FRAME_GAP_SECONDS)
    ensures forall i, j :: 0 <= i < j < |seen| ==>
              seen[i].stream == seen[j].stream && seen[i].segment == seen[j].segment
  {
  }

  lemma DeployedFacts()
    ensures DEPLOYED.threshold == ACC_THRESHOLD == 1.0 && DEPLOYED.decay > 0.0
    ensures MAX_FRAME_GAP_SECONDS == 0.5
  {
  }

  /** No event fires without corroboration: in every run over every camera, a
      region that fires was first seen at least half a second before, its
      unrounded score is within its peak confidence times its age plus one gap,
      and two frames of the same stream and segment, at different times, both
      support it. */
  lemma NoLoneFrameFires<S>(ops: seq<Op<S>>, n: nat, r: RegionState) returns (i: nat, j: nat)
    requires n < |ops| && ops[n].Observe? && r in FiredOn(ops, n)
    requires TimesAscend(Frames(Recent(ops, n + 1, ops[n].camera)))
    requires ConfsWithin(Frames(Recent(ops, n + 1, ops[n].camera)), 1.0)
    ensures var age := ops[n].seen.frame.t - r.firstT;
            ACC_THRESHOLD <= r.score <= r.peak * (age + MAX_FRAME_GAP_SECONDS) && 0.5 <= age
    ensures var seen := Recent(ops, n + 1, ops[n].camera);
            && i < j < |seen|
            && seen[i].stream == seen[j].stream && seen[i].segment == seen[j].segment
            && seen[i].frame.t < seen[j].frame.t
            && SupportedOn(Frames(seen), i, r.log) && SupportedOn(Frames(seen), j, r.log)
  {
    hide *;
    FiredOnRecent(ops, n);
    var seen := Recent(ops, n + 1, ops[n].camera);
    RecentUnbroken(ops, n + 1, ops[n].camera);
    OneSegmentFacts(seen);
    DeployedFacts();
    EventNeedsDuration(DEPLOYED, Frames(seen), |seen| - 1, r, MAX_FRAME_GAP_SECONDS);
    PeakAtMost(DEPLOYED, Frames(seen), |seen| - 1, r, 1.0);
    var age := ops[n].seen.frame.t - r.firstT;
    Product(r.peak, 1.0, age + MAX_FRAME_GAP_SECONDS);
    i, j := EventNeedsTwoFrames(DEPLOYED, Frames(seen), |seen| - 1, r, MAX_FRAME_GAP_SECONDS);
  }
}
