/** One tick of the inference loop (ai_engine/pipeline.py) over real stream
    objects: collect, infer with isolation, resolve and update, blindfold. */
module Pipeline {
  import opened Common
  import opened Config
  import opened Evidence
  import opened EvidenceRuns
  import opened History
  import opened Readers
  import opened Cameras
  import opened Registry
  import opened Isolation

  /** What the tick hands on for one camera: its best event and the frame. */
  datatype Incident = Incident(id: int, camera: CameraStream, frame: Image, event: Event)

  function SeenIn(i: Inferred<CameraStream>): Observation<CameraStream> {
    Observation(i.camera, i.read.segmentId, Frame(i.read.t, i.detection.boxes, i.detection.confs))
  }

  function Observations(inferred: seq<Inferred<CameraStream>>): (ops: seq<Op<CameraStream>>)
    ensures |ops| == |inferred|
    ensures forall i :: 0 <= i < |inferred| ==> ops[i] == Observe(inferred[i].id, SeenIn(inferred[i]))
  {
    seq(|inferred|, i requires 0 <= i < |inferred| => Observe(inferred[i].id, SeenIn(inferred[i])))
  }

  /** The operation is this very frame of this very stream, with what the detector
      finds on it. */
  predicate Records(detect: Detector, op: Op<CameraStream>, i: Inferred<CameraStream>) {
    && op.Observe? && op.camera == i.id && op.seen.stream == i.camera
    && op.seen.segment == i.read.segmentId && op.seen.frame.t == i.read.t
    && detect(i.read.frame) == Some(Detection(op.seen.frame.boxes, op.seen.frame.confs))
  }

  /** Every result is what the detector finds on its own frame. */
  predicate Detected(detect: Detector, inferred: seq<Inferred<CameraStream>>) {
    forall k :: 0 <= k < |inferred| ==> detect(inferred[k].read.frame) == Some(inferred[k].detection)
  }

  predicate AllRecorded(detect: Detector, ops: seq<Op<CameraStream>>, from: nat, inferred: seq<Inferred<CameraStream>>)
  {
    |ops| == from + |inferred| && forall k :: 0 <= k < |inferred| ==> Records(detect, ops[from + k], inferred[k])
  }

  lemma ObservationsRecord(detect: Detector, before: seq<Op<CameraStream>>, inferred: seq<Inferred<CameraStream>>)
    requires Detected(detect, inferred)
    ensures AllRecorded(detect, before + Observations(inferred), |before|, inferred)
  {
    var ops := before + Observations(inferred);
    forall k | 0 <= k < |inferred|
      ensures Records(detect, ops[|before| + k], inferred[k])
    {
      assert ops[|before| + k] == Observations(inferred)[k];
    }
  }

  /** The event with the highest reported confidence; the first of several. */
  function Best(events: seq<Event>): Event
    requires events != []
  {
    var last := events[|events| - 1];
    if |events| == 1 then last
    else
      var before := Best(events[..|events| - 1]);
      if last.peakConf > before.peakConf then last else before
  }

  /** `e` is event `i`, and every event before it has a lower peak. */
  predicate IsFirst(events: seq<Event>, i: int, e: Event) {
    0 <= i < |events| && events[i] == e && forall j :: 0 <= j < i ==> events[j].peakConf < e.peakConf
  }

  lemma {:induction false} BestIsHighest(events: seq<Event>)
    requires events != []
    ensures Best(events) in events
    ensures forall e :: e in events ==> e.peakConf <= Best(events).peakConf
    ensures exists i :: IsFirst(events, i, Best(events))
  {
    if |events| > 1 {
      var n := |events| - 1;
      BestIsHighest(events[..n]);
      assert events == events[..n] + [events[n]];
      var i :| IsFirst(events[..n], i, Best(events[..n]));
      assert IsFirst(events, if events[n].peakConf > Best(events[..n]).peakConf then n else i, Best(events));
    } else {
      assert IsFirst(events, 0, Best(events));
    }
  }

  /** The incident of the frame `i` on which the regions `fired` fire. */
  function IncidentOf(i: Inferred<CameraStream>, fired: seq<RegionState>): seq<Incident> {
    if fired == [] then [] else [Incident(i.id, i.camera, i.read.frame, Best(Reports(i.read.t, fired)))]
  }

  /** The incidents of the first `n` frames inferred after the operations
      `before`: one for each on which a region fires. */
  function Incidents(before: seq<Op<CameraStream>>, inferred: seq<Inferred<CameraStream>>, n: nat): seq<Incident>
    requires n <= |inferred|
  {
    if n == 0 then []
    else
      Incidents(before, inferred, n - 1)
      + IncidentOf(inferred[n - 1], FiredOn(before + Observations(inferred[..n]), |before| + n - 1))
  }

  lemma ObservationsNext(before: seq<Op<CameraStream>>, inferred: seq<Inferred<CameraStream>>, n: nat)
    requires n < |inferred|
    ensures before + Observations(inferred[..n + 1])
         == before + Observations(inferred[..n]) + [Observe(inferred[n].id, SeenIn(inferred[n]))]
  {
    hide SeenIn;
    assert Observations(inferred[..n + 1])
        == Observations(inferred[..n]) + [Observe(inferred[n].id, SeenIn(inferred[n]))];
  }

  lemma IncidentsNext(before: seq<Op<CameraStream>>, inferred: seq<Inferred<CameraStream>>, n: nat)
    requires n < |inferred|
    ensures Incidents(before, inferred, n + 1)
         == Incidents(before, inferred, n)
            + IncidentOf(inferred[n], FiredOn(before + Observations(inferred[..n + 1]), |before| + n))
  {
    hide FiredOn, IncidentOf, Observations;
  }

  /** What fires on result `k`. */
  function FiredFor(before: seq<Op<CameraStream>>, inferred: seq<Inferred<CameraStream>>, k: nat): seq<RegionState>
    requires k < |inferred|
  {
    FiredOn(before + Observations(inferred[..k + 1]), |before| + k)
  }

  /** The incident is about this result: its camera, its own picture, and of what fired
      on it an event with the highest peak. */
  predicate Tells(incident: Incident, i: Inferred<CameraStream>, fired: seq<RegionState>) {
    && incident.id == i.id && incident.camera == i.camera && incident.frame == i.read.frame
    && incident.event in Reports(i.read.t, fired)
    && forall e :: e in Reports(i.read.t, fired) ==> e.peakConf <= incident.event.peakConf
  }

  lemma IncidentTells(i: Inferred<CameraStream>, fired: seq<RegionState>)
    requires fired != []
    ensures |IncidentOf(i, fired)| == 1 && Tells(IncidentOf(i, fired)[0], i, fired)
  {
    hide Best, Report;
    BestIsHighest(Reports(i.read.t, fired));
  }

  /** Incident `m` is about result `at[m]`, and those are the results on which something
      fires, in order. */
  predicate OneForEach(before: seq<Op<CameraStream>>, inferred: seq<Inferred<CameraStream>>, n: nat, at: seq<nat>,
                       incidents: seq<Incident>)
    requires n <= |inferred|
  {
    && |at| == |incidents|
    && (forall m, m' :: 0 <= m < m' < |at| ==> at[m] < at[m'])
    && (forall k :: 0 <= k < n ==> (k in at <==> FiredFor(before, inferred, k) != []))
    && forall m :: 0 <= m < |at| ==>
         at[m] < n && Tells(incidents[m], inferred[at[m]], FiredFor(before, inferred, at[m]))
  }

  lemma OneForEachNext(before: seq<Op<CameraStream>>, inferred: seq<Inferred<CameraStream>>, n: nat, at: seq<nat>,
                       incidents: seq<Incident>)
    requires n < |inferred| && OneForEach(before, inferred, n, at, incidents)
    ensures var fired := FiredFor(before, inferred, n);
            if fired == [] then OneForEach(before, inferred, n + 1, at, incidents)
            else OneForEach(before, inferred, n + 1, at + [n], incidents + IncidentOf(inferred[n], fired))
  {
    hide FiredFor, IncidentOf, Tells;
    var fired := FiredFor(before, inferred, n);
    if fired != [] {
      IncidentTells(inferred[n], fired);
    } else {
      assert n !in at;
    }
  }

  lemma IncidentsNone(before: seq<Op<CameraStream>>, inferred: seq<Inferred<CameraStream>>)
    ensures OneForEach(before, inferred, 0, [], Incidents(before, inferred, 0))
  {
  }

  lemma IncidentsFollow(before: seq<Op<CameraStream>>, inferred: seq<Inferred<CameraStream>>, n: nat)
    requires 0 < n <= |inferred|
    ensures var fired := FiredFor(before, inferred, n - 1);
            Incidents(before, inferred, n)
            == if fired == [] then Incidents(before, inferred, n - 1)
               else Incidents(before, inferred, n - 1) + IncidentOf(inferred[n - 1], fired)
  {
    hide FiredOn, Observations;
  }

  /** There is one incident for each result on which something fires, in order. */
  lemma {:induction false} IncidentsAre(before: seq<Op<CameraStream>>, inferred: seq<Inferred<CameraStream>>, n: nat)
    returns (at: seq<nat>)
    requires n <= |inferred|
    ensures OneForEach(before, inferred, n, at, Incidents(before, inferred, n))
  {
    hide FiredFor, OneForEach, IncidentOf, Incidents;
    if n == 0 {
      at := [];
      IncidentsNone(before, inferred);
    } else {
      at := IncidentsAre(before, inferred, n - 1);
      IncidentsFollow(before, inferred, n);
      OneForEachNext(before, inferred, n - 1, at, Incidents(before, inferred, n - 1));
      at := if FiredFor(before, inferred, n - 1) == [] then at else at + [n - 1];
    }
  }

  function IncidentIds(incidents: seq<Incident>): set<int> {
    set k | 0 <= k < |incidents| :: incidents[k].id
  }

  lemma NoIncidents()
    ensures IncidentIds([]) == {} && Observations([]) == []
    ensures forall before, inferred :: Incidents(before, inferred, 0) == []
  {
  }

  lemma IncidentIdsAppend(a: seq<Incident>, b: seq<Incident>)
    ensures IncidentIds(a + b) == IncidentIds(a) + IncidentIds(b)
  {
    forall k | 0 <= k < |b|
      ensures b[k].id in IncidentIds(a + b)
    {
      assert (a + b)[|a| + k] == b[k];
    }
    forall k | 0 <= k < |a|
      ensures a[k].id in IncidentIds(a + b)
    {
      assert (a + b)[k] == a[k];
    }
  }

  lemma IncidentIdsOf(i: Inferred<CameraStream>, fired: seq<RegionState>)
    ensures IncidentIds(IncidentOf(i, fired)) == if fired == [] then {} else {i.id}
  {
    hide Best;
    if fired != [] {
      assert IncidentOf(i, fired)[0].id == i.id;
    }
  }

  class InferencePipeline {
    var cameras: map<int, CameraStream>
    var order: seq<int>
    const detect: Detector
    const registry: AccumulatorRegistry<CameraStream>
    var isolated: set<int>
    ghost var ops: seq<Op<CameraStream>>
    ghost var ticks: seq<Tick<CameraStream>>

    ghost predicate Listed()
      reads this`cameras, this`order, cameras.Values`acts, cameras.Values`isPaused
    {
      && (forall i, j :: 0 <= i < j < |order| ==> order[i] != order[j])
      && (forall i :: 0 <= i < |order| ==> order[i] in cameras)
      && forall c :: c in cameras ==> cameras[c].cameraId == c && cameras[c].Valid()
    }

    /** `order` is the dictionary's iteration order, and `ops` everything the
        registry has been through. */
    ghost predicate Valid()
      reads this`cameras, this`order, this`ops
      reads registry, registry.accs, registry.regions, cameras.Values`acts, cameras.Values`isPaused
    {
      && registry.Valid() && registry.entries == EntriesAfter(ops, |ops|)
      && Listed()
    }

    /** `ticks` is what every tick so far had fresh from the cameras that were not
        paused and what went wrong on it, and the isolated cameras are what they
        make of it. */
    ghost predicate Traced()
      reads this`isolated, this`ticks
    {
      isolated == IsolatedAfter(detect, ticks, |ticks|)
    }

    constructor (detect: Detector)
      ensures Traced() && ticks == []
      ensures Valid() && fresh(registry) && this.detect == detect
      ensures fresh(registry.accs) && fresh(registry.regions)
      ensures cameras == map[] && isolated == {} && ops == []
    {
      this.detect := detect;
      registry := new AccumulatorRegistry<CameraStream>();
      cameras, order, isolated, ops, ticks := map[], [], {}, [], [];
    }

    // -- collection ----------------------------------------------------------

    ghost predicate Eligible(c: int)
      requires c in cameras
      reads this`cameras, this`order, this`isolated, cameras.Values
    {
      !cameras[c].isPaused && c !in isolated
    }

    /** The frames ready and fresh among the first `n` cameras. */
    ghost function ReadyFrames(now: real, n: nat): seq<Pending<CameraStream>>
      requires n <= |order| && Listed()
      reads this`cameras, this`order, this`isolated, cameras.Values
    {
      if n == 0 then []
      else
        var c := order[n - 1];
        var camera := cameras[c];
        var before := ReadyFrames(now, n - 1);
        if !Eligible(c) || camera.latest.None? || now - camera.latest.value.t > MAX_FRAME_AGE_SECONDS then before
        else before + [Pending(c, camera, camera.latest.value)]
    }

    /** The same without regard to isolation. */
    ghost function FreshFrames(now: real, n: nat): seq<Pending<CameraStream>>
      requires n <= |order| && Listed()
      reads this`cameras, this`order, this`isolated, cameras.Values
    {
      if n == 0 then []
      else
        var c := order[n - 1];
        var camera := cameras[c];
        var before := FreshFrames(now, n - 1);
        if camera.isPaused || camera.latest.None? || now - camera.latest.value.t > MAX_FRAME_AGE_SECONDS then before
        else before + [Pending(c, camera, camera.latest.value)]
    }

    /** The `i`-th camera has a frame ready that may be collected. */
    ghost predicate HasReady(now: real, i: nat, p: Pending<CameraStream>)
      requires i < |order| && Listed()
      reads this`cameras, this`order, this`isolated, cameras.Values
    {
      var camera := cameras[order[i]];
      && p == Pending(order[i], camera, p.read) && camera.latest == Some(p.read)
      && !camera.isPaused && order[i] !in isolated && now - p.read.t <= 2.0
    }

    /** A frame is collected if and only if it is the latest of a camera that is neither
        paused nor isolated and it is at most two seconds old. */
    lemma {:induction false} ReadyAre(now: real, n: nat)
      requires n <= |order| && Listed()
      ensures forall p :: p in ReadyFrames(now, n) <==> exists i :: 0 <= i < n && HasReady(now, i, p)
    {
      if n > 0 {
        ReadyAre(now, n - 1);
        var before, frames := ReadyFrames(now, n - 1), ReadyFrames(now, n);
        forall p | p in frames && p !in before
          ensures HasReady(now, n - 1, p)
        {
        }
        forall p | HasReady(now, n - 1, p)
          ensures p in frames
        {
          assert frames == before + [p];
        }
      }
    }

    lemma {:induction false} ReadyIsCollected(now: real, n: nat)
      requires n <= |order| && Listed()
      ensures ReadyFrames(now, n) == Collected(FreshFrames(now, n), isolated)
    {
      if n > 0 {
        ReadyIsCollected(now, n - 1);
        var frames, before := FreshFrames(now, n), FreshFrames(now, n - 1);
        assert frames != before ==> frames[..|frames| - 1] == before;
      }
    }

    /** Over all the ticks of the pipeline: a camera is isolated if and only if on one
        of them it failed, and the next tick collects from a camera if and only if
        it has a fresh frame and never failed. */
    lemma IsolationInRuns(now: real, id: int)
      requires Listed() && Traced()
      ensures id in isolated <==> exists k :: 0 <= k < |ticks| && FailedAt(detect, ticks, k, id)
      ensures forall p :: p in ReadyFrames(now, |order|) && p.id == id <==>
                && p in FreshFrames(now, |order|) && p.id == id
                && forall k :: 0 <= k < |ticks| ==> !FailedAt(detect, ticks, k, id)
    {
      hide FailedAt, IsolatedAfter, Collected, ReadyFrames, FreshFrames;
      IsolationIsExact(detect, ticks, |ticks|, id);
      ReadyIsCollected(now, |order|);
      CollectedAre(FreshFrames(now, |order|), isolated);
    }

    method Collect(now: real) returns (collected: seq<Pending<CameraStream>>)
      requires Listed()
      modifies cameras.Values`latest, cameras.Values`taken
      ensures Listed() && collected == old(ReadyFrames(now, |order|))
      ensures forall c :: c in order ==>
                cameras[c].latest == if old(Eligible(c)) then None else old(cameras[c].latest)
    {
      collected := [];
      for k := 0 to |order|
        invariant Listed()
        invariant collected == old(ReadyFrames(now, k))
        invariant forall i :: 0 <= i < k ==>
                    cameras[order[i]].latest == if old(Eligible(order[i])) then None else old(cameras[order[i]].latest)
        invariant forall i :: k <= i < |order| ==> cameras[order[i]].latest == old(cameras[order[i]].latest)
      {
        var c := order[k];
        assert c in cameras && cameras[c].cameraId == c && cameras[c].Valid();
        var camera := cameras[c];
        if !camera.isPaused && camera.cameraId !in isolated {
          var read := camera.ReadFrame();
          if read.Some? && now - read.value.t <= MAX_FRAME_AGE_SECONDS {
            collected := collected + [Pending(camera.cameraId, camera, read.value)];
          }
        }
      }
    }

    // -- inference -------------------------------------------------------------

    /** One batched call: raises if any frame of the batch is poisoned, or for a
        transient reason. */
    method PredictBatch(batch: seq<Pending<CameraStream>>, transient: bool) returns (detections: Option<seq<Detection>>)
      ensures detections.None? <==> transient || Raises(detect, batch)
      ensures detections.Some? ==> |detections.value| == |batch|
      ensures detections.Some? ==>
                forall k :: 0 <= k < |batch| ==> detect(batch[k].read.frame) == Some(detections.value[k])
    {
      if transient {
        return None;
      }
      var found: seq<Detection> := [];
      for k := 0 to |batch|
        invariant |found| == k
        invariant forall i :: 0 <= i < k ==> detect(batch[i].read.frame) == Some(found[i])
      {
        var d := detect(batch[k].read.frame);
        if d.None? {
          assert Poisoned(detect, batch[k]);
          return None;
        }
        found := found + [d.value];
      }
      return Some(found);
    }

    /** What inference makes of a batch. */
    function InferredFrom(trouble: Trouble, batch: seq<Pending<CameraStream>>): seq<Inferred<CameraStream>> {
      Healthy(detect, Unlucky(detect, trouble, batch), batch)
    }

    lemma NothingToInfer(trouble: Trouble, batch: seq<Pending<CameraStream>>)
      requires batch == []
      ensures InferredFrom(trouble, batch) == [] && NewlyIsolated(detect, trouble, batch) == {}
    {
    }

    /** The batch as one call, or frame by frame when that raises. */
    method Infer(batch: seq<Pending<CameraStream>>, trouble: Trouble) returns (inferred: seq<Inferred<CameraStream>>)
      modifies this`isolated, (set p | p in batch :: p.camera)`health
      ensures inferred == InferredFrom(trouble, batch)
      ensures isolated == old(isolated) + NewlyIsolated(detect, trouble, batch)
    {
      var detections := PredictBatch(batch, trouble.batch);
      if detections.Some? {
        AllHealthy(detect, batch);
        inferred := seq(|batch|, k requires 0 <= k < |batch| =>
          Inferred(batch[k].id, batch[k].camera, batch[k].read, detections.value[k]));
        return;
      }
      inferred := [];
      for k := 0 to |batch|
        invariant inferred == Healthy(detect, trouble.alone, batch[..k])
        invariant isolated == old(isolated) + FailedIds(detect, trouble.alone, batch[..k])
      {
        var p := batch[k];
        assert batch[..k + 1][..k] == batch[..k];
        var alone := PredictBatch([p], p.id in trouble.alone);
        assert [p][0] == p && (Raises(detect, [p]) <==> Poisoned(detect, p));
        if alone.None? {
          p.camera.RecordInferenceFailure("INFERENCE_FAILED");
          isolated := isolated + {p.id};
        } else {
          inferred := inferred + [Inferred(p.id, p.camera, p.read, alone.value[0])];
        }
      }
      assert batch[..|batch|] == batch;
    }

    // -- the tick -----------------------------------------------------------------

    ghost predicate Mine(inferred: seq<Inferred<CameraStream>>)
      reads this`cameras
    {
      && (forall k :: 0 <= k < |inferred| ==>
            inferred[k].id in cameras && inferred[k].camera == cameras[inferred[k].id])
      && (forall j, k :: 0 <= j < k < |inferred| ==>
            inferred[j].id != inferred[k].id && inferred[j].camera != inferred[k].camera)
    }

    /** Distinct unpaused cameras among the first `n`. */
    ghost predicate ReadyOnes(ready: seq<Pending<CameraStream>>, n: nat)
      requires n <= |order| && Listed()
      reads this`cameras, this`order, this`isolated, cameras.Values
    {
      && (forall k :: 0 <= k < |ready| ==>
            && ready[k].id in order[..n] && ready[k].camera == cameras[ready[k].id]
            && !ready[k].camera.isPaused)
      && (forall j, k :: 0 <= j < k < |ready| ==> ready[j].id != ready[k].id)
    }

    lemma ReadyOnesNext(ready: seq<Pending<CameraStream>>, n: nat, read: FrameRead)
      requires Listed() && n < |order| && ReadyOnes(ready, n)
      ensures ReadyOnes(ready, n + 1)
      ensures !cameras[order[n]].isPaused ==> ReadyOnes(ready + [Pending(order[n], cameras[order[n]], read)], n + 1)
    {
      assert order[..n + 1] == order[..n] + [order[n]];
      assert order[n] !in order[..n];
    }

    lemma {:induction false} ReadyFramesAre(now: real, n: nat)
      requires Listed() && n <= |order|
      ensures ReadyOnes(ReadyFrames(now, n), n)
    {
      if n > 0 {
        ReadyFramesAre(now, n - 1);
        var c := order[n - 1];
        ReadyOnesNext(ReadyFrames(now, n - 1), n - 1,
                      if cameras[c].latest.Some? then cameras[c].latest.value else FrameRead(Image(0), 0.0, 0));
      }
    }

    lemma InferredAreMine(now: real, trouble: Trouble)
      requires Listed()
      ensures var inferred := InferredFrom(trouble, ReadyFrames(now, |order|));
              Mine(inferred) && forall k :: 0 <= k < |inferred| ==> !inferred[k].camera.isPaused
    {
      hide ReadyFrames, Healthy, Sources, Fails, FailedIds, Unlucky;
      ReadyFramesAre(now, |order|);
      var ready := ReadyFrames(now, |order|);
      OthersUnaffected(detect, Unlucky(detect, trouble, ready), ready);
    }

    /** Every result is what the detector finds on a frame of the batch. */
    lemma InferredAreDetected(trouble: Trouble, batch: seq<Pending<CameraStream>>)
      ensures var inferred := InferredFrom(trouble, batch);
              && Detected(detect, inferred)
              && forall k :: 0 <= k < |inferred| ==>
                   Pending(inferred[k].id, inferred[k].camera, inferred[k].read) in batch
    {
      hide Healthy, Sources, Fails, FailedIds, Unlucky;
      OthersUnaffected(detect, Unlucky(detect, trouble, batch), batch);
    }

    lemma ReadyAreRunning(now: real)
      requires Listed()
      ensures forall p :: p in ReadyFrames(now, |order|) ==> p.camera in cameras.Values
    {
      hide ReadyFrames;
      ReadyFramesAre(now, |order|);
      var ready := ReadyFrames(now, |order|);
      forall k | 0 <= k < |ready|
        ensures ready[k].camera in cameras.Values
      {
        assert ready[k].id in order[..|order|];
      }
    }

    method BestEvent(events: seq<Event>) returns (best: Event)
      requires events != []
      ensures best == Best(events)
    {
      best := events[0];
      for k := 1 to |events|
        invariant best == Best(events[..k])
      {
        assert events[..k + 1][..k] == events[..k];
        if events[k].peakConf > best.peakConf {
          best := events[k];
        }
      }
      assert events[..|events|] == events;
    }

    /** Resolve and update one camera; if it produced events, blindfold it and
        report the best one. */
    method Assess(i: Inferred<CameraStream>, recordedAt: real) returns (found: seq<Incident>)
      requires registry.Valid() && registry.entries == EntriesAfter(ops, |ops|)
      requires i.camera.Valid() && !i.camera.isPaused
      modifies this`ops, registry, registry.accs, registry.regions
      modifies i.camera`isPaused, i.camera`health, i.camera`inferenceTimes, i.camera`windowStartedAt, i.camera`acts
      ensures registry.Valid() && registry.entries == EntriesAfter(ops, |ops|)
      ensures fresh(registry.accs - old(registry.accs)) && fresh(registry.regions - old(registry.regions))
      ensures ops == old(ops) + [Observe(i.id, SeenIn(i))]
      ensures var op := ops[|old(ops)|];
              && op.Observe? && op.camera == i.id && op.seen.stream == i.camera
              && op.seen.segment == i.read.segmentId && op.seen.frame.t == i.read.t
              && op.seen.frame.boxes == i.detection.boxes && op.seen.frame.confs == i.detection.confs
      ensures var fired := FiredOn(ops, |old(ops)|);
              && found == IncidentOf(i, fired)
              && i.camera.isPaused == (fired != [])
              && i.camera.acts == old(i.camera.acts) + (if fired == [] then [] else [Reported, Blinded])
      ensures i.camera.Valid()
    {
      hide StepOn, Reports, Resolve, EntriesAfter, AccumulatorRegistry.Valid, ApplyOp, Best;
      i.camera.RecordInference(recordedAt);
      ghost var op := Observe(i.id, SeenIn(i));
      var events := registry.ObserveFrame(i.id, SeenIn(i));
      assert registry.entries == EntriesAfter(ops + [op], |ops| + 1) by {
        EntriesPrefix(ops, [op], |ops|);
        EntriesNext(ops + [op], |ops|);
      }
      assert events == Reports(i.read.t, FiredOn(ops + [op], |ops|)) by {
        EntriesPrefix(ops, [op], |ops|);
      }
      ops := ops + [op];
      if events == [] {
        return [];
      }
      var best := BestEvent(events);
      i.camera.NoteReport();
      i.camera.Pause();
      return [Incident(i.id, i.camera, i.read.frame, best)];
    }

    /** Since the snapshot, the cameras reported on were blindfolded and nothing
        else was. */
    ghost predicate Blindfolded(paused: map<int, bool>, acts: map<int, seq<Act>>, reported: set<int>)
      reads this`cameras, cameras.Values`isPaused, cameras.Values`acts
    {
      forall c :: c in cameras && c in paused && c in acts ==>
        && cameras[c].isPaused == (paused[c] || c in reported)
        && cameras[c].acts == acts[c] + (if c in reported then [Reported, Blinded] else [])
    }

    lemma NobodyBlindfolded(paused: map<int, bool>, acts: map<int, seq<Act>>)
      requires forall c :: c in cameras && c in paused && c in acts ==>
                 cameras[c].isPaused == paused[c] && cameras[c].acts == acts[c]
      ensures Blindfolded(paused, acts, {})
    {
    }

    lemma BlindfoldedAre(paused: map<int, bool>, acts: map<int, seq<Act>>, reported: set<int>)
      requires Blindfolded(paused, acts, reported)
      ensures forall c :: c in cameras && c in paused && c in acts ==>
                && cameras[c].isPaused == (paused[c] || c in reported)
                && cameras[c].acts == acts[c] + (if c in reported then [Reported, Blinded] else [])
    {
    }

    method AssessMine(i: Inferred<CameraStream>, recordedAt: real,
                      ghost paused: map<int, bool>, ghost acts: map<int, seq<Act>>, ghost reported: set<int>)
      returns (found: seq<Incident>)
      requires Valid() && i.id in cameras && i.camera == cameras[i.id]
      requires !i.camera.isPaused && i.id !in reported && Blindfolded(paused, acts, reported)
      modifies this`ops, registry, registry.accs, registry.regions
      modifies i.camera`isPaused, i.camera`health, i.camera`inferenceTimes, i.camera`windowStartedAt, i.camera`acts
      ensures Valid()
      ensures fresh(registry.accs - old(registry.accs)) && fresh(registry.regions - old(registry.regions))
      ensures ops == old(ops) + [Observe(i.id, SeenIn(i))]
      ensures found == IncidentOf(i, FiredOn(ops, |old(ops)|))
      ensures IncidentIds(found) <= {i.id}
      ensures Blindfolded(paused, acts, reported + IncidentIds(found))
    {
      hide AccumulatorRegistry.Valid, FiredOn, Best, EntriesAfter, Orderly;
      found := Assess(i, recordedAt);
      IncidentIdsOf(i, FiredOn(ops, |old(ops)|));
      hide IncidentIds, IncidentOf;
      assert cameras == old(cameras);
    }

    lemma MineAt(inferred: seq<Inferred<CameraStream>>, n: nat)
      requires Mine(inferred) && n < |inferred|
      ensures inferred[n].id in cameras && inferred[n].camera == cameras[inferred[n].id]
      ensures forall k :: n < k < |inferred| ==>
                inferred[k].id != inferred[n].id && inferred[k].camera != inferred[n].camera
    {
    }

    method AssessAll(inferred: seq<Inferred<CameraStream>>, recordedAt: real,
                     ghost paused: map<int, bool>, ghost acts: map<int, seq<Act>>)
      returns (incidents: seq<Incident>)
      requires Valid() && Mine(inferred) && Blindfolded(paused, acts, {})
      requires forall k :: 0 <= k < |inferred| ==> !inferred[k].camera.isPaused
      modifies this`ops, registry, registry.accs, registry.regions
      modifies cameras.Values`isPaused, cameras.Values`health, cameras.Values`inferenceTimes
      modifies cameras.Values`windowStartedAt, cameras.Values`acts
      ensures Valid()
      ensures fresh(registry.accs - old(registry.accs)) && fresh(registry.regions - old(registry.regions))
      ensures ops == old(ops) + Observations(inferred)
      ensures incidents == Incidents(old(ops), inferred, |inferred|)
      ensures Blindfolded(paused, acts, IncidentIds(incidents))
    {
      hide Valid, FiredOn, IncidentOf, Incidents, SeenIn, Blindfolded, IncidentIds, Observations, Orderly, Mine;
      incidents := [];
      NoIncidents();
      assert inferred[..0] == [];
      for n := 0 to |inferred|
        invariant Valid()
        invariant fresh(registry.accs - old(registry.accs)) && fresh(registry.regions - old(registry.regions))
        invariant ops == old(ops) + Observations(inferred[..n])
        invariant incidents == Incidents(old(ops), inferred, n)
        invariant forall k :: n <= k < |inferred| ==>
                    !inferred[k].camera.isPaused && inferred[k].id !in IncidentIds(incidents)
        invariant Blindfolded(paused, acts, IncidentIds(incidents))
      {
        MineAt(inferred, n);
        var found := AssessMine(inferred[n], recordedAt, paused, acts, IncidentIds(incidents));
        ObservationsNext(old(ops), inferred, n);
        IncidentsNext(old(ops), inferred, n);
        IncidentIdsAppend(incidents, found);
        incidents := incidents + found;
      }
      assert inferred[..|inferred|] == inferred;
    }

    /** What the next tick isolates continues the history. */
    lemma TickIsTraced(now: real, trouble: Trouble)
      requires Valid() && Traced()
      ensures Listed()
      ensures IsolatedAfter(detect, ticks + [Tick(FreshFrames(now, |order|), trouble)], |ticks| + 1)
              == isolated + NewlyIsolated(detect, trouble, ReadyFrames(now, |order|))
    {
      hide ReadyFrames, FreshFrames, IsolatedAfter, Collected, NewlyIsolated, EntriesAfter, AccumulatorRegistry.Valid;
      ReadyIsCollected(now, |order|);
      IsolatedNext(detect, ticks, Tick(FreshFrames(now, |order|), trouble));
    }

    method PruneRegistry()
      requires Valid()
      modifies this`ops, registry`slots, registry`entries
      ensures Valid() && ops == old(ops) + [Prune(cameras.Keys)]
    {
      hide EntriesAfter, AccumulatorRegistry.Valid;
      registry.PruneCameras(cameras.Keys);
      ghost var op := Op<CameraStream>.Prune(cameras.Keys);
      assert registry.entries == EntriesAfter(ops + [op], |ops| + 1) by {
        EntriesPrefix(ops, [op], |ops|);
        EntriesNext(ops + [op], |ops|);
      }
      ops := ops + [op];
    }

    method InferReady(now: real, trouble: Trouble) returns (inferred: seq<Inferred<CameraStream>>)
      requires Valid()
      modifies this`isolated, this`ops, registry`slots, registry`entries
      modifies cameras.Values`latest, cameras.Values`taken, cameras.Values`health
      ensures Valid() && ops == old(ops) + [Prune(cameras.Keys)]
      ensures inferred == InferredFrom(trouble, old(ReadyFrames(now, |order|)))
      ensures isolated == old(isolated) + NewlyIsolated(detect, trouble, old(ReadyFrames(now, |order|)))
      ensures Mine(inferred) && forall k :: 0 <= k < |inferred| ==> !inferred[k].camera.isPaused
      ensures Detected(detect, inferred)
    {
      hide ReadyFrames, EntriesAfter, Detected, AccumulatorRegistry.Valid, InferredFrom, NewlyIsolated, Orderly, Listed;
      InferredAreMine(now, trouble);
      InferredAreDetected(trouble, ReadyFrames(now, |order|));
      ReadyAreRunning(now);
      PruneRegistry();
      var collected := Collect(now);
      if collected == [] {
        NothingToInfer(trouble, collected);
        return [];
      }
      inferred := Infer(collected, trouble);
    }

    /** The first half of the tick, up to the detections. */
    method CollectAndInfer(now: real, trouble: Trouble) returns (inferred: seq<Inferred<CameraStream>>)
      requires Valid() && Traced()
      modifies this`isolated, this`ops, this`ticks, registry`slots, registry`entries
      modifies cameras.Values`latest, cameras.Values`taken, cameras.Values`health
      ensures Valid() && ops == old(ops) + [Prune(cameras.Keys)]
      ensures Traced() && ticks == old(ticks) + [Tick(old(FreshFrames(now, |order|)), trouble)]
      ensures inferred == InferredFrom(trouble, old(ReadyFrames(now, |order|)))
      ensures isolated == old(isolated) + NewlyIsolated(detect, trouble, old(ReadyFrames(now, |order|)))
      ensures Mine(inferred) && forall k :: 0 <= k < |inferred| ==> !inferred[k].camera.isPaused
      ensures Detected(detect, inferred)
    {
      hide Valid, Listed, ReadyFrames, FreshFrames, Detected, InferredFrom, NewlyIsolated, IsolatedAfter, ReadyOnes;
      TickIsTraced(now, trouble);
      ghost var frames := FreshFrames(now, |order|);
      inferred := InferReady(now, trouble);
      ticks := ticks + [Tick(frames, trouble)];
    }

    /** The second half of the tick: every result is assessed in turn. */
    method Judge(inferred: seq<Inferred<CameraStream>>, recordedAt: real) returns (incidents: seq<Incident>)
      requires Valid() && Mine(inferred) && Detected(detect, inferred)
      requires forall k :: 0 <= k < |inferred| ==> !inferred[k].camera.isPaused
      modifies this`ops, registry, registry.accs, registry.regions
      modifies cameras.Values`isPaused, cameras.Values`health, cameras.Values`inferenceTimes
      modifies cameras.Values`windowStartedAt, cameras.Values`acts
      ensures Valid()
      ensures fresh(registry.accs - old(registry.accs)) && fresh(registry.regions - old(registry.regions))
      ensures ops == old(ops) + Observations(inferred) && AllRecorded(detect, ops, |old(ops)|, inferred)
      ensures incidents == Incidents(old(ops), inferred, |inferred|)
      ensures forall c :: c in cameras ==>
                var reported := c in IncidentIds(incidents);
                && cameras[c].isPaused == (old(cameras[c].isPaused) || reported)
                && cameras[c].acts == old(cameras[c].acts) + (if reported then [Reported, Blinded] else [])
    {
      hide FiredOn, IncidentOf, Incidents, IncidentIds, Observations, SeenIn, Valid, Mine, AllRecorded, Detected,
        Blindfolded;
      ghost var paused := map c | c in cameras :: cameras[c].isPaused;
      ghost var acts := map c | c in cameras :: cameras[c].acts;
      NobodyBlindfolded(paused, acts);
      NoIncidents();
      ObservationsRecord(detect, ops, inferred);
      incidents := AssessAll(inferred, recordedAt, paused, acts);
      BlindfoldedAre(paused, acts, IncidentIds(incidents));
    }

    method TickOnce(now: real, trouble: Trouble, recordedAt: real) returns (incidents: seq<Incident>)
      requires Valid() && Traced()
      modifies this`isolated, this`ops, this`ticks, registry, registry.accs, registry.regions
      modifies cameras.Values`latest, cameras.Values`taken, cameras.Values`isPaused, cameras.Values`health
      modifies cameras.Values`inferenceTimes, cameras.Values`windowStartedAt, cameras.Values`acts
      ensures Valid() && Traced() && ticks == old(ticks) + [Tick(old(FreshFrames(now, |order|)), trouble)]
      ensures fresh(registry.accs - old(registry.accs)) && fresh(registry.regions - old(registry.regions))
      ensures var ready := old(ReadyFrames(now, |order|));
              var inferred := InferredFrom(trouble, ready);
              var before := old(ops) + [Prune(cameras.Keys)];
              && ops == before + Observations(inferred)
              && incidents == Incidents(before, inferred, |inferred|)
              && isolated == old(isolated) + NewlyIsolated(detect, trouble, ready)
              && AllRecorded(detect, ops, |old(ops)| + 1, inferred)
      ensures forall c :: c in cameras ==>
                var reported := c in IncidentIds(incidents);
                && cameras[c].isPaused == (old(cameras[c].isPaused) || reported)
                && cameras[c].acts == old(cameras[c].acts) + (if reported then [Reported, Blinded] else [])
    {
      hide FiredOn, IncidentOf, Incidents, IncidentIds, Observations, SeenIn, ReadyFrames, FreshFrames, Valid,
        InferredFrom, NewlyIsolated, Traced, Mine, AllRecorded, Detected;
      var inferred := CollectAndInfer(now, trouble);
      incidents := Judge(inferred, recordedAt);
    }
  }
}
