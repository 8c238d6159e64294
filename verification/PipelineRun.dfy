/** One camera, three ticks of the inference loop, and the wreck it reports
    (ai_engine/pipeline.py). */
module PipelineRun {
  import opened Boxes
  import opened Cameras
  import opened Common
  import opened Config
  import opened Evidence
  import opened EvidenceRuns
  import opened History
  import opened Isolation
  import opened Pipeline
  import opened Readers
  import opened Tightness

  /** A detector that sees the wreck on every picture but the first. */
  const LOOK: Detector := (image: Image) =>
    Some(if image.handle == 0 then Detection([], []) else Detection([SPOT], [1.0]))

  const CALM := Trouble(false, {})

  /** The frame decoded at half second `k`, and what the detector makes of it. */
  function Shot(k: nat): FrameRead {
    FrameRead(Image(k), k as real / 2.0, 0)
  }

  function Seen(camera: CameraStream, k: nat): Observation<CameraStream>
    requires k < 3
  {
    Observation(camera, 0, Footage()[k])
  }

  /** The operations of the first `n` ticks. */
  function Ticked(camera: CameraStream, n: nat): (ops: seq<Op<CameraStream>>)
    requires n <= 3
    ensures |ops| == 2 * n
  {
    if n == 0 then [] else Ticked(camera, n - 1) + [Prune({7}), Observe(7, Seen(camera, n - 1))]
  }

  function Watched(camera: CameraStream, n: nat): (seen: seq<Observation<CameraStream>>)
    requires n <= 3
    ensures |seen| == n && forall i :: 0 <= i < n ==> seen[i] == Seen(camera, i)
  {
    seq(n, i requires 0 <= i < n => Seen(camera, i))
  }

  lemma {:induction false} RecentPrefix<S>(ops: seq<Op<S>>, more: seq<Op<S>>, n: nat, camera: int)
    requires n <= |ops|
    ensures Recent(ops + more, n, camera) == Recent(ops, n, camera)
  {
    if n > 0 {
      RecentPrefix(ops, more, n - 1, camera);
      assert (ops + more)[n - 1] == ops[n - 1];
    }
  }

  lemma {:induction false} WatchedIsRecent(camera: CameraStream, n: nat)
    requires n <= 3
    ensures Recent(Ticked(camera, n), 2 * n, 7) == Watched(camera, n)
  {
    if n > 0 {
      WatchedIsRecent(camera, n - 1);
      var ops := Ticked(camera, n);
      var front := Ticked(camera, n - 1);
      RecentPrefix(front, ops[2 * n - 2..], 2 * n - 2, 7);
      assert ops == front + ops[2 * n - 2..];
      assert Recent(ops, 2 * n - 1, 7) == Watched(camera, n - 1);
      assert Watched(camera, n) == Watched(camera, n - 1) + [Seen(camera, n - 1)];
      assert n > 1 ==> Continues(Seen(camera, n - 2), Seen(camera, n - 1));
    }
  }

  lemma FiredPrefix(p: Params, a: seq<Frame>, b: seq<Frame>, k: nat)
    requires k < |a| && k < |b| && a[..k + 1] == b[..k + 1]
    ensures FiredAt(p, a, k) == FiredAt(p, b, k)
  {
    hide StepOn;
    ShorterPrefix(a, b, k + 1);
    AfterPrefix(p, a, b, k);
  }

  function FiredOnTick(camera: CameraStream, n: nat): seq<RegionState>
    requires 1 <= n <= 3
  {
    FiredOn(Ticked(camera, n), 2 * n - 1)
  }

  /** Something fires on the third tick and on none before. */
  lemma FiresOnThird(camera: CameraStream, n: nat)
    requires 1 <= n <= 3
    ensures FiredOnTick(camera, n) == [] <==> n < 3
  {
    hide FiredOn, FiredAt, Recent;
    var ops := Ticked(camera, n);
    WatchedIsRecent(camera, n);
    FiredOnRecent(ops, 2 * n - 1);
    var frames := Frames(Watched(camera, n));
    assert frames == Footage()[..n];
    FiredPrefix(DEPLOYED, frames, Footage(), n - 1);
    FootageFires();
  }

  function Found(camera: CameraStream, k: nat): Inferred<CameraStream>
    requires k < 3
  {
    Inferred(7, camera, Shot(k), Detection(Footage()[k].boxes, Footage()[k].confs))
  }

  lemma LooksAt(camera: CameraStream, k: nat)
    requires k < 3
    ensures Healthy(LOOK, Unlucky(LOOK, CALM, [Pending(7, camera, Shot(k))]), [Pending(7, camera, Shot(k))])
         == [Found(camera, k)]
    ensures NewlyIsolated(LOOK, CALM, [Pending(7, camera, Shot(k))]) == {}
  {
    var batch := [Pending(7, camera, Shot(k))];
    assert batch[..0] == [];
    assert Unlucky(LOOK, CALM, batch) == {} && !Fails(LOOK, {}, batch[0]);
    assert FailedIds(LOOK, {}, batch) == FailedIds(LOOK, {}, batch[..0]) + {};
    assert Healthy(LOOK, {}, batch) == Healthy(LOOK, {}, batch[..0]) + [Found(camera, k)];
  }

  lemma NextOps(camera: CameraStream, k: nat)
    requires k < 3
    ensures Ticked(camera, k) + [Prune({7})] + Observations([Found(camera, k)]) == Ticked(camera, k + 1)
  {
  }

  lemma OneIncident(camera: CameraStream, k: nat)
    requires k < 3
    ensures var before := Ticked(camera, k) + [Prune({7})];
            Incidents(before, [Found(camera, k)], 1)
            == IncidentOf(Found(camera, k), FiredOnTick(camera, k + 1))
  {
    hide FiredOn, IncidentOf;
    NextOps(camera, k);
    assert [Found(camera, k)][..1] == [Found(camera, k)];
  }

  /** The pipeline watches this camera only, and has been through `k` ticks. */
  ghost predicate Watches(p: InferencePipeline, camera: CameraStream, k: nat)
    requires k <= 3
    reads p`cameras, p`order, p`isolated, p`ops, p`ticks, p.cameras.Values, camera
    reads p.registry, p.registry.accs, p.registry.regions
  {
    && p.Valid() && p.Traced() && p.detect == LOOK && p.isolated == {} && p.order == [7]
    && p.cameras == map[7 := camera] && p.ops == Ticked(camera, k)
    && camera.segmentId == 0 && camera.isPaused == (k == 3)
  }

  lemma ListedCamera(p: InferencePipeline, camera: CameraStream, k: nat)
    requires k <= 3 && Watches(p, camera, k)
    ensures p.Listed() && camera.Valid() && camera.cameraId == 7
  {
    assert 7 in p.cameras;
  }

  lemma IncidentShape(camera: CameraStream, k: nat, fired: seq<RegionState>)
    requires k < 3
    ensures var incidents := IncidentOf(Found(camera, k), fired);
            if fired == [] then incidents == []
            else |incidents| == 1 && incidents[0].camera == camera && incidents[0].frame == Shot(k).frame
  {
  }

  /** One tick with the frame of half second `k` in the slot. */
  method Tick(p: InferencePipeline, camera: CameraStream, k: nat) returns (incidents: seq<Incident>)
    requires k < 3 && Watches(p, camera, k) && p.Listed()
    requires p.ReadyFrames(k as real / 2.0, 1) == [Pending(7, camera, Shot(k))]
    modifies p, p.registry, p.registry.accs, p.registry.regions, camera
    ensures Watches(p, camera, k + 1)
    ensures fresh(p.registry.accs - old(p.registry.accs)) && fresh(p.registry.regions - old(p.registry.regions))
    ensures incidents == IncidentOf(Found(camera, k), FiredOnTick(camera, k + 1))
  {
    hide InferencePipeline.Valid, InferencePipeline.Traced, InferencePipeline.Listed, InferencePipeline.ReadyFrames,
      InferencePipeline.FreshFrames, Healthy, NewlyIsolated, Incidents, IncidentOf, FiredOn, Observations, Ticked,
      IncidentIds, Orderly, AllRecorded;
    LooksAt(camera, k);
    assert p.cameras.Keys == {7};
    incidents := p.TickOnce(k as real / 2.0, CALM, k as real / 2.0);
    NextOps(camera, k);
    OneIncident(camera, k);
    FiresOnThird(camera, k + 1);
    IncidentIdsOf(Found(camera, k), FiredOnTick(camera, k + 1));
  }

  lemma ReadyShot(p: InferencePipeline, camera: CameraStream, k: nat)
    requires k < 3 && Watches(p, camera, k) && p.Listed() && camera.latest == Some(Shot(k))
    ensures p.ReadyFrames(k as real / 2.0, 1) == [Pending(7, camera, Shot(k))]
  {
    hide InferencePipeline.Valid, InferencePipeline.Traced, Ticked, Orderly;
    assert p.ReadyFrames(k as real / 2.0, 0) == [];
  }

  /** A frame is decoded and a tick taken. */
  method ShowAndTick(p: InferencePipeline, camera: CameraStream, k: nat) returns (incidents: seq<Incident>)
    requires k < 3 && Watches(p, camera, k)
    modifies p, p.registry, p.registry.accs, p.registry.regions, camera
    ensures Watches(p, camera, k + 1)
    ensures fresh(p.registry.accs - old(p.registry.accs)) && fresh(p.registry.regions - old(p.registry.regions))
    ensures k < 2 ==> incidents == []
    ensures k == 2 ==> |incidents| == 1 && incidents[0].camera == camera && incidents[0].frame == Shot(2).frame
  {
    hide InferencePipeline.Valid, InferencePipeline.Traced, InferencePipeline.Listed, InferencePipeline.ReadyFrames,
      IncidentOf, FiredOnTick, Orderly;
    ListedCamera(p, camera, k);
    camera.Decode(Some(Image(k)), k as real / 2.0, k as real / 2.0);
    ReadyShot(p, camera, k);
    incidents := Tick(p, camera, k);
    FiresOnThird(camera, k + 1);
    IncidentShape(camera, k, FiredOnTick(camera, k + 1));
  }

  method StartWatching() returns (p: InferencePipeline, camera: CameraStream)
    ensures Watches(p, camera, 0) && fresh(p) && fresh(camera)
    ensures fresh(p.registry) && fresh(p.registry.accs) && fresh(p.registry.regions)
  {
    p := new InferencePipeline(LOOK);
    camera := new CameraStream(1, 7, "");
    p.cameras, p.order := map[7 := camera], [7];
    assert p.Listed();
  }

  /** A wreck that is there from the second frame on is reported on the third tick,
      with the picture of that tick, and its camera is paused; no tick before reports
      anything. */
  method WreckIsReported() returns (p: InferencePipeline, camera: CameraStream, early: seq<Incident>,
                                    late: seq<Incident>)
    ensures p.cameras == map[7 := camera] && camera.isPaused
    ensures early == [] && |late| == 1 && late[0].camera == camera && late[0].frame == Image(2)
  {
    hide InferencePipeline.Valid, InferencePipeline.Traced, Ticked;
    p, camera := StartWatching();
    early := ShowAndTick(p, camera, 0);
    var second := ShowAndTick(p, camera, 1);
    early := early + second;
    late := ShowAndTick(p, camera, 2);
  }
}
