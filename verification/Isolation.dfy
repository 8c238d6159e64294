/** Fault isolation: which frames of a batch come back with a detection, and
    which cameras are excluded for good (ai_engine/pipeline.py). */
module Isolation {
  import opened Boxes
  import opened Common
  import opened Readers

  datatype Detection = Detection(boxes: seq<Box>, confs: seq<real>)

  /** The model, frame by frame: none where it raises on the frame itself. */
  type Detector = Image -> Option<Detection>

  datatype Pending<C> = Pending(id: int, camera: C, read: FrameRead)

  datatype Inferred<C> = Inferred(id: int, camera: C, read: FrameRead, detection: Detection)

  /** What else goes wrong on a tick: the batched call raises, and so do, if they are
      made, the calls on the single frames of some cameras. */
  datatype Trouble = Trouble(batch: bool, alone: set<int>)

  predicate Poisoned<C>(detect: Detector, p: Pending<C>) {
    detect(p.read.frame).None?
  }

  predicate Raises<C>(detect: Detector, batch: seq<Pending<C>>) {
    exists k :: 0 <= k < |batch| && Poisoned(detect, batch[k])
  }

  predicate BatchRaises<C>(detect: Detector, trouble: Trouble, batch: seq<Pending<C>>) {
    trouble.batch || Raises(detect, batch)
  }

  /** The cameras whose single calls are made and raise though their frames may be
      fine: none unless the batched call raised. */
  function Unlucky<C>(detect: Detector, trouble: Trouble, batch: seq<Pending<C>>): set<int> {
    if BatchRaises(detect, trouble, batch) then trouble.alone else {}
  }

  predicate Fails<C>(detect: Detector, unlucky: set<int>, p: Pending<C>) {
    Poisoned(detect, p) || p.id in unlucky
  }

  /** The batch with the frames that fail left out, in order, each frame with its
      own detection. */
  function Healthy<C>(detect: Detector, unlucky: set<int>, batch: seq<Pending<C>>): seq<Inferred<C>> {
    if batch == [] then []
    else
      var p := batch[|batch| - 1];
      var before := Healthy(detect, unlucky, batch[..|batch| - 1]);
      if Fails(detect, unlucky, p) then before
      else before + [Inferred(p.id, p.camera, p.read, detect(p.read.frame).value)]
  }

  function FailedIds<C>(detect: Detector, unlucky: set<int>, batch: seq<Pending<C>>): set<int> {
    if batch == [] then {}
    else
      var p := batch[|batch| - 1];
      FailedIds(detect, unlucky, batch[..|batch| - 1]) + (if Fails(detect, unlucky, p) then {p.id} else {})
  }

  lemma {:induction false} AllHealthy<C>(detect: Detector, batch: seq<Pending<C>>)
    requires !Raises(detect, batch)
    ensures FailedIds(detect, {}, batch) == {}
    ensures |Healthy(detect, {}, batch)| == |batch|
    ensures forall k :: 0 <= k < |batch| ==>
              var p := batch[k];
              detect(p.read.frame).Some?
              && Healthy(detect, {}, batch)[k] == Inferred(p.id, p.camera, p.read, detect(p.read.frame).value)
  {
    if batch != [] {
      var n := |batch| - 1;
      assert !Poisoned(detect, batch[n]);
      forall k | 0 <= k < n
        ensures !Poisoned(detect, batch[..n][k])
      {
        assert batch[..n][k] == batch[k];
      }
      AllHealthy(detect, batch[..n]);
    }
  }

  /** Where each result came from. */
  function Sources<C>(detect: Detector, unlucky: set<int>, batch: seq<Pending<C>>): seq<int> {
    if batch == [] then []
    else
      var n := |batch| - 1;
      Sources(detect, unlucky, batch[..n]) + (if Fails(detect, unlucky, batch[n]) then [] else [n])
  }

  /** Result `i` is what the detector made of frame `sources[i]`. */
  ghost predicate Paired<C>(detect: Detector, batch: seq<Pending<C>>, results: seq<Inferred<C>>, sources: seq<int>) {
    && |sources| == |results|
    && (forall i :: 0 <= i < |sources| ==> 0 <= sources[i] < |batch|)
    && Increasing(sources)
    && (forall i :: 0 <= i < |results| ==>
          var p := batch[sources[i]];
          && detect(p.read.frame) == Some(results[i].detection)
          && results[i].id == p.id && results[i].camera == p.camera && results[i].read == p.read)
  }

  lemma {:induction false} ResultsPaired<C>(detect: Detector, unlucky: set<int>, batch: seq<Pending<C>>)
    ensures Paired(detect, batch, Healthy(detect, unlucky, batch), Sources(detect, unlucky, batch))
  {
    if batch != [] {
      ResultsPaired(detect, unlucky, batch[..|batch| - 1]);
    }
  }

  lemma {:induction false} SourcesAre<C>(detect: Detector, unlucky: set<int>, batch: seq<Pending<C>>)
    ensures forall k :: k in Sources(detect, unlucky, batch) <==> 0 <= k < |batch| && !Fails(detect, unlucky, batch[k])
  {
    if batch != [] {
      var front := batch[..|batch| - 1];
      SourcesAre(detect, unlucky, front);
      assert forall k :: 0 <= k < |front| ==> front[k] == batch[k];
    }
  }

  lemma {:induction false} FailedIdsAre<C>(detect: Detector, unlucky: set<int>, batch: seq<Pending<C>>, id: int)
    ensures id in FailedIds(detect, unlucky, batch) <==>
              exists k :: 0 <= k < |batch| && batch[k].id == id && Fails(detect, unlucky, batch[k])
  {
    if batch != [] {
      var n := |batch| - 1;
      var front := batch[..n];
      FailedIdsAre(detect, unlucky, front, id);
      assert forall k :: 0 <= k < n ==> front[k] == batch[k];
      if batch[n].id == id && Fails(detect, unlucky, batch[n]) {
        assert id in FailedIds(detect, unlucky, batch);
      } else {
        assert id in FailedIds(detect, unlucky, batch) <==> id in FailedIds(detect, unlucky, front);
      }
    }
  }

  /** A failing camera costs nobody else their result: the results are the other
      frames in batch order, each paired with its own detection, and the newly
      isolated cameras are exactly the failing ones. */
  lemma OthersUnaffected<C>(detect: Detector, unlucky: set<int>, batch: seq<Pending<C>>)
    ensures Paired(detect, batch, Healthy(detect, unlucky, batch), Sources(detect, unlucky, batch))
    ensures forall k :: 0 <= k < |batch| ==>
              (!Fails(detect, unlucky, batch[k]) <==> k in Sources(detect, unlucky, batch))
    ensures forall id :: id in FailedIds(detect, unlucky, batch) <==>
              exists k :: 0 <= k < |batch| && batch[k].id == id && Fails(detect, unlucky, batch[k])
  {
    hide Fails, Paired, Sources, Healthy, FailedIds;
    ResultsPaired(detect, unlucky, batch);
    SourcesAre(detect, unlucky, batch);
    forall id
      ensures id in FailedIds(detect, unlucky, batch) <==>
                exists k :: 0 <= k < |batch| && batch[k].id == id && Fails(detect, unlucky, batch[k])
    {
      FailedIdsAre(detect, unlucky, batch, id);
    }
  }

  // -- over all later ticks -----------------------------------------------------------

  /** What one tick had ready from the cameras that are not paused, and what went
      wrong. */
  datatype Tick<C> = Tick(ready: seq<Pending<C>>, trouble: Trouble)

  /** Isolated cameras are passed over. */
  function Collected<C>(ready: seq<Pending<C>>, isolated: set<int>): seq<Pending<C>> {
    if ready == [] then []
    else
      var p := ready[|ready| - 1];
      Collected(ready[..|ready| - 1], isolated) + (if p.id in isolated then [] else [p])
  }

  /** The cameras a tick adds to the isolated ones. */
  function NewlyIsolated<C>(detect: Detector, trouble: Trouble, batch: seq<Pending<C>>): set<int> {
    FailedIds(detect, Unlucky(detect, trouble, batch), batch)
  }

  function IsolatedAfter<C>(detect: Detector, ticks: seq<Tick<C>>, n: nat): set<int>
    requires n <= |ticks|
  {
    if n == 0 then {}
    else
      var before := IsolatedAfter(detect, ticks, n - 1);
      before + NewlyIsolated(detect, ticks[n - 1].trouble, Collected(ticks[n - 1].ready, before))
  }

  lemma {:induction false} IsolatedPrefix<C>(detect: Detector, ticks: seq<Tick<C>>, more: seq<Tick<C>>, n: nat)
    requires n <= |ticks|
    ensures IsolatedAfter(detect, ticks + more, n) == IsolatedAfter(detect, ticks, n)
  {
    if n > 0 {
      hide NewlyIsolated, Collected;
      IsolatedPrefix(detect, ticks, more, n - 1);
      assert (ticks + more)[n - 1] == ticks[n - 1];
    }
  }

  lemma IsolatedNext<C>(detect: Detector, ticks: seq<Tick<C>>, tick: Tick<C>)
    ensures var before := IsolatedAfter(detect, ticks, |ticks|);
            IsolatedAfter(detect, ticks + [tick], |ticks| + 1)
            == before + NewlyIsolated(detect, tick.trouble, Collected(tick.ready, before))
  {
    hide NewlyIsolated, Collected;
    IsolatedPrefix(detect, ticks, [tick], |ticks|);
  }

  lemma {:induction false} CollectedAre<C>(ready: seq<Pending<C>>, isolated: set<int>)
    ensures forall p :: p in Collected(ready, isolated) <==> p in ready && p.id !in isolated
  {
    if ready != [] {
      var n := |ready| - 1;
      CollectedAre(ready[..n], isolated);
      assert ready == ready[..n] + [ready[n]];
    }
  }

  predicate HadPoison<C>(detect: Detector, ready: seq<Pending<C>>, id: int) {
    exists k :: 0 <= k < |ready| && ready[k].id == id && Poisoned(detect, ready[k])
  }

  predicate WasReady<C>(ready: seq<Pending<C>>, id: int) {
    exists k :: 0 <= k < |ready| && ready[k].id == id
  }

  /** On tick `k` the batched call raised. */
  predicate BatchRaisedAt<C>(detect: Detector, ticks: seq<Tick<C>>, k: nat)
    requires k < |ticks|
  {
    BatchRaises(detect, ticks[k].trouble, Collected(ticks[k].ready, IsolatedAfter(detect, ticks, k)))
  }

  /** On tick `k` the camera had a frame ready, and after the batched call its own
      raised for another reason than the frame. */
  predicate OwnCallRaisedAt<C>(detect: Detector, ticks: seq<Tick<C>>, k: nat, id: int)
    requires k < |ticks|
  {
    WasReady(ticks[k].ready, id) && id in ticks[k].trouble.alone && BatchRaisedAt(detect, ticks, k)
  }

  /** On tick `k` the camera had a poisoned frame ready, or its own call raised
      anyway. */
  predicate FailedAt<C>(detect: Detector, ticks: seq<Tick<C>>, k: nat, id: int)
    requires k < |ticks|
  {
    HadPoison(detect, ticks[k].ready, id) || OwnCallRaisedAt(detect, ticks, k, id)
  }

  lemma FailingIsFailedAt<C>(detect: Detector, ticks: seq<Tick<C>>, k: nat, id: int)
    requires k < |ticks| && id !in IsolatedAfter(detect, ticks, k)
    ensures id in NewlyIsolated(detect, ticks[k].trouble, Collected(ticks[k].ready, IsolatedAfter(detect, ticks, k)))
            <==> FailedAt(detect, ticks, k, id)
  {
    hide FailedIds, Collected, IsolatedAfter, Poisoned, Raises;
    var before, ready := IsolatedAfter(detect, ticks, k), ticks[k].ready;
    var batch := Collected(ready, before);
    var unlucky := Unlucky(detect, ticks[k].trouble, batch);
    CollectedAre(ready, before);
    FailedIdsAre(detect, unlucky, batch, id);
    if id in FailedIds(detect, unlucky, batch) {
      var j :| 0 <= j < |batch| && batch[j].id == id && Fails(detect, unlucky, batch[j]);
      assert batch[j] in ready;
    }
    if FailedAt(detect, ticks, k, id) {
      var p :| p in ready && p.id == id && Fails(detect, unlucky, p);
      assert p in batch;
    }
  }

  /** Over any run of ticks a camera is isolated if and only if on one of them it
      failed; from then on it is never collected, and every other camera is
      collected whenever it has a frame. */
  lemma {:induction false} IsolationIsExact<C>(detect: Detector, ticks: seq<Tick<C>>, n: nat, id: int)
    requires n <= |ticks|
    ensures id in IsolatedAfter(detect, ticks, n) <==> exists k :: 0 <= k < n && FailedAt(detect, ticks, k, id)
    ensures n < |ticks| ==>
              forall p :: p in Collected(ticks[n].ready, IsolatedAfter(detect, ticks, n)) && p.id == id <==>
                p in ticks[n].ready && p.id == id && forall k :: 0 <= k < n ==> !FailedAt(detect, ticks, k, id)
  {
    hide NewlyIsolated, Collected, FailedAt;
    if n > 0 {
      IsolationIsExact(detect, ticks, n - 1, id);
      if id !in IsolatedAfter(detect, ticks, n - 1) {
        FailingIsFailedAt(detect, ticks, n - 1, id);
      }
    }
    if n < |ticks| {
      CollectedAre(ticks[n].ready, IsolatedAfter(detect, ticks, n));
    }
  }

  /** So a camera that never had a poisoned frame is isolated exactly when its own
      call raised for another reason on a tick on which the batched call raised
      too. */
  lemma HealthyIsolatedIff<C>(detect: Detector, ticks: seq<Tick<C>>, n: nat, id: int)
    requires n <= |ticks| && forall k :: 0 <= k < n ==> !HadPoison(detect, ticks[k].ready, id)
    ensures id in IsolatedAfter(detect, ticks, n) <==>
              exists k :: 0 <= k < n && OwnCallRaisedAt(detect, ticks, k, id)
  {
    hide HadPoison, OwnCallRaisedAt, IsolatedAfter;
    IsolationIsExact(detect, ticks, n, id);
    assert forall k :: 0 <= k < n ==> (FailedAt(detect, ticks, k, id) <==> OwnCallRaisedAt(detect, ticks, k, id));
  }

  lemma OnlyIsolatedReady<C>(p: Pending<C>, isolated: set<int>)
    requires p.id in isolated
    ensures Collected([p], isolated) == []
  {
    assert [p][..0] == [];
  }

  /** It does happen: a detector that raises on no frame, one tick on which it runs
      out of memory, and the camera is passed over from then on. */
  lemma HealthyIsIsolated(camera: int)
    ensures exists detect: Detector, ticks: seq<Tick<int>> ::
              && |ticks| == 2 && (forall image :: detect(image).Some?)
              && 1 in IsolatedAfter(detect, ticks, 1) && WasReady(ticks[1].ready, 1)
              && Collected(ticks[1].ready, IsolatedAfter(detect, ticks, 1)) == []
  {
    hide IsolatedAfter, Collected;
    var detect: Detector := (image: Image) => Some(Detection([], []));
    var p := Pending(1, camera, FrameRead(Image(0), 0.0, 0));
    var ticks := [Tick([p], Trouble(true, {1})), Tick([p], Trouble(false, {}))];
    assert [p][0].id == 1 && WasReady([p], 1);
    assert forall k :: 0 <= k < 1 ==> ticks[k] == ticks[0];
    assert OwnCallRaisedAt(detect, ticks, 0, 1);
    HealthyIsolatedIff(detect, ticks, 1, 1);
    OnlyIsolatedReady(p, IsolatedAfter(detect, ticks, 1));
  }
}
