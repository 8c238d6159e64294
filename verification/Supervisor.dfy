/** The supervisor over real stream objects (ai_engine/supervisor.py). */
module Supervisor {
  import opened Common
  import opened Cameras
  import opened Reconcile
  import Outbox
  import OutboxModel

  /** The camera runs, is wanted, and needs no restart. */
  predicate Continues(index: map<int, Snapshot>, local: Runtime, c: int) {
    c in local && !Unwanted(index, c) && !NeedsRestart(local[c], index[c])
  }

  /** No action of the list replaces the camera's stream. */
  predicate Keeps(actions: seq<Action>, c: int) {
    forall a :: a in actions && a.id == c ==> !Replaces(a)
  }

  class CameraSupervisor {
    var cameras: map<int, CameraStream>
    var order: seq<int>
    ghost var repr: set<CameraStream>

    /** `order` is the dictionary's iteration order. */
    ghost predicate Valid()
      reads this, repr
    {
      && Lists(order, cameras.Keys)
      && forall c :: c in cameras ==> cameras[c] in repr && cameras[c].cameraId == c && cameras[c].Valid()
    }

    ghost function StreamOf(cam: CameraStream): Stream
      reads cam
    {
      Stream(cam.isPaused, cam.appliedVersion, cam.url, cam.channelId)
    }

    ghost function Running(): Runtime
      reads this, repr
      requires Valid()
    {
      map c | c in cameras :: StreamOf(cameras[c])
    }

    constructor ()
      ensures Valid() && cameras == map[] && repr == {}
    {
      cameras, order, repr := map[], [], {};
    }

    /** The snapshot as a dictionary, in iteration order. */
    method IndexSnapshot(snaps: seq<Snapshot>) returns (index: map<int, Snapshot>, ids: seq<int>)
      ensures index == Index(snaps) && ids == Order(snaps)
    {
      index, ids := map[], [];
      for k := 0 to |snaps|
        invariant index == Index(snaps[..k]) && ids == Order(snaps[..k])
      {
        assert snaps[..k + 1][..k] == snaps[..k];
        if snaps[k].cameraId !in index {
          ids := ids + [snaps[k].cameraId];
        }
        index := index[snaps[k].cameraId := snaps[k]];
      }
      assert snaps[..|snaps|] == snaps;
    }

    method PlanCamera(snap: Snapshot, pending: bool) returns (plan: seq<Action>)
      requires Valid()
      ensures plan == Plan(snap, Get(Running(), snap.cameraId), pending)
    {
      var id := snap.cameraId;
      if !WantsRuntime(snap) {
        return [];
      }
      if id !in cameras {
        return [Start(id, snap)];
      }
      var local := cameras[id];
      assert Running()[id] == StreamOf(local);
      if local.url != snap.rtspUrl || local.channelId != snap.channelId {
        var reapply := snap;
        if pending && !snap.desired.Paused? {
          reapply := snap.(desired := Paused);
        }
        return [Reapply(id, reapply)];
      }
      plan := [];
      if local.appliedVersion != snap.configVersion {
        plan := plan + [Update(id, snap)];
      }
      if snap.desired.Paused? && !local.isPaused {
        plan := plan + [Action.Pause(id)];
      } else if snap.desired.Active? && local.isPaused && !pending {
        plan := plan + [Action.Resume(id)];
      }
    }

    method ComputeActions(snaps: seq<Snapshot>, pending: set<int>) returns (actions: seq<Action>)
      requires Valid()
      ensures actions == Actions(snaps, order, Running(), pending)
    {
      hide Plan, StreamOf, Unwanted, Index, Order;
      var index, ids := IndexSnapshot(snaps);
      OrderIsIndexed(snaps);
      actions := [];
      for k := 0 to |order|
        invariant actions == Stops(index, order[..k])
      {
        assert order[..k + 1][..k] == order[..k];
        if Unwanted(index, order[k]) {
          actions := actions + [Stop(order[k])];
        }
      }
      assert order[..|order|] == order;
      var stops := actions;
      ghost var plans: seq<Action> := [];
      for k := 0 to |ids|
        invariant actions == stops + plans
        invariant plans == Plans(index, ids[..k], Running(), pending)
      {
        assert ids[..k + 1][..k] == ids[..k];
        var plan := PlanCamera(index[ids[k]], ids[k] in pending);
        actions := actions + plan;
        plans := plans + plan;
      }
      assert ids[..|ids|] == ids;
    }

    method StartStream(id: int, snap: Snapshot) returns (cam: CameraStream)
      ensures fresh(cam) && cam.Valid() && cam.cameraId == id && StreamOf(cam) == Started(snap)
      ensures cam.segmentId == 0 && cam.acts == if snap.desired.Paused? then [Blinded] else []
    {
      cam := new CameraStream(snap.channelId, id, snap.rtspUrl);
      cam.appliedVersion := snap.configVersion;
      if snap.desired.Paused? {
        cam.Pause();
      }
    }

    method Register(id: int, cam: CameraStream)
      requires Valid() && cam.cameraId == id && cam.Valid()
      modifies this
      ensures Valid() && repr == old(repr) + {cam}
      ensures cameras == old(cameras)[id := cam]
    {
      if id !in cameras {
        order := order + [id];
      }
      cameras := cameras[id := cam];
      repr := repr + {cam};
    }

    method Forget(id: int)
      requires Valid() && id in cameras
      modifies this
      ensures Valid() && repr == old(repr)
      ensures cameras == old(cameras) - {id}
    {
      var kept: seq<int> := [];
      for k := 0 to |order|
        invariant forall i :: 0 <= i < |kept| ==> kept[i] in order[..k] && kept[i] != id
        invariant forall c :: c in order[..k] && c != id ==> c in kept
        invariant forall i, j :: 0 <= i < j < |kept| ==> kept[i] != kept[j]
        invariant Lists(order, cameras.Keys)
      {
        assert order[..k + 1] == order[..k] + [order[k]];
        if order[k] != id {
          assert order[k] !in order[..k];
          kept := kept + [order[k]];
        }
      }
      assert order[..|order|] == order;
      order := kept;
      cameras := cameras - {id};
    }

    /** Changing one stream object changes that camera only. */
    twostate lemma OnlyThatOne(id: int)
      requires old(Valid()) && Valid() && cameras == old(cameras) && id in cameras
      requires forall c :: c in cameras && c != id ==> old(allocated(cameras[c])) && unchanged(cameras[c])
      ensures Running() == old(Running())[id := StreamOf(cameras[id])]
    {
      forall c | c in cameras && c != id
        ensures Running()[c] == old(Running())[c]
      {
        assert unchanged(cameras[c]);
      }
    }

    method PauseCamera(id: int)
      requires Valid() && id in cameras
      modifies cameras[id]
      ensures Valid() && Running() == old(Running())[id := old(StreamOf(cameras[id])).(isPaused := true)]
    {
      cameras[id].Pause();
      OnlyThatOne(id);
    }

    method ResumeCamera(id: int, now: real)
      requires Valid() && id in cameras
      modifies cameras[id]
      ensures Valid() && Running() == old(Running())[id := old(StreamOf(cameras[id])).(isPaused := false)]
    {
      cameras[id].Resume(now);
      OnlyThatOne(id);
    }

    method UpdateCamera(id: int, version: Option<int>)
      requires Valid() && id in cameras
      modifies cameras[id]
      ensures Valid() && Running() == old(Running())[id := old(StreamOf(cameras[id])).(version := version)]
    {
      cameras[id].appliedVersion := version;
      OnlyThatOne(id);
    }

    method StopCamera(id: int)
      requires Valid() && id in cameras
      modifies cameras[id]
      ensures Valid() && Running() == old(Running()) && !cameras[id].running
    {
      cameras[id].Stop();
      OnlyThatOne(id);
    }

    method DropCamera(id: int)
      requires Valid() && id in cameras
      modifies this, cameras[id]
      ensures Valid() && repr == old(repr) && cameras == old(cameras) - {id}
      ensures Running() == old(Running()) - {id}
    {
      hide StreamOf;
      StopCamera(id);
      Forget(id);
      assert Running() == old(Running()) - {id};
    }

    method LaunchCamera(id: int, snap: Snapshot)
      requires Valid()
      modifies this
      ensures Valid() && fresh(repr - old(repr))
      ensures Running() == old(Running())[id := Started(snap)]
      ensures id in cameras && fresh(cameras[id]) && cameras == old(cameras)[id := cameras[id]]
    {
      hide StreamOf, Started;
      var cam := StartStream(id, snap);
      Register(id, cam);
      assert Running() == old(Running())[id := Started(snap)];
    }

    /** The old stream, if any, is stopped first. */
    method RestartCamera(id: int, snap: Snapshot)
      requires Valid()
      modifies this, repr
      ensures Valid() && fresh(repr - old(repr))
      ensures Running() == old(Running())[id := Started(snap)]
      ensures id in cameras && fresh(cameras[id]) && cameras == old(cameras)[id := cameras[id]]
    {
      hide StreamOf, Started;
      if id in cameras {
        StopCamera(id);
      }
      LaunchCamera(id, snap);
    }

    method ApplyAction(a: Action, now: real)
      requires Valid()
      modifies this, repr
      ensures Valid() && fresh(repr - old(repr))
      ensures Running() == Apply(old(Running()), a)
      ensures forall c :: c in old(cameras) && (c != a.id || !Replaces(a)) ==>
                c in cameras && cameras[c] == old(cameras[c])
      ensures (a.Start? || a.Reapply?) ==> a.id in cameras && fresh(cameras[a.id])
    {
      hide StreamOf, Started;
      var id := a.id;
      match a
      case Stop(_) =>
        if id in cameras {
          DropCamera(id);
        } else {
          assert Running() - {id} == Running();
        }
      case Start(_, snap) => LaunchCamera(id, snap);
      case Reapply(_, snap) => RestartCamera(id, snap);
      case Update(_, snap) =>
        if id in cameras {
          UpdateCamera(id, snap.configVersion);
        }
      case Pause(_) =>
        if id in cameras {
          PauseCamera(id);
        }
      case Resume(_) =>
        if id in cameras {
          ResumeCamera(id, now);
        }
    }

    method ApplyActions(actions: seq<Action>, now: real)
      requires Valid()
      modifies this, repr
      ensures Valid() && fresh(repr - old(repr))
      ensures Running() == ApplyAll(old(Running()), actions)
      ensures forall c :: c in old(cameras) && Keeps(actions, c) ==> c in cameras && cameras[c] == old(cameras[c])
    {
      hide Apply;
      for k := 0 to |actions|
        invariant Valid() && fresh(repr - old(repr))
        invariant Running() == ApplyAll(old(Running()), actions[..k])
        invariant forall c :: c in old(cameras) && Keeps(actions, c) ==> c in cameras && cameras[c] == old(cameras[c])
      {
        assert actions[..k + 1][..k] == actions[..k];
        ApplyAction(actions[k], now);
        assert actions[k] in actions;
      }
      assert actions[..|actions|] == actions;
    }

    /** One heartbeat that got a response: plan, then apply. Cameras that need no
        restart keep the same stream object. */
    method HandleSnapshot(snaps: seq<Snapshot>, pending: set<int>, now: real)
      requires Valid()
      modifies this, repr
      ensures Valid() && fresh(repr - old(repr))
      ensures Running() == ApplyAll(old(Running()), Actions(snaps, old(order), old(Running()), pending))
      ensures forall c :: Get(Running(), c) == Settled(Index(snaps), Get(old(Running()), c), c in pending, c)
      ensures forall c :: Continues(Index(snaps), old(Running()), c) && c in old(cameras) ==>
                c in cameras && cameras[c] == old(cameras[c])
    {
      hide Actions, Index, Settled, ApplyAll, StreamOf, NeedsRestart;
      var actions := ComputeActions(snaps, pending);
      ghost var local := Running();
      ghost var known := order;
      forall c | Continues(Index(snaps), local, c)
        ensures Keeps(actions, c)
      {
        NoNeedlessRestart(snaps, known, local, pending, c);
      }
      ApplyActions(actions, now);
      OnePassConverges(snaps, known, local, pending, order);
    }

    /** One turn of the heartbeat loop: without a response nothing happens; with
        one, the outbox is scanned for pending events and, unless the scan raised,
        the snapshot applied. */
    method HeartbeatOnce(response: Option<seq<Snapshot>>, outbox: Outbox.DurableOutbox,
                         read: OutboxModel.Name -> OutboxModel.Reading,
                         quarantineRead: OutboxModel.Name -> OutboxModel.Reading, now: real)
      returns (ghost names: seq<OutboxModel.Name>)
      requires Valid()
      modifies this, repr, outbox
      ensures Valid() && fresh(repr - old(repr))
      ensures response.None? ==> Running() == old(Running()) && outbox.Directory() == old(outbox.Directory())
      ensures response.Some? ==>
                && Outbox.Listing(names, old(outbox.Directory()))
                && outbox.Directory()
                   == Outbox.WorldAfter(old(outbox.Directory()),
                                        Outbox.ScansDone(old(outbox.Directory()), names, read, quarantineRead),
                                        old(outbox.opsLeft))
                && Running() == if Outbox.ScanRaises(old(outbox.Directory()), read, quarantineRead) then old(Running())
                                else ApplyAll(old(Running()),
                                              Actions(response.value, old(order), old(Running()),
                                                      Outbox.ReadableCameras(old(outbox.Directory()), read)))
    {
      hide Actions, ApplyAll, Settled, StreamOf, NeedsRestart, Index;
      names := [];
      if response.Some? {
        var pending;
        pending, names := outbox.PendingCameraIds(read, quarantineRead);
        if pending.Some? {
          HandleSnapshot(response.value, pending.value, now);
        }
      }
    }
  }
}
