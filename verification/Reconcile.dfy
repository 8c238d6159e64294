/** Reconciling what runs with the backend's snapshot (ai_engine/supervisor.py):
    the plan, what applying it does, and why one pass is enough. */
module Reconcile {
  import opened Common

  datatype Desired = Active | Paused | Inactive | Other

  datatype Snapshot = Snapshot(cameraId: int, channelId: int, rtspUrl: string, isEnabled: bool,
                               desired: Desired, configVersion: Option<int>)

  /** A running stream, as far as reconciliation looks at it. */
  datatype Stream = Stream(isPaused: bool, version: Option<int>, url: string, channelId: int)

  datatype Action =
    | Start(id: int, snap: Snapshot)
    | Stop(id: int)
    | Pause(id: int)
    | Resume(id: int)
    | Reapply(id: int, snap: Snapshot)
    | Update(id: int, snap: Snapshot)

  type Runtime = map<int, Stream>

  predicate WantsRuntime(snap: Snapshot) {
    snap.isEnabled && !snap.desired.Inactive?
  }

  // -- the snapshot as a dictionary ----------------------------------------

  /** Later entries of the same camera replace earlier ones. */
  function Index(snaps: seq<Snapshot>): map<int, Snapshot> {
    if snaps == [] then map[]
    else
      var last := snaps[|snaps| - 1];
      Index(snaps[..|snaps| - 1])[last.cameraId := last]
  }

  /** Iteration order: where each camera first appeared. */
  function Order(snaps: seq<Snapshot>): seq<int> {
    if snaps == [] then []
    else
      var front, id := snaps[..|snaps| - 1], snaps[|snaps| - 1].cameraId;
      if id in Index(front) then Order(front) else Order(front) + [id]
  }

  /** An order lists each key of a dictionary once. */
  ghost predicate Lists(order: seq<int>, keys: set<int>) {
    && (forall i, j :: 0 <= i < j < |order| ==> order[i] != order[j])
    && (forall k :: k in order <==> k in keys)
  }

  lemma {:induction false} OrderListsIndex(snaps: seq<Snapshot>)
    ensures Lists(Order(snaps), Index(snaps).Keys)
    ensures forall id :: id in Index(snaps) ==> Index(snaps)[id].cameraId == id
  {
    if snaps != [] {
      OrderListsIndex(snaps[..|snaps| - 1]);
    }
  }

  lemma ListsAt(order: seq<int>, keys: set<int>)
    requires Lists(order, keys)
    ensures forall k :: 0 <= k < |order| ==> order[k] in keys
  {
    forall k | 0 <= k < |order|
      ensures order[k] in keys
    {
      assert order[k] in order;
    }
  }

  lemma OrderIsIndexed(snaps: seq<Snapshot>)
    ensures Lists(Order(snaps), Index(snaps).Keys)
    ensures forall k :: 0 <= k < |Order(snaps)| ==>
              Order(snaps)[k] in Index(snaps) && Index(snaps)[Order(snaps)[k]].cameraId == Order(snaps)[k]
  {
    OrderListsIndex(snaps);
    ListsAt(Order(snaps), Index(snaps).Keys);
  }

  // -- the plan ------------------------------------------------------------

  predicate NeedsRestart(local: Stream, snap: Snapshot) {
    local.url != snap.rtspUrl || local.channelId != snap.channelId
  }

  /** A pending event overrides a stale desired state across a restart. */
  function ReapplySnapshot(snap: Snapshot, pending: bool): Snapshot {
    if pending && !snap.desired.Paused? then snap.(desired := Paused) else snap
  }

  function Plan(snap: Snapshot, local: Option<Stream>, pending: bool): seq<Action> {
    var id := snap.cameraId;
    if !WantsRuntime(snap) then []
    else if local.None? then [Start(id, snap)]
    else if NeedsRestart(local.value, snap) then [Reapply(id, ReapplySnapshot(snap, pending))]
    else
      (if local.value.version != snap.configVersion then [Update(id, snap)] else [])
      + (if snap.desired.Paused? && !local.value.isPaused then [Pause(id)]
         else if snap.desired.Active? && local.value.isPaused && !pending then [Resume(id)]
         else [])
  }

  function Get<T>(m: map<int, T>, id: int): Option<T> {
    if id in m then Some(m[id]) else None
  }

  predicate Unwanted(index: map<int, Snapshot>, id: int) {
    id !in index || !WantsRuntime(index[id])
  }

  function Stops(index: map<int, Snapshot>, localOrder: seq<int>): seq<Action> {
    if localOrder == [] then []
    else
      var id := localOrder[|localOrder| - 1];
      Stops(index, localOrder[..|localOrder| - 1]) + (if Unwanted(index, id) then [Stop(id)] else [])
  }

  function Plans(index: map<int, Snapshot>, order: seq<int>, local: Runtime, pending: set<int>): seq<Action>
    requires forall id :: id in order ==> id in index
  {
    if order == [] then []
    else
      var id := order[|order| - 1];
      Plans(index, order[..|order| - 1], local, pending) + Plan(index[id], Get(local, id), id in pending)
  }

  function Actions(snaps: seq<Snapshot>, localOrder: seq<int>, local: Runtime, pending: set<int>): seq<Action> {
    OrderListsIndex(snaps);
    Stops(Index(snaps), localOrder) + Plans(Index(snaps), Order(snaps), local, pending)
  }

  // -- applying it -----------------------------------------------------------

  function Started(snap: Snapshot): Stream {
    Stream(snap.desired.Paused?, snap.configVersion, snap.rtspUrl, snap.channelId)
  }

  function Change(local: Option<Stream>, a: Action): Option<Stream> {
    match a
    case Stop(_) => None
    case Start(_, snap) => Some(Started(snap))
    case Reapply(_, snap) => Some(Started(snap))
    case Update(_, snap) => if local.None? then None else Some(local.value.(version := snap.configVersion))
    case Pause(_) => if local.None? then None else Some(local.value.(isPaused := true))
    case Resume(_) => if local.None? then None else Some(local.value.(isPaused := false))
  }

  function Put(local: Runtime, id: int, s: Option<Stream>): Runtime {
    if s.None? then local - {id} else local[id := s.value]
  }

  function Apply(local: Runtime, a: Action): Runtime {
    Put(local, a.id, Change(Get(local, a.id), a))
  }

  function ApplyAll(local: Runtime, actions: seq<Action>): Runtime {
    if actions == [] then local
    else Apply(ApplyAll(local, actions[..|actions| - 1]), actions[|actions| - 1])
  }

  // -- one camera at a time ----------------------------------------------------

  function About(actions: seq<Action>, id: int): seq<Action> {
    if actions == [] then []
    else
      var last := actions[|actions| - 1];
      About(actions[..|actions| - 1], id) + (if last.id == id then [last] else [])
  }

  function ChangeAll(local: Option<Stream>, actions: seq<Action>): Option<Stream> {
    if actions == [] then local
    else Change(ChangeAll(local, actions[..|actions| - 1]), actions[|actions| - 1])
  }

  lemma AboutLast(front: seq<Action>, last: Action, id: int)
    ensures About(front + [last], id) == if last.id == id then About(front, id) + [last] else About(front, id)
  {
    assert (front + [last])[..|front|] == front;
  }

  lemma ChangeAllLast(local: Option<Stream>, front: seq<Action>, last: Action)
    ensures ChangeAll(local, front + [last]) == Change(ChangeAll(local, front), last)
  {
    assert (front + [last])[..|front|] == front;
  }

  lemma NoChange(local: Option<Stream>, id: int)
    ensures ChangeAll(local, About([], id)) == local
  {
  }

  /** Cameras do not affect each other. */
  lemma {:induction false} ApplyIsPerCamera(local: Runtime, actions: seq<Action>, id: int)
    ensures Get(ApplyAll(local, actions), id) == ChangeAll(Get(local, id), About(actions, id))
  {
    hide Change, About, ChangeAll;
    if actions != [] {
      var front, last := actions[..|actions| - 1], actions[|actions| - 1];
      ApplyIsPerCamera(local, front, id);
      assert actions == front + [last];
      AboutLast(front, last, id);
      ChangeAllLast(Get(local, id), About(front, id), last);
    } else {
      NoChange(Get(local, id), id);
    }
  }

  lemma {:induction false} AboutConcat(a: seq<Action>, b: seq<Action>, id: int)
    ensures About(a + b, id) == About(a, id) + About(b, id)
  {
    if b == [] {
      assert a + b == a;
    } else {
      var front := b[..|b| - 1];
      AboutConcat(a, front, id);
      assert (a + b)[..|a + b| - 1] == a + front;
    }
  }

  lemma {:induction false} AboutOwn(actions: seq<Action>, id: int)
    requires forall i :: 0 <= i < |actions| ==> actions[i].id == id
    ensures About(actions, id) == actions
  {
    if actions != [] {
      AboutOwn(actions[..|actions| - 1], id);
    }
  }

  lemma {:induction false} AboutOthers(actions: seq<Action>, id: int)
    requires forall i :: 0 <= i < |actions| ==> actions[i].id != id
    ensures About(actions, id) == []
  {
    if actions != [] {
      AboutOthers(actions[..|actions| - 1], id);
    }
  }

  lemma {:induction false} StopsAbout(index: map<int, Snapshot>, order: seq<int>, id: int)
    requires forall i, j :: 0 <= i < j < |order| ==> order[i] != order[j]
    ensures About(Stops(index, order), id) == if id in order && Unwanted(index, id) then [Stop(id)] else []
  {
    if order != [] {
      hide About, Unwanted;
      var front, last := order[..|order| - 1], order[|order| - 1];
      StopsAbout(index, front, id);
      assert id in order <==> id in front || id == last;
      assert last !in front;
      if Unwanted(index, last) {
        AboutLast(Stops(index, front), Stop(last), id);
      } else {
        assert Stops(index, order) == Stops(index, front);
      }
    }
  }

  lemma PlanIsOwn(snap: Snapshot, local: Option<Stream>, pending: bool)
    ensures forall i :: 0 <= i < |Plan(snap, local, pending)| ==> Plan(snap, local, pending)[i].id == snap.cameraId
  {
  }

  lemma {:induction false} PlansAbout(index: map<int, Snapshot>, order: seq<int>, local: Runtime,
                                      pending: set<int>, id: int)
    requires forall k :: k in order ==> k in index && index[k].cameraId == k
    requires forall i, j :: 0 <= i < j < |order| ==> order[i] != order[j]
    ensures About(Plans(index, order, local, pending), id)
         == if id in order then Plan(index[id], Get(local, id), id in pending) else []
  {
    if order != [] {
      hide Plan;
      var front, last := order[..|order| - 1], order[|order| - 1];
      PlansAbout(index, front, local, pending, id);
      assert id in order <==> id in front || id == last;
      assert last !in front;
      var plan := Plan(index[last], Get(local, last), last in pending);
      PlanIsOwn(index[last], Get(local, last), last in pending);
      AboutConcat(Plans(index, front, local, pending), plan, id);
      if id == last {
        AboutOwn(plan, id);
      } else {
        AboutOthers(plan, id);
      }
    }
  }

  /** What the plan holds for one camera: at most a stop, or the camera's own
      part. */
  function Share(index: map<int, Snapshot>, local: Option<Stream>, pending: bool, id: int): seq<Action> {
    if Unwanted(index, id) then (if local.Some? then [Stop(id)] else [])
    else Plan(index[id], local, pending)
  }

  lemma UnwantedPlan(index: map<int, Snapshot>, local: Runtime, pending: set<int>, id: int)
    ensures id in index && !WantsRuntime(index[id]) ==> Plan(index[id], Get(local, id), id in pending) == []
  {
  }

  lemma ActionsAbout(snaps: seq<Snapshot>, localOrder: seq<int>, local: Runtime,
                     pending: set<int>, id: int)
    requires Lists(localOrder, local.Keys)
    ensures About(Actions(snaps, localOrder, local, pending), id)
         == Share(Index(snaps), Get(local, id), id in pending, id)
  {
    hide Index, Order, Plan;
    OrderListsIndex(snaps);
    StopsAbout(Index(snaps), localOrder, id);
    PlansAbout(Index(snaps), Order(snaps), local, pending, id);
    AboutConcat(Stops(Index(snaps), localOrder), Plans(Index(snaps), Order(snaps), local, pending), id);
    UnwantedPlan(Index(snaps), local, pending, id);
  }

  // -- the results -----------------------------------------------------------

  /** What one pass leaves running for a camera. */
  function Settled(index: map<int, Snapshot>, local: Option<Stream>, pending: bool, id: int): Option<Stream> {
    if Unwanted(index, id) then None
    else
      var snap := index[id];
      var paused :=
        if local.None? then snap.desired.Paused?
        else if NeedsRestart(local.value, snap) then snap.desired.Paused? || pending
        else snap.desired.Paused? || (local.value.isPaused && !(snap.desired.Active? && !pending));
      Some(Stream(paused, snap.configVersion, snap.rtspUrl, snap.channelId))
  }

  lemma UpToTwoChanges(local: Option<Stream>, actions: seq<Action>)
    requires |actions| <= 2
    ensures ChangeAll(local, actions)
         == if actions == [] then local
            else if |actions| == 1 then Change(local, actions[0])
            else Change(Change(local, actions[0]), actions[1])
  {
    if |actions| == 1 {
      assert actions[..0] == [];
    } else if |actions| == 2 {
      var front := actions[..1];
      assert front[..0] == [] && front[0] == actions[0];
      assert ChangeAll(local, front) == Change(ChangeAll(local, []), front[0]);
    }
  }

  lemma ShareSettles(index: map<int, Snapshot>, local: Option<Stream>, pending: bool, id: int)
    requires id in index ==> index[id].cameraId == id
    ensures ChangeAll(local, Share(index, local, pending, id)) == Settled(index, local, pending, id)
    ensures Share(index, Settled(index, local, pending, id), pending, id) == []
  {
    var share := Share(index, local, pending, id);
    assert |share| <= 2;
    UpToTwoChanges(local, share);
  }

  lemma NothingAbout(actions: seq<Action>)
    requires forall id :: About(actions, id) == []
    ensures actions == []
  {
    var last := if actions == [] then 0 else actions[|actions| - 1].id;
    assert actions != [] ==> |About(actions, last)| > 0;
  }

  lemma SettledIff(index: map<int, Snapshot>, local: Option<Stream>, pending: bool, id: int)
    ensures Settled(index, local, pending, id).Some? <==> !Unwanted(index, id)
  {
  }

  /** One pass converges: for every snapshot, running set and pending set,
      applying the plan leaves exactly the wanted cameras running, each with
      the snapshot's address, channel and version and with its pause state
      settled; planning again on the result gives nothing to do. */
  lemma OnePassConverges(snaps: seq<Snapshot>, localOrder: seq<int>, local: Runtime,
                         pending: set<int>,
                         nextOrder: seq<int>)
    requires Lists(localOrder, local.Keys)
    requires Lists(nextOrder, ApplyAll(local, Actions(snaps, localOrder, local, pending)).Keys)
    ensures var next := ApplyAll(local, Actions(snaps, localOrder, local, pending));
            && (forall id :: id in next <==> !Unwanted(Index(snaps), id))
            && (forall id :: Get(next, id) == Settled(Index(snaps), Get(local, id), id in pending, id))
            && Actions(snaps, nextOrder, next, pending) == []
  {
    hide Actions, Settled, Share, Index, Unwanted;
    var actions := Actions(snaps, localOrder, local, pending);
    var next := ApplyAll(local, actions);
    OrderListsIndex(snaps);
    forall id
      ensures Get(next, id) == Settled(Index(snaps), Get(local, id), id in pending, id)
      ensures id in next <==> !Unwanted(Index(snaps), id)
      ensures About(Actions(snaps, nextOrder, next, pending), id) == []
    {
      ApplyIsPerCamera(local, actions, id);
      ActionsAbout(snaps, localOrder, local, pending, id);
      ShareSettles(Index(snaps), Get(local, id), id in pending, id);
      ActionsAbout(snaps, nextOrder, next, pending, id);
      SettledIff(Index(snaps), Get(local, id), id in pending, id);
    }
    NothingAbout(Actions(snaps, nextOrder, next, pending));
  }

  /** Entry `k` is the last one of this camera. */
  predicate IsLatest(snaps: seq<Snapshot>, k: int, id: int) {
    0 <= k < |snaps| && snaps[k].cameraId == id && forall j :: k < j < |snaps| ==> snaps[j].cameraId != id
  }

  lemma {:induction false} IndexIsLatest(snaps: seq<Snapshot>, id: int)
    ensures id in Index(snaps) <==> exists k :: IsLatest(snaps, k, id)
    ensures forall k :: IsLatest(snaps, k, id) ==> id in Index(snaps) && Index(snaps)[id] == snaps[k]
  {
    if snaps != [] {
      var n := |snaps| - 1;
      var front := snaps[..n];
      IndexIsLatest(front, id);
      if snaps[n].cameraId == id {
        assert IsLatest(snaps, n, id);
      } else {
        forall k
          ensures IsLatest(snaps, k, id) <==> IsLatest(front, k, id)
        {
          assert forall j :: 0 <= j < n ==> front[j] == snaps[j];
        }
      }
    }
  }

  /** The stream has the snapshot's address, channel and version, and is paused as it
      should be: where the snapshot says so; not where it says active and no event is
      pending; and with an event pending a running camera is never unpaused. */
  predicate RunsAs(snap: Snapshot, local: Option<Stream>, pending: bool, s: Stream) {
    && s.url == snap.rtspUrl && s.channelId == snap.channelId && s.version == snap.configVersion
    && (snap.desired == Paused ==> s.isPaused)
    && (snap.desired == Active && !pending ==> !s.isPaused)
    && (local.None? && snap.desired != Paused ==> !s.isPaused)
    && (pending && local.Some? && local.value.isPaused ==> s.isPaused)
    && (pending && local.Some? && (local.value.url != snap.rtspUrl || local.value.channelId != snap.channelId) ==>
          s.isPaused)
    && (local.Some? && local.value.url == snap.rtspUrl && local.value.channelId == snap.channelId && s.isPaused ==>
          snap.desired == Paused || local.value.isPaused)
  }

  lemma PassSettles(snaps: seq<Snapshot>, localOrder: seq<int>, local: Runtime, pending: set<int>, id: int)
    requires Lists(localOrder, local.Keys)
    ensures var next := ApplyAll(local, Actions(snaps, localOrder, local, pending));
            Get(next, id) == Settled(Index(snaps), Get(local, id), id in pending, id)
  {
    hide Actions, Settled, Share, Index;
    OrderListsIndex(snaps);
    ApplyIsPerCamera(local, Actions(snaps, localOrder, local, pending), id);
    ActionsAbout(snaps, localOrder, local, pending, id);
    ShareSettles(Index(snaps), Get(local, id), id in pending, id);
  }

  /** After one pass a camera runs if and only if its last entry in the snapshot is
      enabled and not inactive, and then it runs as that entry says. */
  lemma PassRunsWanted(snaps: seq<Snapshot>, localOrder: seq<int>, local: Runtime, pending: set<int>, id: int)
    requires Lists(localOrder, local.Keys)
    ensures var next := ApplyAll(local, Actions(snaps, localOrder, local, pending));
            && ((forall k :: !IsLatest(snaps, k, id)) ==> id !in next)
            && (forall k :: IsLatest(snaps, k, id) ==>
                  && (id in next <==> snaps[k].isEnabled && snaps[k].desired != Inactive)
                  && (id in next ==> RunsAs(snaps[k], Get(local, id), id in pending, next[id])))
  {
    hide Actions, Index, ApplyAll;
    IndexIsLatest(snaps, id);
    PassSettles(snaps, localOrder, local, pending, id);
  }

  /** Does the action replace or remove the stream object? */
  predicate Replaces(a: Action) {
    a.Start? || a.Stop? || a.Reapply?
  }

  lemma {:induction false} AboutHas(actions: seq<Action>, a: Action)
    requires a in actions
    ensures a in About(actions, a.id)
  {
    var front, last := actions[..|actions| - 1], actions[|actions| - 1];
    assert actions == front + [last];
    if a in front {
      AboutHas(front, a);
    }
  }

  /** A running camera whose address and channel still match keeps its stream:
      no action of the plan replaces it. */
  lemma NoNeedlessRestart(snaps: seq<Snapshot>, localOrder: seq<int>, local: Runtime,
                          pending: set<int>, id: int)
    requires Lists(localOrder, local.Keys) && id in local
    requires !Unwanted(Index(snaps), id) && !NeedsRestart(local[id], Index(snaps)[id])
    ensures forall a :: a in Actions(snaps, localOrder, local, pending) && a.id == id ==> !Replaces(a)
  {
    hide Index, Actions;
    var actions := Actions(snaps, localOrder, local, pending);
    ActionsAbout(snaps, localOrder, local, pending, id);
    forall a | a in actions && a.id == id
      ensures !Replaces(a)
    {
      AboutHas(actions, a);
    }
  }
}
