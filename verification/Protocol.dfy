/** The blindfold protocol over whole runs: a detection pauses its camera and
    queues an event, the supervisor reconciles against a possibly stale
    snapshot, a worker delivers (ai_engine/pipeline.py, ai_engine/accident.py,
    ai_engine/supervisor.py, ai_engine/outbox.py, ai_engine/main.py).

    The three threads interleave between these steps; the process may stop
    inside any outbox call. */
module Protocol {
  import opened Common
  import opened Outbox
  import opened OutboxModel
  import opened Reconcile

  /** `flight` is the camera paused by a detection whose event is not queued yet;
      `plan` is what the supervisor decided but has not applied yet. `collected`
      are the cameras of the tick under way, by the stream objects it holds, and
      `replaced` those whose object has left the dictionary since. */
  datatype State = State(cams: Runtime, disk: World, flight: Option<int>, plan: Option<seq<Action>>,
                         collected: set<int>, replaced: set<int>)

  datatype Step =
    | Collect(ids: set<int>)
    | PauseFor(id: int)
    | QueueEvent(name: Name, payload: Payload, now: real)
    | DropEvent
    | Observe(snaps: seq<Snapshot>, order: seq<int>, names: seq<Name>, read: Name -> Reading,
              quarantineRead: Name -> Reading)
    | FailScan(names: seq<Name>, read: Name -> Reading, quarantineRead: Name -> Reading)
    | ApplyPlan
    | DeliverEvent(name: Name, reply: Reply)
    | Crash(call: Call, ops: nat)

  /** A tick collects running cameras that are not paused, and may report each of
      them once. A heartbeat decides only if its scan of the outbox does not raise. */
  ghost predicate Enabled(s: State, step: Step) {
    match step
    case Collect(ids) => s.flight.None? && forall id :: id in ids ==> id in s.cams && !s.cams[id].isPaused
    case PauseFor(id) => s.flight.None? && id in s.collected
    case QueueEvent(n, payload, _) => s.flight == Some(payload.cameraId) && n !in s.disk.json
    case DropEvent => s.flight.Some?
    case Observe(_, order, names, read, quarantineRead) =>
      && s.plan.None? && Lists(order, s.cams.Keys) && Listing(names, s.disk)
      && !ScanRaises(s.disk, read, quarantineRead)
    case FailScan(names, read, quarantineRead) =>
      s.plan.None? && Listing(names, s.disk) && ScanRaises(s.disk, read, quarantineRead)
    case ApplyPlan => s.plan.Some?
    case DeliverEvent(_, _) => true
    case Crash(call, _) =>
      call.Enqueue? ==> s.flight == Some(call.payload.cameraId) && call.name !in s.disk.json
  }

  /** The outbox after the supervisor has read it, up to the first file that
      raises. */
  function Scanned(w: World, names: seq<Name>, read: Name -> Reading, quarantineRead: Name -> Reading): World {
    WorldAfter(w, ScansDone(w, names, read, quarantineRead), 3 * |names|)
  }

  /** The cameras whose stream object a plan replaces or removes. */
  function ReplacedBy(actions: seq<Action>): set<int> {
    set a | a in actions && Replaces(a) :: a.id
  }

  /** Pausing acts on the stream object the tick holds, which is the running one
      unless it was replaced. */
  function Next(s: State, step: Step): State {
    match step
    case Collect(ids) => s.(collected := ids, replaced := {})
    case PauseFor(id) =>
      s.(cams := if id in s.cams && id !in s.replaced then s.cams[id := s.cams[id].(isPaused := true)] else s.cams,
         flight := Some(id), collected := s.collected - {id})
    case QueueEvent(n, payload, now) =>
      s.(disk := Execute(s.disk, EnqueuePlan(n, payload, now), 3), flight := None)
    case DropEvent => s.(flight := None)
    case Observe(snaps, order, names, read, quarantineRead) =>
      s.(disk := Scanned(s.disk, names, read, quarantineRead),
         plan := Some(Actions(snaps, order, s.cams, ReadableCameras(s.disk, read))))
    case FailScan(names, read, quarantineRead) => s.(disk := Scanned(s.disk, names, read, quarantineRead))
    case ApplyPlan =>
      if s.plan.None? then s
      else s.(cams := ApplyAll(s.cams, s.plan.value), plan := None, replaced := s.replaced + ReplacedBy(s.plan.value))
    case DeliverEvent(n, r) =>
      var gone := GoneOf(s.disk, n, r);
      var plan := DeliverPlan(s.disk, n, r);
      var s1 := s.(disk := Execute(s.disk, plan, |plan|));
      if gone.None? then s1 else s1.(cams := s.cams - {gone.value}, replaced := s.replaced + {gone.value})
    case Crash(call, ops) =>
      State(map[], Execute(s.disk, PlanOf(s.disk, call), ops), None, None, {}, {})
  }

  function After(steps: seq<Step>): State {
    if steps == [] then State(map[], World(map[], map[], map[], [], map[]), None, None, {}, {})
    else Next(After(steps[..|steps| - 1]), steps[|steps| - 1])
  }

  // -- what must hold --------------------------------------------------------

  predicate PendingFor(w: World, n: Name, id: int) {
    n in w.json && w.json[n].Whole? && w.json[n].record.payload.cameraId == id
  }

  ghost predicate Pending(w: World, id: int) {
    exists n :: PendingFor(w, n, id)
  }

  /** An event of this camera is on its way to the backend. */
  ghost predicate Claimed(s: State, id: int) {
    s.flight == Some(id) || Pending(s.disk, id)
  }

  /** If the camera runs with an event under way it is paused, and it has just the
      one event. */
  ghost predicate SafeFor(s: State, id: int) {
    && (id in s.cams && Claimed(s, id) ==> s.cams[id].isPaused)
    && (forall m, n :: PendingFor(s.disk, m, id) && PendingFor(s.disk, n, id) ==> m == n)
    && (s.flight == Some(id) ==> !Pending(s.disk, id))
  }

  /** One camera's share of a plan. */
  predicate Shape(share: seq<Action>) {
    || share == []
    || |share| == 1
    || (|share| == 2 && share[0].Update? && (share[1].Pause? || share[1].Resume?))
  }

  predicate PlansResume(s: State, id: int) {
    s.plan.Some? && Resume(id) in About(s.plan.value, id)
  }

  /** A plan waiting to be applied resumes the camera only if it is paused with no
      event under way. */
  ghost predicate PlanOkFor(s: State, id: int) {
    && (s.plan.Some? ==> Shape(About(s.plan.value, id)))
    && (PlansResume(s, id) ==> !Claimed(s, id) && (id in s.cams ==> s.cams[id].isPaused))
  }

  /** A collected camera has no event under way yet. */
  ghost predicate TickOkFor(s: State, id: int) {
    id in s.collected ==> !Claimed(s, id) && (id !in s.replaced ==> id in s.cams)
  }

  ghost predicate SoundFor(s: State, id: int) {
    SafeFor(s, id) && PlanOkFor(s, id) && TickOkFor(s, id)
  }

  /** Puts an unpaused stream in place, whatever was there. */
  predicate Unpaused(a: Action) {
    (a.Start? || a.Reapply?) && !a.snap.desired.Paused?
  }

  ghost predicate StartsClaimed(s: State, id: int)
    requires s.plan.Some?
  {
    Claimed(s, id) && exists a :: a in About(s.plan.value, id) && Unpaused(a)
  }

  /** The ways a step can undo the blindfold of one camera: applying a decision to
      start or restart it unpaused while its event is under way; deciding to
      resume it between its pause and the queueing; and pausing it on a detection
      when its stream object was replaced by an unpaused one, or when a resume is
      already planned. */
  ghost predicate OffendsFor(s: State, step: Step, id: int) {
    match step
    case PauseFor(c) =>
      c == id && ((id in s.replaced && id in s.cams && !s.cams[id].isPaused) || PlansResume(s, id))
    case ApplyPlan => s.plan.Some? && StartsClaimed(s, id)
    case Observe(snaps, order, _, read, _) =>
      s.flight == Some(id) && Resume(id) in About(Actions(snaps, order, s.cams, ReadableCameras(s.disk, read)), id)
    case _ => false
  }

  // -- what each outbox call does to the pending set -----------------------------

  ghost predicate Shrinks(w: World, w': World) {
    forall n, id :: PendingFor(w', n, id) ==> PendingFor(w, n, id)
  }

  lemma QuarantineShrinks(w: World, n: Name, reason: Reason, read: Reading, k: nat)
    ensures Shrinks(w, Execute(w, QuarantinePlan(w, n, reason, read), k))
  {
    if n in w.json && !read.Garbled? {
      ExecuteUpTo3(w, QuarantinePlan(w, n, reason, read), k);
    }
  }

  lemma LoadShrinks(w: World, n: Name, read: Reading, quarantineRead: Reading, k: nat)
    ensures Shrinks(w, Execute(w, LoadPlan(w, n, read, quarantineRead), k))
  {
    if !Loads(w, n, read) && !read.Garbled? {
      QuarantineShrinks(w, n, CorruptJson, quarantineRead, k);
    }
  }

  lemma RewriteShrinks(w: World, n: Name, record: Record, k: nat)
    requires n in w.json && w.json[n].Whole? && record.payload == w.json[n].record.payload
    ensures Shrinks(w, Execute(w, AtomicWrite(n, record), k))
  {
    ExecuteUpTo3(w, AtomicWrite(n, record), k);
  }

  lemma UnlinkShrinks(w: World, n: Name, k: nat)
    ensures Shrinks(w, Execute(w, [Unlink(n)], k))
  {
    if k > 0 {
      assert Execute(w, [Unlink(n)], k) == Execute(ApplyFs(w, Unlink(n)), [], k - 1);
    }
  }

  lemma OutcomeShrinks(w: World, n: Name, r: Reply, k: nat)
    ensures Shrinks(w, Execute(w, OutcomePlan(w, n, r), k))
  {
    hide PendingFor, QuarantinePlan, LoadPlan, AtomicWrite;
    if Terminal(r.outcome) {
      UnlinkShrinks(w, n, k);
    } else if r.outcome.QuarantineIt? {
      QuarantineShrinks(w, n, ValidationRejected, r.quarantineRead, k);
    } else if !Loads(w, n, r.markRead) {
      LoadShrinks(w, n, r.markRead, r.quarantineRead, k);
    } else if w.json[n].record.attempts + 1 <= MAX_EXPONENT {
      RewriteShrinks(w, n, Marked(w.json[n].record, r), k);
    }
  }

  lemma DeliverShrinks(w: World, n: Name, r: Reply, k: nat)
    ensures Shrinks(w, Execute(w, DeliverPlan(w, n, r), k))
  {
    hide OutcomePlan, QuarantinePlan, LoadPlan;
    if !Loads(w, n, r.loadRead) {
      LoadShrinks(w, n, r.loadRead, r.quarantineRead, k);
    } else if Due(w.json[n].record, r.now) {
      var post := Post(n, w.json[n].record.payload, r.now, r.outcome);
      ExecuteSendFirst(w, post, OutcomePlan(w, n, r), k);
      if k > 0 {
        OutcomePlanIgnoresPosts(w, post, n, r);
        OutcomeShrinks(ApplyFs(w, Send(post)), n, r, k - 1);
      }
    }
  }

  /** Queueing adds the event, or a cut one adds nothing. */
  lemma EnqueueAdds(w: World, n: Name, payload: Payload, now: real, k: nat)
    requires n !in w.json
    ensures forall m, id :: PendingFor(Execute(w, EnqueuePlan(n, payload, now), k), m, id) <==>
              PendingFor(w, m, id) || (k >= 3 && m == n && id == payload.cameraId)
  {
    ExecuteUpTo3(w, EnqueuePlan(n, payload, now), k);
  }

  lemma ShrinksTwice(a: World, b: World, c: World)
    requires Shrinks(a, b) && Shrinks(b, c)
    ensures Shrinks(a, c)
  {
  }

  lemma ScanRemoves(w: World, n: Name, read: Reading, quarantineRead: Reading, k: nat)
    requires k >= 3 && !LoadOf(w, n, read, quarantineRead).Raised?
    ensures var w' := Execute(w, PlanOf(w, Call.Scan(n, read, quarantineRead)), k);
            && w'.json.Keys == (if Loads(w, n, read) then w.json.Keys else w.json.Keys - {n})
            && |PlanOf(w, Call.Scan(n, read, quarantineRead))| <= 3
  {
    if !Loads(w, n, read) && n in w.json {
      ExecuteUpTo3(w, QuarantinePlan(w, n, CorruptJson, quarantineRead), k);
    }
  }

  /** One more file of a scan. */
  lemma ScansOneMore(w: World, w1: World, n: Name, read: Reading, quarantineRead: Reading, ops: nat)
    requires Shrinks(w, w1) && ops >= 3
    requires (n in w1.json <==> n in w.json) && (n in w.json ==> w1.json[n] == w.json[n])
    requires !LoadOf(w, n, read, quarantineRead).Raised?
    ensures var w2 := Execute(w1, PlanOf(w1, Call.Scan(n, read, quarantineRead)), ops);
            && Shrinks(w, w2) && |PlanOf(w1, Call.Scan(n, read, quarantineRead))| <= 3
            && w2.json.Keys == (if Loads(w, n, read) then w1.json.Keys else w1.json.Keys - {n})
  {
    hide Shrinks, LoadPlan, Execute;
    LoadShrinks(w1, n, read, quarantineRead, ops);
    ScanRemoves(w1, n, read, quarantineRead, ops);
    ShrinksTwice(w, w1, Execute(w1, PlanOf(w1, Call.Scan(n, read, quarantineRead)), ops));
  }

  /** Of the first `i` files only those that could be read are left. */
  predicate ReadThrough(w: World, w': World, names: seq<Name>, read: Name -> Reading, i: nat)
    requires i <= |names|
  {
    forall j :: 0 <= j < i && !Loads(w, names[j], read(names[j])) ==> names[j] !in w'.json
  }

  lemma ReadOneMore(w: World, w1: World, w2: World, names: seq<Name>, read: Name -> Reading, i: nat)
    requires i < |names| && ReadThrough(w, w1, names, read, i)
    requires w2.json.Keys == (if Loads(w, names[i], read(names[i])) then w1.json.Keys else w1.json.Keys - {names[i]})
    ensures ReadThrough(w, w2, names, read, i + 1)
  {
  }

  /** Reading the outbox leaves pending, of what was read, exactly what could be. */
  lemma {:induction false} ScannedUpTo(w: World, names: seq<Name>, read: Name -> Reading,
                                       quarantineRead: Name -> Reading, i: nat)
    requires i <= |names| && (forall a, b :: 0 <= a < b < |names| ==> names[a] != names[b])
    requires forall j :: 0 <= j < i ==> !LoadOf(w, names[j], read(names[j]), quarantineRead(names[j])).Raised?
    ensures var calls, k := Scans(names, read, quarantineRead), 3 * |names|;
            && OpsAfter(w, calls[..i], k) >= 3 * (|names| - i)
            && Shrinks(w, WorldAfter(w, calls[..i], k))
            && ReadThrough(w, WorldAfter(w, calls[..i], k), names, read, i)
  {
    var calls, k := Scans(names, read, quarantineRead), 3 * |names|;
    if i > 0 {
      hide Shrinks, LoadPlan, Execute, LoadOf, PlanOf, Loads, WorldAfter, OpsAfter, ReadThrough;
      ScannedUpTo(w, names, read, quarantineRead, i - 1);
      CallsNext(w, calls, k, i - 1);
      var n := names[i - 1];
      ScansTouchOwn(w, calls[..i - 1], k, n);
      ScansOneMore(w, WorldAfter(w, calls[..i - 1], k), n, read(n), quarantineRead(n), OpsAfter(w, calls[..i - 1], k));
      ReadOneMore(w, WorldAfter(w, calls[..i - 1], k), WorldAfter(w, calls[..i], k), names, read, i - 1);
    } else {
      assert calls[..0] == [];
    }
  }

  lemma ScannedShrinks(w: World, names: seq<Name>, read: Name -> Reading, quarantineRead: Name -> Reading)
    requires Listing(names, w)
    ensures Shrinks(w, Scanned(w, names, read, quarantineRead))
  {
    hide WorldAfter, OpsAfter, Shrinks, ScanEnd;
    ListedOnce(w, names, read);
    ScannedUpTo(w, names, read, quarantineRead, ScanEnd(w, names, read, quarantineRead));
  }

  /** After a scan that did not raise, every pending event is one the supervisor
      counted. */
  lemma ScannedPending(w: World, names: seq<Name>, read: Name -> Reading, quarantineRead: Name -> Reading, id: int)
    requires Listing(names, w) && !ScanRaises(w, read, quarantineRead)
    ensures Shrinks(w, Scanned(w, names, read, quarantineRead))
    ensures Pending(Scanned(w, names, read, quarantineRead), id) ==> id in ReadableCameras(w, read)
  {
    hide WorldAfter, OpsAfter, ScanEnd, ScanRaises;
    ListedOnce(w, names, read);
    RaisingScan(w, names, read, quarantineRead);
    ScannedUpTo(w, names, read, quarantineRead, |names|);
    var w' := Scanned(w, names, read, quarantineRead);
    if Pending(w', id) {
      var n :| PendingFor(w', n, id);
      assert PendingFor(w, n, id);
      assert n in (set m | m in names);
      assert Loads(w, n, read(n));
    }
  }

  // -- one camera, one step ------------------------------------------------------

  /** Fewer events, the camera as it was or gone: nothing to break. */
  lemma TakingAwayKeeps(s: State, s': State, id: int)
    requires SoundFor(s, id) && Shrinks(s.disk, s'.disk)
    requires s'.flight == s.flight || s'.flight.None?
    requires s'.plan == s.plan || s'.plan.None?
    requires id in s'.collected ==> id in s.collected
    requires id in s'.cams ==> id in s.cams && s'.cams[id] == s.cams[id]
    requires id in s'.collected && id !in s'.replaced ==> id !in s.replaced && (id in s.cams ==> id in s'.cams)
    ensures SoundFor(s', id)
  {
    hide PendingFor, About, Shape;
    assert Claimed(s', id) ==> Claimed(s, id);
  }

  lemma CollectKeeps(s: State, ids: set<int>, id: int)
    requires SoundFor(s, id) && Enabled(s, Collect(ids))
    ensures SoundFor(Next(s, Collect(ids)), id)
  {
    hide PendingFor, About, Shape;
    assert Claimed(Next(s, Collect(ids)), id) <==> Claimed(s, id);
  }

  lemma PauseKeepsIff(s: State, c: int, id: int)
    requires SoundFor(s, id) && Enabled(s, PauseFor(c))
    ensures SoundFor(Next(s, PauseFor(c)), id) <==> !OffendsFor(s, PauseFor(c), id)
  {
    hide PendingFor, About, Shape;
    assert Claimed(Next(s, PauseFor(c)), id) <==> Claimed(s, id) || c == id;
  }

  lemma QueueKeeps(s: State, n: Name, payload: Payload, now: real, id: int)
    requires SoundFor(s, id) && Enabled(s, QueueEvent(n, payload, now))
    ensures SoundFor(Next(s, QueueEvent(n, payload, now)), id)
  {
    hide PendingFor, Execute, EnqueuePlan, About, Shape;
    EnqueueAdds(s.disk, n, payload, now, 3);
    var s' := Next(s, QueueEvent(n, payload, now));
    assert Claimed(s', id) ==> Claimed(s, id);
  }

  lemma CrashKeeps(s: State, call: Call, ops: nat, id: int)
    requires SoundFor(s, id) && Enabled(s, Crash(call, ops))
    ensures SoundFor(Next(s, Crash(call, ops)), id)
  {
    hide PendingFor, Execute, EnqueuePlan, DeliverPlan, About, Shape;
    var s' := Next(s, Crash(call, ops));
    match call
    case Enqueue(n, payload, now) => EnqueueAdds(s.disk, n, payload, now, ops);
    case Deliver(n, r) =>
      DeliverShrinks(s.disk, n, r, ops);
      TakingAwayKeeps(s, s', id);
    case Scan(n, read, quarantineRead) =>
      LoadShrinks(s.disk, n, read, quarantineRead, ops);
      TakingAwayKeeps(s, s', id);
  }

  // -- deciding ----------------------------------------------------------------

  lemma ShareShape(index: map<int, Snapshot>, local: Option<Stream>, pending: bool, id: int)
    requires id in index ==> index[id].cameraId == id
    ensures Shape(Share(index, local, pending, id))
    ensures Resume(id) in Share(index, local, pending, id) ==> !pending && local.Some? && local.value.isPaused
  {
  }

  /** The decision starts, unpaused, a camera that is not running and has an event
      pending. */
  ghost predicate StartsPending(s: State, step: Step, id: int)
    requires step.Observe?
  {
    && Pending(Next(s, step).disk, id) && id !in s.cams
    && !Unwanted(Index(step.snaps), id) && !Index(step.snaps)[id].desired.Paused?
  }

  lemma ShareUnpauses(index: map<int, Snapshot>, local: Option<Stream>, pending: bool, id: int)
    requires id in index ==> index[id].cameraId == id
    ensures pending ==>
              ((exists a :: a in Share(index, local, pending, id) && Unpaused(a))
               <==> local.None? && !Unwanted(index, id) && !index[id].desired.Paused?)
  {
    var share := Share(index, local, pending, id);
    if pending && local.None? && !Unwanted(index, id) {
      assert share[0] == Start(id, index[id]) && share[0] in share;
    }
  }

  /** What a plan decided here holds for the camera. */
  lemma Decided(s: State, step: Step, id: int)
    requires step.Observe? && Enabled(s, step)
    ensures var s' := Next(s, step);
            && Shape(About(s'.plan.value, id))
            && (PlansResume(s', id) ==> id in s.cams && s.cams[id].isPaused && !Pending(s'.disk, id))
            && (Pending(s'.disk, id) ==>
                  ((exists a :: a in About(s'.plan.value, id) && Unpaused(a)) <==> StartsPending(s, step, id)))
  {
    hide Scanned, Actions, About, Share, Shape, Index, ReadableCameras, Listing, PendingFor;
    OrderListsIndex(step.snaps);
    var seen := ReadableCameras(s.disk, step.read);
    ActionsAbout(step.snaps, step.order, s.cams, seen, id);
    ShareShape(Index(step.snaps), Get(s.cams, id), id in seen, id);
    ScannedPending(s.disk, step.names, step.read, step.quarantineRead, id);
    ShareUnpauses(Index(step.snaps), Get(s.cams, id), id in seen, id);
  }

  lemma ObserveKeepsIff(s: State, step: Step, id: int)
    requires SoundFor(s, id) && step.Observe? && Enabled(s, step)
    ensures SafeFor(Next(s, step), id)
    ensures SoundFor(Next(s, step), id) <==> !OffendsFor(s, step, id)
  {
    hide Scanned, Actions, About, Shape, ReadableCameras, Listing, PendingFor;
    var s' := Next(s, step);
    Decided(s, step, id);
    ScannedPending(s.disk, step.names, step.read, step.quarantineRead, id);
    TakingAwayKeeps(s, s'.(plan := None), id);
    assert Claimed(s', id) <==> s.flight == Some(id) || Pending(s'.disk, id);
  }

  // -- applying the decision -----------------------------------------------------

  /** What applying one camera's share does to the pause flag. */
  lemma ShareEffect(local: Option<Stream>, share: seq<Action>)
    requires Shape(share)
    ensures (exists a :: a in share && Unpaused(a)) ==>
              ChangeAll(local, share).Some? && !ChangeAll(local, share).value.isPaused
    ensures ChangeAll(local, share).Some? && (forall a :: a in share ==> !Unpaused(a))
            && (local.Some? ==> local.value.isPaused && forall a :: a in share ==> !a.Resume?) ==>
              ChangeAll(local, share).value.isPaused
  {
    UpToTwoChanges(local, share);
    if |share| == 1 {
      assert share[0] in share;
    } else if |share| == 2 {
      assert share[0] in share && share[1] in share;
    }
  }

  lemma {:induction false} AboutOnly(actions: seq<Action>, id: int)
    ensures forall a :: a in About(actions, id) ==> a.id == id
  {
    if actions != [] {
      AboutOnly(actions[..|actions| - 1], id);
    }
  }

  lemma {:induction false} AboutFrom(actions: seq<Action>, id: int)
    ensures forall a :: a in About(actions, id) ==> a in actions
  {
    if actions != [] {
      AboutFrom(actions[..|actions| - 1], id);
    }
  }

  /** Which objects a plan replaces, said of one camera's share. */
  lemma ReplacedIsAbout(actions: seq<Action>, id: int)
    ensures id in ReplacedBy(actions) <==> exists a :: a in About(actions, id) && Replaces(a)
  {
    AboutOnly(actions, id);
    AboutFrom(actions, id);
    forall a | a in actions && Replaces(a) && a.id == id
      ensures a in About(actions, id)
    {
      AboutHas(actions, a);
    }
  }

  lemma ShareKeepsObject(local: Option<Stream>, share: seq<Action>)
    requires Shape(share) && local.Some? && forall a :: a in share ==> !Replaces(a)
    ensures ChangeAll(local, share).Some?
  {
    UpToTwoChanges(local, share);
    if share != [] {
      assert share[0] in share && share[|share| - 1] in share;
    }
  }

  lemma ApplyKeepsIff(s: State, id: int)
    requires SoundFor(s, id) && s.plan.Some?
    ensures SoundFor(Next(s, ApplyPlan), id) <==> !OffendsFor(s, ApplyPlan, id)
  {
    hide About, ChangeAll, ApplyAll, Shape, PendingFor, Replaces, ReplacedBy, Unpaused;
    var s', share := Next(s, ApplyPlan), About(s.plan.value, id);
    ApplyIsPerCamera(s.cams, s.plan.value, id);
    ShareEffect(Get(s.cams, id), share);
    ReplacedIsAbout(s.plan.value, id);
    AboutOnly(s.plan.value, id);
    assert forall a :: a in share && a.Resume? ==> a == Resume(id);
    if id in s.cams && id !in s'.replaced {
      ShareKeepsObject(Get(s.cams, id), share);
    }
    assert Claimed(s', id) <==> Claimed(s, id);
  }

  // -- runs ----------------------------------------------------------------------

  /** Every step keeps the blindfold of a camera, if and only if it does not offend
      against that camera. */
  lemma StepKeepsIff(s: State, step: Step, id: int)
    requires SoundFor(s, id) && Enabled(s, step)
    ensures SoundFor(Next(s, step), id) <==> !OffendsFor(s, step, id)
  {
    hide SoundFor, Execute, DeliverPlan;
    match step
    case Collect(ids) => CollectKeeps(s, ids, id);
    case PauseFor(c) => PauseKeepsIff(s, c, id);
    case QueueEvent(n, payload, now) => QueueKeeps(s, n, payload, now, id);
    case DropEvent => TakingAwayKeeps(s, Next(s, step), id);
    case Observe(_, _, _, _, _) => ObserveKeepsIff(s, step, id);
    case FailScan(names, read, quarantineRead) =>
      ScannedShrinks(s.disk, names, read, quarantineRead);
      TakingAwayKeeps(s, Next(s, step), id);
    case ApplyPlan => ApplyKeepsIff(s, id);
    case DeliverEvent(n, r) =>
      DeliverShrinks(s.disk, n, r, |DeliverPlan(s.disk, n, r)|);
      TakingAwayKeeps(s, Next(s, step), id);
    case Crash(call, ops) => CrashKeeps(s, call, ops, id);
  }

  ghost predicate Run(steps: seq<Step>) {
    forall i :: 0 <= i < |steps| ==> Enabled(After(steps[..i]), steps[i])
  }

  ghost predicate Inoffensive(steps: seq<Step>, id: int) {
    forall i :: 0 <= i < |steps| ==> !OffendsFor(After(steps[..i]), steps[i], id)
  }

  lemma StartIsSound(id: int)
    ensures SoundFor(After([]), id)
  {
  }

  /** In every run without a step that offends against the camera, whatever
      happens to the others, whatever the snapshots say and wherever the process
      stops: while it runs with an event under way it is paused, and it has no
      second one. */
  lemma {:induction false} RunsAreSafe(steps: seq<Step>, id: int)
    requires Run(steps) && Inoffensive(steps, id)
    ensures SoundFor(After(steps), id)
  {
    hide SoundFor, Enabled, OffendsFor, Next;
    if steps == [] {
      StartIsSound(id);
    } else {
      var front := steps[..|steps| - 1];
      forall i | 0 <= i < |front|
        ensures front[..i] == steps[..i]
      {
      }
      RunsAreSafe(front, id);
      StepKeepsIff(After(front), steps[|steps| - 1], id);
    }
  }

  // -- atomic detections and heartbeats --------------------------------------------

  predicate Follows(step: Step, next: Step) {
    && (step.PauseFor? ==> next.QueueEvent? || next.DropEvent? || next.Crash?)
    && (step.Observe? ==> next.ApplyPlan? || next.Crash?)
  }

  /** A step of a tick after which the tick may report its next camera. */
  predicate Reports(step: Step) {
    step.Collect? || step.QueueEvent? || step.DropEvent?
  }

  /** Nothing comes between the steps of a tick, which collects and then pauses and
      queues for one camera after the other, nor between deciding and applying,
      unless the process stops. */
  predicate Atomic(steps: seq<Step>) {
    && (forall i :: 0 <= i < |steps| && steps[i].PauseFor? ==> i > 0 && Reports(steps[i - 1]))
    && (forall i, j :: 0 <= i < |steps| && j == i + 1 < |steps| ==> Follows(steps[i], steps[j]))
  }

  /** No heartbeat starts the camera unpaused while its event is pending. */
  ghost predicate NoStart(steps: seq<Step>, id: int) {
    forall i :: 0 <= i < |steps| && steps[i].Observe? ==> !StartsPending(After(steps[..i]), steps[i], id)
  }

  lemma AtomicFront(steps: seq<Step>, n: nat)
    requires Run(steps) && Atomic(steps) && n <= |steps|
    ensures Run(steps[..n]) && Atomic(steps[..n])
    ensures n < |steps| ==> Enabled(After(steps[..n]), steps[n])
    ensures 0 < n < |steps| ==> Follows(steps[n - 1], steps[n])
    ensures n < |steps| && steps[n].PauseFor? ==> n > 0 && Reports(steps[n - 1])
  {
    hide Enabled, Follows, Reports;
    var front := steps[..n];
    forall i | 0 <= i < |front|
      ensures Enabled(After(front[..i]), front[i])
    {
      assert front[..i] == steps[..i];
    }
  }

  lemma EndsFlight(s: State, step: Step)
    requires Enabled(s, step) && (step.QueueEvent? || step.DropEvent?)
    ensures s.flight.Some?
  {
  }

  /** With atomic steps an event is half-way only right after a pause, a plan is
      open only right after its decision, and a tick under way holds the stream
      objects that run. */
  lemma {:induction false} AtomicPhases(steps: seq<Step>)
    requires Run(steps) && Atomic(steps)
    ensures var s, n := After(steps), |steps|;
            && (s.flight.Some? ==> n > 0 && steps[n - 1].PauseFor?)
            && (s.plan.Some? ==> n > 0 && steps[n - 1].Observe?)
            && (n > 0 && (Reports(steps[n - 1]) || steps[n - 1].PauseFor?) ==> s.replaced == {})
  {
    hide Enabled, Run, Atomic, Actions, ApplyAll, Scanned, Execute, DeliverPlan, GoneOf, PlanOf;
    if steps != [] {
      var n := |steps|;
      var front := steps[..n - 1];
      AtomicFront(steps, n - 1);
      AtomicPhases(front);
      if steps[n - 1].QueueEvent? || steps[n - 1].DropEvent? {
        EndsFlight(After(front), steps[n - 1]);
      }
      if n > 1 {
        assert front[n - 2] == steps[n - 2];
      }
    }
  }

  lemma AtomicStepsAreInoffensive(steps: seq<Step>, id: int, i: nat)
    requires Run(steps) && Atomic(steps) && NoStart(steps, id) && i < |steps|
    ensures !OffendsFor(After(steps[..i]), steps[i], id)
  {
    hide Enabled, Actions, About, Scanned, Listing, ReadableCameras, Unpaused, Index, PendingFor;
    var s := After(steps[..i]);
    AtomicFront(steps, i);
    AtomicPhases(steps[..i]);
    if steps[i].PauseFor? {
      assert Reports(steps[i - 1]);
    } else if steps[i].Observe? && i > 0 {
      assert Follows(steps[i - 1], steps[i]);
    } else if steps[i].ApplyPlan? && s.plan.Some? {
      assert steps[..i][..i - 1] == steps[..i - 1];
      AtomicFront(steps, i - 1);
      AtomicPhases(steps[..i - 1]);
      assert i > 1 ==> Follows(steps[i - 2], steps[i - 1]);
      Decided(After(steps[..i - 1]), steps[i - 1], id);
    }
  }

  /** In its own terms: when a tick, with its reports on however many cameras, is one
      step and a heartbeat's deciding and applying are one step, a camera that is
      never started unpaused with its event pending is safe in every run,
      whatever stale state the snapshots carry and across restarts of its
      stream. */
  lemma AtomicRunsAreSafe(steps: seq<Step>, id: int)
    requires Run(steps) && Atomic(steps) && NoStart(steps, id)
    ensures SafeFor(After(steps), id)
  {
    hide Atomic, NoStart, Run, OffendsFor, After;
    forall i | 0 <= i < |steps|
      ensures !OffendsFor(After(steps[..i]), steps[i], id)
    {
      AtomicStepsAreInoffensive(steps, id, i);
    }
    RunsAreSafe(steps, id);
  }

  /** A heartbeat with nothing in between and no event of the camera still to be
      queued breaks its blindfold if and only if it starts it, unpaused, while it
      is not running and has an event pending: a restart never does, and no
      resume. */
  lemma AtomicHeartbeatIff(s: State, step: Step, id: int)
    requires SoundFor(s, id) && s.flight != Some(id) && step.Observe? && Enabled(s, step)
    ensures SoundFor(Next(Next(s, step), ApplyPlan), id) <==> !StartsPending(s, step, id)
  {
    hide Scanned, Actions, About, Index, ReadableCameras, Listing, PendingFor, SoundFor, Unpaused;
    ObserveKeepsIff(s, step, id);
    ApplyKeepsIff(Next(s, step), id);
    Decided(s, step, id);
  }

  lemma ShareResumes(local: Option<Stream>, share: seq<Action>, id: int)
    requires Shape(share) && Resume(id) in share && local.Some?
    ensures ChangeAll(local, share).Some? && !ChangeAll(local, share).value.isPaused
  {
    UpToTwoChanges(local, share);
  }

  /** Applying a resume of a running camera with an event under way does undo the
      blindfold. */
  lemma ResumeOfClaimedBreaks(s: State, id: int)
    requires PlansResume(s, id) && Shape(About(s.plan.value, id)) && Claimed(s, id) && id in s.cams
    ensures !SafeFor(Next(s, ApplyPlan), id)
  {
    hide ApplyAll, PendingFor;
    ApplyIsPerCamera(s.cams, s.plan.value, id);
    ShareResumes(Get(s.cams, id), About(s.plan.value, id), id);
    assert Claimed(Next(s, ApplyPlan), id);
  }

  /** So every heartbeat that decides to resume between pause and queueing breaks
      it once applied. */
  lemma ResumeInFlightBreaks(s: State, step: Step, id: int)
    requires step.Observe? && Enabled(s, step) && OffendsFor(s, step, id)
    ensures !SafeFor(Next(Next(s, step), ApplyPlan), id)
  {
    hide Scanned, Actions, About, Shape, ReadableCameras, Listing, PendingFor;
    Decided(s, step, id);
    ResumeOfClaimedBreaks(Next(s, step), id);
  }

  // -- runs that break it ------------------------------------------------------------

  ghost predicate Reaches(steps: seq<Step>, s: State) {
    Run(steps) && After(steps) == s
  }

  lemma OneMore(steps: seq<Step>, s: State, step: Step) returns (more: seq<Step>)
    requires Reaches(steps, s) && Enabled(s, step)
    ensures Reaches(more, Next(s, step))
  {
    hide Enabled, Next;
    more := steps + [step];
    assert more[..|steps|] == steps;
    forall i | 0 <= i < |more|
      ensures Enabled(After(more[..i]), more[i])
    {
      assert i < |steps| ==> more[..i] == steps[..i];
    }
  }

  /** Each pending file is whole and read. */
  function Readable(name: Name): Reading {
    Good
  }

  const ACTIVE := Snapshot(1, 1, "", true, Active, None)
  const MOVED := Snapshot(1, 1, "elsewhere", true, Active, None)
  const SPOTTED := Payload(0, 1, 0)
  const FIRST := Name(0, 0)

  function Heartbeat(snap: Snapshot, running: bool, names: seq<Name>): Step {
    Observe([snap], if running then [1] else [], names, Readable, Readable)
  }

  /** The state once camera 1 runs unpaused and a tick has collected it. */
  function Watching(): State {
    State(map[1 := Started(ACTIVE)], World(map[], map[], map[], [], map[]), None, None, {1}, {})
  }

  lemma IndexOne(snap: Snapshot)
    ensures Index([snap]) == map[snap.cameraId := snap] && Order([snap]) == [snap.cameraId]
  {
    assert [snap][..0] == [];
  }

  lemma ScansOne(w: World, names: seq<Name>)
    requires Listing(names, w) && |names| <= 1 && (forall n :: n in w.json ==> w.json[n].Whole?)
    ensures Scanned(w, names, Readable, Readable) == w
  {
    var calls := Scans(names, Readable, Readable);
    if |names| == 1 {
      assert names[0] in (set n | n in names);
      assert calls[..0] == [] && |calls| == 1;
      assert Loads(w, names[0], Good) && calls[0] == Call.Scan(names[0], Good, Good);
      assert PlanOf(w, calls[0]) == [];
      assert WorldAfter(w, calls[..0], 3) == w;
      assert WorldAfter(w, calls, 3) == Execute(w, [], 3);
    }
  }

  /** Deciding on a snapshot of camera 1 alone: its own plan. */
  lemma DecidesOne(s: State, snap: Snapshot, names: seq<Name>)
    requires snap.cameraId == 1 && WantsRuntime(snap) && s.plan.None? && s.cams.Keys <= {1}
    requires Listing(names, s.disk) && |names| <= 1 && (forall n :: n in s.disk.json ==> s.disk.json[n].Whole?)
    ensures var step := Heartbeat(snap, 1 in s.cams, names);
            && Enabled(s, step)
            && Next(s, step)
               == s.(plan := Some(Plan(snap, Get(s.cams, 1), 1 in ReadableCameras(s.disk, Readable))))
  {
    hide Plan, Scanned, ReadableCameras, Listing;
    ScansOne(s.disk, names);
    IndexOne(snap);
    var order := if 1 in s.cams then [1] else [];
    var seen := ReadableCameras(s.disk, Readable);
    var index := Index([snap]);
    assert [1][..0] == [];
    assert Stops(index, []) == [];
    assert Stops(index, order) == [];
    assert Plans(index, [1], s.cams, seen) == Plans(index, [], s.cams, seen) + Plan(snap, Get(s.cams, 1), 1 in seen);
    var plan := Plan(snap, Get(s.cams, 1), 1 in seen);
    assert Plans(index, [], s.cams, seen) == [];
    assert [] + plan == plan;
    assert Actions([snap], order, s.cams, seen) == plan;
  }

  lemma AppliesOne(s: State, a: Action)
    requires s.plan == Some([a])
    ensures Enabled(s, ApplyPlan)
    ensures Next(s, ApplyPlan).cams == Apply(s.cams, a)
    ensures Next(s, ApplyPlan).disk == s.disk && Next(s, ApplyPlan).flight == s.flight
    ensures Next(s, ApplyPlan).plan.None? && Next(s, ApplyPlan).collected == s.collected
    ensures Next(s, ApplyPlan).replaced == s.replaced + (if Replaces(a) then {a.id} else {})
  {
    hide Apply, Replaces;
    assert [a][..0] == [];
    assert ApplyAll(s.cams, [a]) == Apply(ApplyAll(s.cams, []), a);
  }

  lemma NothingRead(w: World)
    requires w.json == map[]
    ensures ReadableCameras(w, Readable) == {} && Listing([], w)
  {
  }

  lemma WatchingIsReached() returns (steps: seq<Step>)
    ensures Reaches(steps, Watching())
  {
    hide ReadableCameras;
    var s0 := After([]);
    NothingRead(s0.disk);
    DecidesOne(s0, ACTIVE, []);
    var s1 := Next(s0, Heartbeat(ACTIVE, false, []));
    assert s1.plan == Some([Start(1, ACTIVE)]);
    AppliesOne(s1, Start(1, ACTIVE));
    var s2 := Next(s1, ApplyPlan);
    assert s2.cams == map[1 := Started(ACTIVE)];
    assert Next(s2, Collect({1})) == Watching();
    steps := OneMore([], s0, Heartbeat(ACTIVE, false, []));
    steps := OneMore(steps, s1, ApplyPlan);
    steps := OneMore(steps, s2, Collect({1}));
  }

  /** The first event, written to the end. */
  lemma Queued(w: World)
    requires w.json == map[]
    ensures var w' := Execute(w, EnqueuePlan(FIRST, SPOTTED, 0.0), 3);
            && w'.json == map[FIRST := Whole(Record(SPOTTED, 0, None, 0.0))]
            && Listing([FIRST], w') && PendingFor(w', FIRST, 1) && ReadableCameras(w', Readable) == {1}
  {
    ExecuteUpTo3(w, EnqueuePlan(FIRST, SPOTTED, 0.0), 3);
    var w' := Execute(w, EnqueuePlan(FIRST, SPOTTED, 0.0), 3);
    assert Loads(w', FIRST, Readable(FIRST));
  }

  /** A restart of the process undoes it: an event left pending by a stop, then a
      heartbeat whose snapshot still says the camera is active. */
  lemma RestartForgets()
    ensures exists steps :: Run(steps) && !SafeFor(After(steps), 1)
  {
    hide Execute, EnqueuePlan, ReadableCameras, Listing, Scanned, Actions, ApplyAll;
    var steps := WatchingIsReached();
    var stop := Crash(Enqueue(FIRST, SPOTTED, 0.0), 3);
    var s1 := Next(Watching(), PauseFor(1));
    var s2 := Next(s1, stop);
    Queued(s1.disk);
    DecidesOne(s2, ACTIVE, [FIRST]);
    var s3 := Next(s2, Heartbeat(ACTIVE, false, [FIRST]));
    assert s3.plan == Some([Start(1, ACTIVE)]);
    AppliesOne(s3, Start(1, ACTIVE));
    steps := OneMore(steps, Watching(), PauseFor(1));
    steps := OneMore(steps, s1, stop);
    steps := OneMore(steps, s2, Heartbeat(ACTIVE, false, [FIRST]));
    steps := OneMore(steps, s3, ApplyPlan);
    assert Claimed(Next(s3, ApplyPlan), 1);
  }

  /** So does a plan to restart the stream that was decided before the detection
      and applied after the event was queued. */
  lemma StalePlanUnpauses()
    ensures exists steps :: Run(steps) && !SafeFor(After(steps), 1)
                            && After(steps).cams == map[1 := Started(MOVED)]
  {
    hide Execute, EnqueuePlan, ReadableCameras, Listing, Scanned, Actions, ApplyAll;
    var steps := WatchingIsReached();
    var s0 := Watching();
    NothingRead(s0.disk);
    DecidesOne(s0, MOVED, []);
    var s1 := Next(s0, Heartbeat(MOVED, true, []));
    assert s1.plan == Some([Reapply(1, MOVED)]);
    var s2 := Next(s1, PauseFor(1));
    Queued(s2.disk);
    var s3 := Next(s2, QueueEvent(FIRST, SPOTTED, 0.0));
    AppliesOne(s3, Reapply(1, MOVED));
    steps := OneMore(steps, s0, Heartbeat(MOVED, true, []));
    steps := OneMore(steps, s1, PauseFor(1));
    steps := OneMore(steps, s2, QueueEvent(FIRST, SPOTTED, 0.0));
    steps := OneMore(steps, s3, ApplyPlan);
    assert Claimed(Next(s3, ApplyPlan), 1);
  }

  /** So does a heartbeat between the pause and the queueing. */
  lemma HeartbeatInBetweenResumes()
    ensures exists steps :: Run(steps) && !SafeFor(After(steps), 1) && After(steps).flight == Some(1)
  {
    hide ReadableCameras, Listing, Scanned, Actions, ApplyAll;
    var steps := WatchingIsReached();
    var s1 := Next(Watching(), PauseFor(1));
    NothingRead(s1.disk);
    DecidesOne(s1, ACTIVE, []);
    var s2 := Next(s1, Heartbeat(ACTIVE, true, []));
    assert [] + [Action.Resume(1)] == [Action.Resume(1)];
    assert s2.plan == Some([Action.Resume(1)]);
    AppliesOne(s2, Action.Resume(1));
    steps := OneMore(steps, Watching(), PauseFor(1));
    steps := OneMore(steps, s1, Heartbeat(ACTIVE, true, []));
    steps := OneMore(steps, s2, ApplyPlan);
    assert Claimed(Next(s2, ApplyPlan), 1);
  }

  /** And so does a restart between collecting and pausing: the tick pauses the
      stream object it holds, which no longer runs. */
  lemma RestartInTickEscapes()
    ensures exists steps :: Run(steps) && !SafeFor(After(steps), 1) && 1 in After(steps).replaced
  {
    hide ReadableCameras, Listing, Scanned, Actions, ApplyAll;
    var steps := WatchingIsReached();
    var s0 := Watching();
    NothingRead(s0.disk);
    DecidesOne(s0, MOVED, []);
    var s1 := Next(s0, Heartbeat(MOVED, true, []));
    assert s1.plan == Some([Reapply(1, MOVED)]);
    AppliesOne(s1, Reapply(1, MOVED));
    var s2 := Next(s1, ApplyPlan);
    steps := OneMore(steps, s0, Heartbeat(MOVED, true, []));
    steps := OneMore(steps, s1, ApplyPlan);
    steps := OneMore(steps, s2, PauseFor(1));
    assert Claimed(Next(s2, PauseFor(1)), 1);
  }
}
