/** The directory-backed outbox (ai_engine/outbox.py) as a list of file
    operations per call, any of which may be the last one before a crash. */
module OutboxModel {
  import opened Common

  /** `body` stands for the fields of the event the outbox does not look at. */
  datatype Payload = Payload(eventId: nat, cameraId: int, body: nat)

  datatype Record = Record(payload: Payload, attempts: nat, nextAttemptAt: Option<real>, createdAt: real)

  /** A file still being written, or a finished one. */
  datatype File = Torn | Whole(record: Record)

  datatype Reason = CorruptJson | ValidationRejected

  datatype QuarantineFile = TornQuarantine | Quarantined(payload: Option<Payload>, reason: Reason)

  /** The timestamp prefix and the event id of the file name. */
  datatype Name = Name(stamp: nat, eventId: nat)

  datatype Outcome = Acknowledged | Conflict | CameraGone | AuthFailure | QuarantineIt | Retry

  datatype Post = Post(name: Name, payload: Payload, at: real, outcome: Outcome)

  /** The directory. `posts` and `accepted` (what first appeared under each
      name) only record the run. */
  datatype World = World(json: map<Name, File>, tmp: map<Name, File>, quarantine: map<Name, QuarantineFile>,
                         posts: seq<Post>, accepted: map<Name, Payload>)

  datatype FsOp =
    | WriteTmp(name: Name, file: File)
    | Replace(name: Name)
    | Unlink(name: Name)
    | WriteQuarantine(name: Name, entry: QuarantineFile)
    | Send(post: Post)

  function ApplyFs(w: World, op: FsOp): World {
    match op
    case WriteTmp(n, file) => w.(tmp := w.tmp[n := file])
    case Replace(n) =>
      if n !in w.tmp then w
      else w.(json := w.json[n := w.tmp[n]], tmp := w.tmp - {n},
              accepted := if n in w.accepted || w.tmp[n].Torn? then w.accepted
                          else w.accepted[n := w.tmp[n].record.payload])
    case Unlink(n) => w.(json := w.json - {n})
    case WriteQuarantine(n, entry) => w.(quarantine := w.quarantine[n := entry])
    case Send(post) => w.(posts := w.posts + [post])
  }

  /** The first `k` operations of a plan, or all of them. */
  function Execute(w: World, plan: seq<FsOp>, k: nat): World
    decreases k
  {
    if plan == [] || k == 0 then w else Execute(ApplyFs(w, plan[0]), plan[1..], k - 1)
  }

  function Left(k: nat, plan: seq<FsOp>): nat {
    if k <= |plan| then 0 else k - |plan|
  }

  /** Two plans in a row, out of one budget of operations. */
  lemma {:induction false} ExecuteConcat(w: World, a: seq<FsOp>, b: seq<FsOp>, k: nat)
    ensures Execute(w, a + b, k) == Execute(Execute(w, a, k), b, Left(k, a))
    ensures Left(k, a + b) == Left(Left(k, a), b)
    decreases |a|
  {
    if a == [] {
      assert a + b == b;
    } else if k > 0 {
      assert (a + b)[1..] == a[1..] + b;
      ExecuteConcat(ApplyFs(w, a[0]), a[1..], b, k - 1);
    }
  }

  // -- the calls ------------------------------------------------------------

  const BASE_BACKOFF := 2.0
  const MAX_BACKOFF := 300.0

  /** The largest power of two Python converts to a float: past it the backoff
      computation raises and the attempt goes unmarked. */
  const MAX_EXPONENT: nat := 1023

  function Pow2(n: nat): (p: nat)
    ensures p >= 1
  {
    if n == 0 then 1 else 2 * Pow2(n - 1)
  }

  function Base(attempts: nat): real {
    if BASE_BACKOFF * Pow2(attempts) as real <= MAX_BACKOFF then BASE_BACKOFF * Pow2(attempts) as real else MAX_BACKOFF
  }

  /** `jitter` is the random fraction, between 0 and 0.25. */
  function Backoff(attempts: nat, jitter: real, auth: bool): real {
    var backoff := Base(attempts) + Base(attempts) * jitter;
    if auth && backoff < MAX_BACKOFF then MAX_BACKOFF else backoff
  }

  /** One read of a file: it works, it fails in a way the outbox handles (an
      operating-system error, text that is not JSON), or its text is not UTF-8,
      which nothing here handles. */
  datatype Reading = Good | Bad | Garbled

  /** What the surroundings decide during one delivery: how each read of the file
      goes, what the backend answers, the clock and the jitter. */
  datatype Reply = Reply(loadRead: Reading, markRead: Reading, quarantineRead: Reading,
                         outcome: Outcome, now: real, markedAt: real, jitter: real)

  function AtomicWrite(n: Name, record: Record): seq<FsOp> {
    [WriteTmp(n, Torn), WriteTmp(n, Whole(record)), Replace(n)]
  }

  function EnqueuePlan(n: Name, payload: Payload, now: real): seq<FsOp> {
    AtomicWrite(n, Record(payload, 0, None, now))
  }

  predicate Loads(w: World, n: Name, read: Reading) {
    n in w.json && w.json[n].Whole? && read.Good?
  }

  /** A garbled file makes the move raise before it writes anything. */
  function QuarantinePlan(w: World, n: Name, reason: Reason, read: Reading): seq<FsOp> {
    if n !in w.json || read.Garbled? then []
    else
      var payload := if Loads(w, n, read) then Some(w.json[n].record.payload) else None;
      [WriteQuarantine(n, TornQuarantine), WriteQuarantine(n, Quarantined(payload, reason)), Unlink(n)]
  }

  /** What loading a file does to it: nothing if it can be read or raises. */
  function LoadPlan(w: World, n: Name, read: Reading, quarantineRead: Reading): seq<FsOp> {
    if Loads(w, n, read) || read.Garbled? then [] else QuarantinePlan(w, n, CorruptJson, quarantineRead)
  }

  /** What loading a file gives. */
  datatype Loading = Loaded(record: Record) | NotLoaded | Raised

  function LoadOf(w: World, n: Name, read: Reading, quarantineRead: Reading): Loading {
    if Loads(w, n, read) then Loaded(w.json[n].record)
    else if n in w.json && (read.Garbled? || quarantineRead.Garbled?) then Raised
    else NotLoaded
  }

  function Marked(record: Record, r: Reply): Record {
    var attempts := record.attempts + 1;
    record.(attempts := attempts,
            nextAttemptAt := Some(r.markedAt + Backoff(attempts, r.jitter, r.outcome.AuthFailure?)))
  }

  function MarkPlan(w: World, n: Name, r: Reply): seq<FsOp> {
    if !Loads(w, n, r.markRead) then LoadPlan(w, n, r.markRead, r.quarantineRead)
    else if w.json[n].record.attempts + 1 > MAX_EXPONENT then []
    else AtomicWrite(n, Marked(w.json[n].record, r))
  }

  predicate Due(record: Record, now: real) {
    record.nextAttemptAt.None? || now >= record.nextAttemptAt.value
  }

  predicate Terminal(o: Outcome) {
    o.Acknowledged? || o.Conflict? || o.CameraGone?
  }

  function OutcomePlan(w: World, n: Name, r: Reply): seq<FsOp> {
    if Terminal(r.outcome) then [Unlink(n)]
    else if r.outcome.QuarantineIt? then QuarantinePlan(w, n, ValidationRejected, r.quarantineRead)
    else MarkPlan(w, n, r)
  }

  function DeliverPlan(w: World, n: Name, r: Reply): seq<FsOp> {
    if !Loads(w, n, r.loadRead) then LoadPlan(w, n, r.loadRead, r.quarantineRead)
    else if !Due(w.json[n].record, r.now) then []
    else [Send(Post(n, w.json[n].record.payload, r.now, r.outcome))] + OutcomePlan(w, n, r)
  }

  datatype Call =
    | Enqueue(name: Name, payload: Payload, now: real)
    | Deliver(name: Name, reply: Reply)
    | Scan(name: Name, read: Reading, quarantineRead: Reading)

  function PlanOf(w: World, c: Call): seq<FsOp> {
    match c
    case Enqueue(n, payload, now) => EnqueuePlan(n, payload, now)
    case Deliver(n, r) => DeliverPlan(w, n, r)
    case Scan(n, read, quarantineRead) => LoadPlan(w, n, read, quarantineRead)
  }

  /** A call, and how many of its file operations happen before the process
      stops. */
  datatype Cut = Cut(call: Call, ops: nat)

  function After(cuts: seq<Cut>, n: nat): World
    requires n <= |cuts|
  {
    if n == 0 then World(map[], map[], map[], [], map[])
    else
      var w := After(cuts, n - 1);
      Execute(w, PlanOf(w, cuts[n - 1].call), cuts[n - 1].ops)
  }

  // -- conservation ------------------------------------------------------------

  predicate Delivered(w: World, n: Name) {
    exists i :: 0 <= i < |w.posts| && w.posts[i].name == n && Terminal(w.posts[i].outcome)
  }

  /** If an event was accepted under `n`, it is pending, kept in quarantine, or was
      removed after a post that settled it. */
  predicate Safe(w: World, n: Name) {
    n in w.accepted ==>
      || n in w.json
      || (n in w.quarantine && w.quarantine[n].Quarantined? && w.quarantine[n].payload == Some(w.accepted[n]))
      || Delivered(w, n)
  }

  /** Nothing half-written is visible, and files and posts carry the payload
      accepted under their name. */
  predicate Intact(w: World) {
    && (forall n :: n in w.json ==> w.json[n].Whole? && n in w.accepted && w.json[n].record.payload == w.accepted[n])
    && (forall i :: 0 <= i < |w.posts| ==>
          w.posts[i].name in w.accepted && w.posts[i].payload == w.accepted[w.posts[i].name])
  }

  /** Event ids are unique, so a name is enqueued once. */
  predicate Fresh(w: World, c: Call) {
    c.Enqueue? ==> c.name !in w.accepted
  }

  /** The call moves the file to quarantine, having failed to read it there. */
  predicate LosesPayload(w: World, c: Call) {
    match c
    case Enqueue(_, _, _) => false
    case Deliver(n, r) =>
      && n in w.json && w.json[n].Whole? && r.quarantineRead.Bad?
      && (r.loadRead.Bad?
          || (r.loadRead.Good? && Due(w.json[n].record, r.now)
              && (r.outcome.QuarantineIt? || (!Terminal(r.outcome) && r.markRead.Bad?))))
    case Scan(n, read, quarantineRead) => n in w.json && read.Bad? && quarantineRead.Bad?
  }

  lemma ExecuteUpTo3(w: World, plan: seq<FsOp>, k: nat)
    requires |plan| == 3
    ensures Execute(w, plan, k)
         == if k == 0 then w
            else if k == 1 then ApplyFs(w, plan[0])
            else if k == 2 then ApplyFs(ApplyFs(w, plan[0]), plan[1])
            else ApplyFs(ApplyFs(ApplyFs(w, plan[0]), plan[1]), plan[2])
  {
    hide ApplyFs;
    if k > 0 {
      var w1 := ApplyFs(w, plan[0]);
      assert Execute(w, plan, k) == Execute(w1, plan[1..], k - 1);
      if k > 1 {
        var w2 := ApplyFs(w1, plan[1]);
        assert plan[1..][0] == plan[1] && plan[1..][1..] == plan[2..];
        assert Execute(w1, plan[1..], k - 1) == Execute(w2, plan[2..], k - 2);
        if k > 2 {
          assert plan[2..][0] == plan[2] && plan[2..][1..] == [];
          assert Execute(w2, plan[2..], k - 2) == Execute(ApplyFs(w2, plan[2]), [], k - 3);
        }
      }
    }
  }

  // -- one call, one event ----------------------------------------------------------

  /** `w'` may follow `w`: it is intact, and the event `e` stays accounted for. */
  predicate Keeps(w: World, w': World, e: Name) {
    Intact(w') && (Safe(w, e) ==> Safe(w', e))
  }

  lemma AtomicWriteKeeps(w: World, n: Name, record: Record, k: nat, e: Name)
    requires Intact(w) && (n in w.accepted ==> record.payload == w.accepted[n])
    ensures Keeps(w, Execute(w, AtomicWrite(n, record), k), e)
  {
    ExecuteUpTo3(w, AtomicWrite(n, record), k);
  }

  /** Moving a file to quarantine keeps every other event, and its own unless it
      could not be read, was not settled before, and the move is completed. */
  lemma QuarantineKeeps(w: World, n: Name, reason: Reason, read: Reading, k: nat, e: Name)
    requires Intact(w)
    ensures var w' := Execute(w, QuarantinePlan(w, n, reason, read), k);
            && Intact(w')
            && (e != n || !read.Bad? || n !in w.json || k < 3 ==> Keeps(w, w', e))
            && (read.Bad? && n in w.json && k >= 3 ==> (Safe(w', n) <==> Delivered(w, n)))
    ensures n in w.json && read.Bad? ==> |QuarantinePlan(w, n, reason, read)| == 3
  {
    if n in w.json && !read.Garbled? {
      ExecuteUpTo3(w, QuarantinePlan(w, n, reason, read), k);
    }
  }

  lemma UnlinkKeeps(w: World, n: Name, k: nat, e: Name)
    requires Intact(w) && Delivered(w, n)
    ensures Keeps(w, Execute(w, [Unlink(n)], k), e)
  {
    if k > 0 {
      assert Execute(w, [Unlink(n)], k) == Execute(ApplyFs(w, Unlink(n)), [], k - 1);
    }
  }

  /** Sending changes nothing on disk. */
  lemma SendKeeps(w: World, post: Post, e: Name)
    requires Intact(w) && post.name in w.accepted && post.payload == w.accepted[post.name]
    ensures var w' := ApplyFs(w, Send(post));
            && Keeps(w, w', e)
            && (Terminal(post.outcome) ==> Delivered(w', post.name))
            && (!Terminal(post.outcome) ==> (Delivered(w', e) <==> Delivered(w, e)))
  {
    var w' := ApplyFs(w, Send(post));
    assert w'.posts[|w.posts|] == post;
    assert forall i :: 0 <= i < |w.posts| ==> w'.posts[i] == w.posts[i];
    if Delivered(w, e) {
      var i :| 0 <= i < |w.posts| && w.posts[i].name == e && Terminal(w.posts[i].outcome);
      assert w'.posts[i].name == e;
    }
  }

  lemma ExecuteSendFirst(w: World, post: Post, rest: seq<FsOp>, k: nat)
    ensures Execute(w, [Send(post)] + rest, k)
         == if k == 0 then w else Execute(ApplyFs(w, Send(post)), rest, k - 1)
  {
    assert ([Send(post)] + rest)[1..] == rest;
  }

  /** What follows the post is planned from the same files. */
  lemma OutcomePlanIgnoresPosts(w: World, post: Post, n: Name, r: Reply)
    ensures OutcomePlan(ApplyFs(w, Send(post)), n, r) == OutcomePlan(w, n, r)
  {
  }

  lemma ExecuteNothing(w: World, k: nat)
    ensures Execute(w, [], k) == w
  {
  }

  /** The rest of a delivery loses the event when it quarantines a file it could
      not read there. */
  predicate OutcomeLoses(r: Reply) {
    r.quarantineRead.Bad? && (r.outcome.QuarantineIt? || (!Terminal(r.outcome) && r.markRead.Bad?))
  }

  lemma OutcomeKeeps(w: World, n: Name, r: Reply, k: nat, e: Name)
    requires Intact(w) && n in w.json && (Terminal(r.outcome) ==> Delivered(w, n))
    ensures var w' := Execute(w, OutcomePlan(w, n, r), k);
            && Intact(w')
            && (e != n || !OutcomeLoses(r) || k < 3 ==> Keeps(w, w', e))
            && (OutcomeLoses(r) && k >= 3 ==> (Safe(w', n) <==> Delivered(w, n)))
    ensures OutcomeLoses(r) ==> |OutcomePlan(w, n, r)| == 3
  {
    hide Execute, Safe, Delivered, QuarantinePlan;
    if Terminal(r.outcome) {
      UnlinkKeeps(w, n, k, e);
    } else if r.outcome.QuarantineIt? {
      QuarantineKeeps(w, n, ValidationRejected, r.quarantineRead, k, e);
    } else if r.markRead.Garbled? {
      ExecuteNothing(w, k);
    } else if !Loads(w, n, r.markRead) {
      QuarantineKeeps(w, n, CorruptJson, r.quarantineRead, k, e);
    } else if w.json[n].record.attempts + 1 > MAX_EXPONENT {
      ExecuteNothing(w, k);
    } else {
      AtomicWriteKeeps(w, n, Marked(w.json[n].record, r), k, e);
    }
  }

  lemma DeliveryKeeps(w: World, n: Name, r: Reply, k: nat, e: Name)
    requires Intact(w) && Loads(w, n, r.loadRead) && Due(w.json[n].record, r.now)
    ensures var w' := Execute(w, DeliverPlan(w, n, r), k);
            && Intact(w')
            && (e != n || !OutcomeLoses(r) || k < 4 ==> Keeps(w, w', e))
            && (OutcomeLoses(r) && k >= 4 ==> (Safe(w', n) <==> Delivered(w, n)))
    ensures OutcomeLoses(r) ==> |DeliverPlan(w, n, r)| == 4
  {
    hide Execute, Safe, Delivered, OutcomePlan;
    var post := Post(n, w.json[n].record.payload, r.now, r.outcome);
    var w1 := ApplyFs(w, Send(post));
    ExecuteSendFirst(w, post, OutcomePlan(w, n, r), k);
    SendKeeps(w, post, e);
    SendKeeps(w, post, n);
    OutcomePlanIgnoresPosts(w, post, n, r);
    if k > 0 {
      OutcomeKeeps(w1, n, r, k - 1, e);
    } else {
      OutcomeKeeps(w1, n, r, 0, e);
    }
  }

  lemma DeliverUnread(w: World, n: Name, r: Reply)
    requires !Loads(w, n, r.loadRead)
    ensures DeliverPlan(w, n, r) == if r.loadRead.Garbled? then []
                                    else QuarantinePlan(w, n, CorruptJson, r.quarantineRead)
  {
  }

  lemma DeliverEarly(w: World, n: Name, r: Reply)
    requires Loads(w, n, r.loadRead) && !Due(w.json[n].record, r.now)
    ensures DeliverPlan(w, n, r) == []
  {
  }

  /** However far a call gets, the directory stays intact, and an event accounted
      for stays so, with one exact exception: the call's own event is lost if and
      only if the call runs to its end, moves the file to quarantine without
      having been able to read it there, and no settling post had been made. */
  lemma CutLosesIff(w: World, c: Call, k: nat, e: Name)
    requires Intact(w) && Fresh(w, c)
    ensures var w' := Execute(w, PlanOf(w, c), k);
            && Intact(w')
            && (Safe(w, e) ==>
                  (Safe(w', e) <==> !(e == c.name && LosesPayload(w, c) && !Delivered(w, e) && k >= |PlanOf(w, c)|)))
  {
    hide Execute, Safe, Delivered, DeliverPlan, QuarantinePlan;
    match c
    case Enqueue(n, payload, now) =>
      AtomicWriteKeeps(w, n, Record(payload, 0, None, now), k, e);
    case Scan(n, read, quarantineRead) =>
      if Loads(w, n, read) || read.Garbled? {
        ExecuteNothing(w, k);
      } else {
        QuarantineKeeps(w, n, CorruptJson, quarantineRead, k, e);
      }
    case Deliver(n, r) =>
      if !Loads(w, n, r.loadRead) {
        DeliverUnread(w, n, r);
        ExecuteNothing(w, k);
        QuarantineKeeps(w, n, CorruptJson, r.quarantineRead, k, e);
      } else if !Due(w.json[n].record, r.now) {
        DeliverEarly(w, n, r);
        ExecuteNothing(w, k);
      } else {
        DeliveryKeeps(w, n, r, k, e);
      }
  }

  // -- runs -------------------------------------------------------------------------

  /** Every enqueued name is new. */
  predicate AllFresh(cuts: seq<Cut>, n: nat)
    requires n <= |cuts|
  {
    forall k :: 0 <= k < n ==> Fresh(After(cuts, k), cuts[k].call)
  }

  lemma EmptyIsSound(cuts: seq<Cut>, e: Name)
    ensures Intact(After(cuts, 0)) && Safe(After(cuts, 0), e)
  {
  }

  /** In every run of calls, each cut short anywhere or not, only whole files are
      visible, and files and posts carry the payload accepted under their name. */
  lemma {:induction false} RunsStayIntact(cuts: seq<Cut>, n: nat)
    requires n <= |cuts| && AllFresh(cuts, n)
    ensures Intact(After(cuts, n))
  {
    hide Fresh, PlanOf, Execute, Intact, Safe, LosesPayload;
    if n == 0 {
      EmptyIsSound(cuts, Name(0, 0));
    } else {
      RunsStayIntact(cuts, n - 1);
      CutLosesIff(After(cuts, n - 1), cuts[n - 1].call, cuts[n - 1].ops, Name(0, 0));
    }
  }

  /** Call `k` of the run loses the event `e`. */
  predicate LosesAt(cuts: seq<Cut>, k: nat, e: Name)
    requires k < |cuts|
  {
    var w, cut := After(cuts, k), cuts[k];
    cut.call.name == e && LosesPayload(w, cut.call) && !Delivered(w, e) && cut.ops >= |PlanOf(w, cut.call)|
  }

  // -- lost for good ------------------------------------------------------------------

  function NameOf(op: FsOp): Name {
    match op
    case WriteTmp(n, _) => n
    case Replace(n) => n
    case Unlink(n) => n
    case WriteQuarantine(n, _) => n
    case Send(post) => post.name
  }

  /** What the directory holds about one event. */
  ghost predicate AlikeAt(w: World, w': World, e: Name) {
    && (e in w'.json <==> e in w.json) && (e in w.json ==> w'.json[e] == w.json[e])
    && (e in w'.accepted <==> e in w.accepted) && (e in w.accepted ==> w'.accepted[e] == w.accepted[e])
    && (e in w'.quarantine <==> e in w.quarantine) && (e in w.quarantine ==> w'.quarantine[e] == w.quarantine[e])
    && (Delivered(w', e) <==> Delivered(w, e))
  }

  lemma OpOfOther(w: World, op: FsOp, e: Name)
    requires NameOf(op) != e
    ensures AlikeAt(w, ApplyFs(w, op), e)
  {
    if op.Send? {
      var w' := ApplyFs(w, op);
      assert forall i :: 0 <= i < |w.posts| ==> w'.posts[i] == w.posts[i];
      if Delivered(w, e) {
        var i :| 0 <= i < |w.posts| && w.posts[i].name == e && Terminal(w.posts[i].outcome);
        assert w'.posts[i].name == e;
      }
    }
  }

  /** Operations on one file leave the other events alone. */
  lemma {:induction false} ExecuteOthers(w: World, plan: seq<FsOp>, k: nat, e: Name)
    requires forall i :: 0 <= i < |plan| ==> NameOf(plan[i]) != e
    ensures AlikeAt(w, Execute(w, plan, k), e)
    decreases k
  {
    hide ApplyFs, Delivered;
    if plan != [] && k > 0 {
      OpOfOther(w, plan[0], e);
      ExecuteOthers(ApplyFs(w, plan[0]), plan[1..], k - 1, e);
    }
  }

  lemma QuarantinesOwnFile(w: World, n: Name, reason: Reason, read: Reading)
    ensures forall i :: 0 <= i < |QuarantinePlan(w, n, reason, read)| ==>
              NameOf(QuarantinePlan(w, n, reason, read)[i]) == n
  {
  }

  lemma PlansOwnFile(w: World, c: Call)
    ensures forall i :: 0 <= i < |PlanOf(w, c)| ==> NameOf(PlanOf(w, c)[i]) == c.name
  {
    if c.Deliver? {
      hide QuarantinePlan, Marked;
      QuarantinesOwnFile(w, c.name, CorruptJson, c.reply.quarantineRead);
      QuarantinesOwnFile(w, c.name, ValidationRejected, c.reply.quarantineRead);
    }
  }

  lemma LostForGood(w: World, c: Call, k: nat, e: Name)
    requires Fresh(w, c) && !Safe(w, e)
    ensures !Safe(Execute(w, PlanOf(w, c), k), e)
  {
    hide Execute;
    if c.name == e {
      assert PlanOf(w, c) == [];
      ExecuteNothing(w, k);
    } else {
      PlansOwnFile(w, c);
      ExecuteOthers(w, PlanOf(w, c), k, e);
    }
  }

  /** Conservation is exact. In every run of calls, each cut short anywhere or not,
      and whatever befalls the other events: an accepted event is pending, in
      quarantine, or removed after a post that settled it, if and only if none of
      its own calls quarantined it unread. */
  lemma {:induction false} RunsConserve(cuts: seq<Cut>, n: nat, e: Name)
    requires n <= |cuts| && AllFresh(cuts, n)
    ensures Safe(After(cuts, n), e) <==> forall k :: 0 <= k < n ==> !LosesAt(cuts, k, e)
  {
    hide Fresh, PlanOf, Execute, Intact, Safe, LosesPayload, Delivered;
    if n == 0 {
      EmptyIsSound(cuts, e);
    } else {
      RunsConserve(cuts, n - 1, e);
      RunsStayIntact(cuts, n - 1);
      var w, cut := After(cuts, n - 1), cuts[n - 1];
      if Safe(w, e) {
        CutLosesIff(w, cut.call, cut.ops, e);
        assert LosesAt(cuts, n - 1, e) <==> !Safe(After(cuts, n), e);
      } else {
        LostForGood(w, cut.call, cut.ops, e);
      }
    }
  }

  /** The call finds text in the file that is not UTF-8. */
  predicate FindsGarbled(c: Call) {
    match c
    case Enqueue(_, _, _) => false
    case Deliver(_, r) => r.loadRead.Garbled?
    case Scan(_, read, _) => read.Garbled?
  }

  lemma AlikeFile(w: World, w': World, e: Name)
    requires AlikeAt(w, w', e) && e in w.json
    ensures e in w'.json && w'.json[e] == w.json[e]
  {
  }

  /** A file whose text is not UTF-8 stays where it is: no call posts it or moves it
      aside, and loading it raises. */
  lemma {:induction false} GarbledStays(cuts: seq<Cut>, m: nat, n: nat, e: Name)
    requires m <= n <= |cuts| && e in After(cuts, m).json
    requires forall k :: m <= k < n && cuts[k].call.name == e ==> FindsGarbled(cuts[k].call)
    ensures e in After(cuts, n).json && After(cuts, n).json[e] == After(cuts, m).json[e]
    ensures forall quarantineRead :: LoadOf(After(cuts, n), e, Garbled, quarantineRead).Raised?
  {
    hide Execute, AlikeAt;
    if n > m {
      GarbledStays(cuts, m, n - 1, e);
      var w, cut := After(cuts, n - 1), cuts[n - 1];
      if cut.call.name == e {
        assert PlanOf(w, cut.call) == [];
        ExecuteNothing(w, cut.ops);
      } else {
        PlansOwnFile(w, cut.call);
        ExecuteOthers(w, PlanOf(w, cut.call), cut.ops, e);
        AlikeFile(w, After(cuts, n), e);
      }
    }
  }

  /** It does happen: an event is queued, its file cannot be read, neither by the
      delivery nor while it is moved aside. */
  lemma UnreadEventIsLost()
    ensures exists cuts: seq<Cut>, e ::
              |cuts| == 2 && AllFresh(cuts, 2) && e in After(cuts, 2).accepted && !Safe(After(cuts, 2), e)
  {
    var n, payload := Name(0, 0), Payload(0, 1, 0);
    var reply := Reply(Bad, Good, Bad, Retry, 0.0, 0.0, 0.0);
    var cuts := [Cut(Enqueue(n, payload, 0.0), 3), Cut(Deliver(n, reply), 3)];
    var w0, w1 := After(cuts, 0), After(cuts, 1);
    ExecuteUpTo3(w0, EnqueuePlan(n, payload, 0.0), 3);
    assert w1 == Execute(w0, EnqueuePlan(n, payload, 0.0), 3);
    assert w1.json == map[n := Whole(Record(payload, 0, None, 0.0))] && n in w1.accepted && w1.posts == [];
    DeliverUnread(w1, n, reply);
    var w2 := After(cuts, 2);
    assert w2 == Execute(w1, DeliverPlan(w1, n, reply), 3);
    ExecuteUpTo3(w1, QuarantinePlan(w1, n, CorruptJson, Bad), 3);
    assert n in w2.accepted && !Safe(w2, n);
    assert AllFresh(cuts, 2);
  }
}
