/** The outbox as an object whose state is the directory (ai_engine/outbox.py),
    proved against the plans of `OutboxModel`. The process may stop before any
    file operation: from then on operations have no effect. */
module Outbox {
  import opened Common
  import opened OutboxModel

  /** File names sort by timestamp, then event id. */
  predicate Before(a: Name, b: Name) {
    a.stamp < b.stamp || (a.stamp == b.stamp && a.eventId < b.eventId)
  }

  predicate OldestFirst(names: seq<Name>) {
    forall i, j :: 0 <= i < j < |names| ==> Before(names[i], names[j])
  }

  predicate Oldest(n: Name, names: set<Name>) {
    n in names && forall m :: m in names ==> n == m || Before(n, m)
  }

  lemma {:induction false} OldestExists(names: set<Name>)
    requires names != {}
    ensures exists n :: n in names && Oldest(n, names)
  {
    var n :| n in names;
    var rest := names - {n};
    if rest != {} {
      OldestExists(rest);
      var o :| o in rest && Oldest(o, rest);
      var best := if Before(n, o) then n else o;
      assert forall m :: m in names ==> m == n || m in rest;
      assert Oldest(best, names);
    } else {
      assert forall m :: m in names ==> m == n || m in rest;
      assert Oldest(n, names);
    }
  }

  /** `names` come oldest first, before everything in `rest`, and together they
      are `all`. */
  predicate Sorting(names: seq<Name>, rest: set<Name>, all: set<Name>) {
    && OldestFirst(names)
    && (set n | n in names) + rest == all
    && forall i, m :: 0 <= i < |names| && m in rest ==> Before(names[i], m)
  }

  lemma SortingNext(names: seq<Name>, rest: set<Name>, all: set<Name>, n: Name)
    requires Sorting(names, rest, all) && Oldest(n, rest)
    ensures Sorting(names + [n], rest - {n}, all)
  {
    var more := names + [n];
    assert (set m | m in more) == (set m | m in names) + {n};
    forall i, m | 0 <= i < |more| && m in rest - {n}
      ensures Before(more[i], m)
    {
      assert i < |names| ==> more[i] == names[i];
    }
  }

  // -- several calls in a row, out of one budget ---------------------------------

  function WorldAfter(w: World, calls: seq<Call>, k: nat): World {
    if calls == [] then w
    else
      var front := calls[..|calls| - 1];
      var before := WorldAfter(w, front, k);
      Execute(before, PlanOf(before, calls[|calls| - 1]), OpsAfter(w, front, k))
  }

  function OpsAfter(w: World, calls: seq<Call>, k: nat): nat {
    if calls == [] then k
    else
      var front := calls[..|calls| - 1];
      Left(OpsAfter(w, front, k), PlanOf(WorldAfter(w, front, k), calls[|calls| - 1]))
  }

  function Deliveries(names: seq<Name>, reply: Name -> Reply): (calls: seq<Call>)
    ensures |calls| == |names| && forall i :: 0 <= i < |names| ==> calls[i] == Deliver(names[i], reply(names[i]))
  {
    seq(|names|, i requires 0 <= i < |names| => Deliver(names[i], reply(names[i])))
  }

  function Scans(names: seq<Name>, read: Name -> Reading, quarantineRead: Name -> Reading): (calls: seq<Call>)
    ensures |calls| == |names|
    ensures forall i :: 0 <= i < |names| ==> calls[i] == Scan(names[i], read(names[i]), quarantineRead(names[i]))
  {
    seq(|names|, i requires 0 <= i < |names| => Scan(names[i], read(names[i]), quarantineRead(names[i])))
  }

  lemma CallsNext(w: World, calls: seq<Call>, k: nat, i: nat)
    requires i < |calls|
    ensures var before := WorldAfter(w, calls[..i], k);
            && WorldAfter(w, calls[..i + 1], k)
               == Execute(before, PlanOf(before, calls[i]), OpsAfter(w, calls[..i], k))
            && OpsAfter(w, calls[..i + 1], k) == Left(OpsAfter(w, calls[..i], k), PlanOf(before, calls[i]))
  {
    hide Execute, PlanOf;
    assert calls[..i + 1][..i] == calls[..i];
  }

  /** How many files a scan gets past before one raises. */
  function ScanEnd(w: World, names: seq<Name>, read: Name -> Reading, quarantineRead: Name -> Reading): (k: nat)
    ensures k <= |names|
    ensures forall i :: 0 <= i < k ==> !LoadOf(w, names[i], read(names[i]), quarantineRead(names[i])).Raised?
    ensures k < |names| ==> LoadOf(w, names[k], read(names[k]), quarantineRead(names[k])).Raised?
  {
    if names == [] || LoadOf(w, names[0], read(names[0]), quarantineRead(names[0])).Raised? then 0
    else 1 + ScanEnd(w, names[1..], read, quarantineRead)
  }

  /** The calls of a scan, up to the first file that raises. */
  function ScansDone(w: World, names: seq<Name>, read: Name -> Reading, quarantineRead: Name -> Reading): seq<Call> {
    Scans(names, read, quarantineRead)[..ScanEnd(w, names, read, quarantineRead)]
  }

  /** Some pending file makes the scan raise. */
  predicate ScanRaises(w: World, read: Name -> Reading, quarantineRead: Name -> Reading) {
    exists n :: n in w.json && LoadOf(w, n, read(n), quarantineRead(n)).Raised?
  }

  /** Listed oldest first, each once. */
  predicate Listing(names: seq<Name>, w: World) {
    OldestFirst(names) && (set n | n in names) == w.json.Keys
  }

  /** The cameras with an event pending in a file that can be read. */
  function ReadableCameras(w: World, read: Name -> Reading): set<int> {
    set n | n in w.json && Loads(w, n, read(n)) :: w.json[n].record.payload.cameraId
  }

  /** The camera whose removal a delivery reports. */
  function GoneOf(w: World, n: Name, r: Reply): Option<int> {
    if Loads(w, n, r.loadRead) && Due(w.json[n].record, r.now) && r.outcome.CameraGone?
    then Some(w.json[n].record.payload.cameraId)
    else None
  }

  /** Wherever a pass is cut, the directory stays intact and an event accounted for
      stays so, unless its own call of the pass quarantined it unread. */
  lemma {:induction false} CallsKeepEvent(w: World, calls: seq<Call>, k: nat, e: Name)
    requires Intact(w)
    requires forall i :: 0 <= i < |calls| ==> Fresh(WorldAfter(w, calls[..i], k), calls[i])
    requires forall i :: 0 <= i < |calls| && calls[i].name == e ==>
               !LosesPayload(WorldAfter(w, calls[..i], k), calls[i])
    ensures Intact(WorldAfter(w, calls, k))
    ensures Safe(w, e) ==> Safe(WorldAfter(w, calls, k), e)
  {
    hide Fresh, LosesPayload, PlanOf, Execute, Intact, Safe;
    if calls != [] {
      var front := calls[..|calls| - 1];
      forall i | 0 <= i < |front|
        ensures Fresh(WorldAfter(w, front[..i], k), front[i])
        ensures front[i].name == e ==> !LosesPayload(WorldAfter(w, front[..i], k), front[i])
      {
        assert front[..i] == calls[..i];
      }
      CallsKeepEvent(w, front, k, e);
      CutLosesIff(WorldAfter(w, front, k), calls[|calls| - 1], OpsAfter(w, front, k), e);
    }
  }

  /** Scanning files leaves the others alone. */
  lemma {:induction false} ScansTouchOwn(w: World, calls: seq<Call>, k: nat, m: Name)
    requires forall i :: 0 <= i < |calls| ==> calls[i].Scan? && calls[i].name != m
    ensures var w' := WorldAfter(w, calls, k);
            (m in w'.json <==> m in w.json) && (m in w.json ==> w'.json[m] == w.json[m])
  {
    if calls != [] {
      var front := calls[..|calls| - 1];
      ScansTouchOwn(w, front, k, m);
      var before := WorldAfter(w, front, k);
      var c := calls[|calls| - 1];
      if !Loads(before, c.name, c.read) && c.name in before.json && !c.read.Garbled? && !c.quarantineRead.Garbled? {
        ExecuteUpTo3(before, QuarantinePlan(before, c.name, CorruptJson, c.quarantineRead), OpsAfter(w, front, k));
      }
    }
  }

  lemma Nothing(w: World, k: nat)
    ensures Execute(w, [], k) == w && Left(k, []) == k
  {
  }

  /** Whether or not the post was made, what follows it is planned alike. */
  lemma PlanAfterSend(w: World, post: Post, n: Name, r: Reply, k: nat)
    ensures OutcomePlan(Execute(w, [Send(post)], k), n, r) == OutcomePlan(w, n, r)
    ensures Execute(w, [Send(post)], k).json == w.json
  {
    if k > 0 {
      assert [Send(post)][1..] == [];
      Nothing(ApplyFs(w, Send(post)), k - 1);
      OutcomePlanIgnoresPosts(w, post, n, r);
    }
  }

  function CamerasOf(w: World, names: seq<Name>, read: Name -> Reading): set<int> {
    set n | n in names && Loads(w, n, read(n)) :: w.json[n].record.payload.cameraId
  }

  lemma CamerasOfNext(w: World, names: seq<Name>, i: nat, read: Name -> Reading)
    requires i < |names|
    ensures CamerasOf(w, names[..i + 1], read)
         == CamerasOf(w, names[..i], read)
            + if Loads(w, names[i], read(names[i])) then {w.json[names[i]].record.payload.cameraId} else {}
  {
    assert names[..i + 1] == names[..i] + [names[i]];
  }

  lemma ListedOnce(w: World, names: seq<Name>, read: Name -> Reading)
    requires Listing(names, w)
    ensures forall i, j :: 0 <= i < j < |names| ==> names[i] != names[j]
    ensures CamerasOf(w, [], read) == {}
  {
  }

  lemma ListedCameras(w: World, names: seq<Name>, read: Name -> Reading)
    requires Listing(names, w)
    ensures CamerasOf(w, names, read) == ReadableCameras(w, read)
  {
    assert forall n :: n in names <==> n in (set m | m in names);
  }

  lemma Three(w: World, a: FsOp, b: FsOp, c: FsOp, k: nat)
    ensures var l1 := Left(k, [a]);
            var w1 := Execute(w, [a], k);
            var w2 := Execute(w1, [b], l1);
            && Execute(w, [a, b, c], k) == Execute(w2, [c], Left(l1, [b]))
            && Left(k, [a, b, c]) == Left(Left(l1, [b]), [c])
  {
    hide Execute, Left;
    ExecuteConcat(w, [a], [b, c], k);
    ExecuteConcat(Execute(w, [a], k), [b], [c], Left(k, [a]));
    assert [a] + [b, c] == [a, b, c] && [b] + [c] == [b, c];
  }

  lemma NoCalls(w: World, k: nat)
    ensures WorldAfter(w, [], k) == w && OpsAfter(w, [], k) == k
  {
  }

  lemma RaisingPlan(w: World, n: Name, read: Reading, quarantineRead: Reading, k: nat)
    requires LoadOf(w, n, read, quarantineRead).Raised?
    ensures LoadPlan(w, n, read, quarantineRead) == []
    ensures Execute(w, LoadPlan(w, n, read, quarantineRead), k) == w
    ensures Left(k, LoadPlan(w, n, read, quarantineRead)) == k
  {
  }

  /** A scan of all files raises exactly when one of them does. */
  lemma RaisingScan(w: World, names: seq<Name>, read: Name -> Reading, quarantineRead: Name -> Reading)
    requires Listing(names, w)
    ensures ScanEnd(w, names, read, quarantineRead) < |names| <==> ScanRaises(w, read, quarantineRead)
  {
    hide LoadOf;
    var k := ScanEnd(w, names, read, quarantineRead);
    if k < |names| {
      assert names[k] in (set n | n in names);
    } else {
      assert forall n :: n in w.json ==> n in (set m | m in names);
    }
  }

  /** What loading the next file of a scan finds and does. */
  lemma ScanNext(w: World, names: seq<Name>, i: nat, read: Name -> Reading, quarantineRead: Name -> Reading, k: nat)
    requires Listing(names, w) && i < |names|
    ensures var calls, n := Scans(names, read, quarantineRead), names[i];
            var before, ops := WorldAfter(w, calls[..i], k), OpsAfter(w, calls[..i], k);
            var loading := LoadOf(w, n, read(n), quarantineRead(n));
            && LoadOf(before, n, read(n), quarantineRead(n)) == loading
            && WorldAfter(w, calls[..i + 1], k) == Execute(before, LoadPlan(before, n, read(n), quarantineRead(n)), ops)
            && OpsAfter(w, calls[..i + 1], k) == Left(ops, LoadPlan(before, n, read(n), quarantineRead(n)))
            && CamerasOf(w, names[..i + 1], read)
               == CamerasOf(w, names[..i], read) + (if loading.Loaded? then {loading.record.payload.cameraId} else {})
            && (loading.Raised? ==> WorldAfter(w, calls[..i + 1], k) == before && OpsAfter(w, calls[..i + 1], k) == ops)
  {
    hide Execute, Left, CamerasOf, OldestFirst, LoadPlan;
    var calls, n := Scans(names, read, quarantineRead), names[i];
    ListedOnce(w, names, read);
    ScansTouchOwn(w, calls[..i], k, n);
    CallsNext(w, calls, k, i);
    CamerasOfNext(w, names, i, read);
    var before, ops := WorldAfter(w, calls[..i], k), OpsAfter(w, calls[..i], k);
    if LoadOf(before, n, read(n), quarantineRead(n)).Raised? {
      RaisingPlan(before, n, read(n), quarantineRead(n), ops);
    }
  }

  class DurableOutbox {
    var json: map<Name, File>
    var tmp: map<Name, File>
    var quarantine: map<Name, QuarantineFile>
    var opsLeft: nat
    ghost var posts: seq<Post>
    ghost var accepted: map<Name, Payload>

    ghost function Directory(): World
      reads this
    {
      World(json, tmp, quarantine, posts, accepted)
    }

    /** What a call with this plan leaves, stopping when the budget runs out. */
    twostate predicate Ran(plan: seq<FsOp>)
      reads this
    {
      Directory() == Execute(old(Directory()), plan, old(opsLeft)) && opsLeft == Left(old(opsLeft), plan)
    }

    constructor (opsLeft: nat)
      ensures Directory() == World(map[], map[], map[], [], map[]) && this.opsLeft == opsLeft
    {
      json, tmp, quarantine, this.opsLeft := map[], map[], map[], opsLeft;
      posts, accepted := [], map[];
    }

    /** A restart: the same directory, a new budget. */
    method Restart(opsLeft: nat)
      modifies this
      ensures Directory() == old(Directory()) && this.opsLeft == opsLeft
    {
      this.opsLeft := opsLeft;
    }

    method WriteTmpFile(n: Name, file: File)
      modifies this
      ensures Ran([WriteTmp(n, file)])
    {
      if opsLeft > 0 {
        tmp := tmp[n := file];
        opsLeft := opsLeft - 1;
      }
    }

    method ReplaceFile(n: Name)
      modifies this
      ensures Ran([OutboxModel.Replace(n)])
    {
      if opsLeft > 0 {
        if n in tmp {
          json := json[n := tmp[n]];
          accepted := if n in accepted || tmp[n].Torn? then accepted else accepted[n := tmp[n].record.payload];
          tmp := tmp - {n};
        }
        opsLeft := opsLeft - 1;
      }
    }

    method UnlinkFile(n: Name)
      modifies this
      ensures Ran([Unlink(n)])
    {
      if opsLeft > 0 {
        json := json - {n};
        opsLeft := opsLeft - 1;
      }
    }

    method WriteQuarantineFile(n: Name, entry: QuarantineFile)
      modifies this
      ensures Ran([WriteQuarantine(n, entry)])
    {
      if opsLeft > 0 {
        quarantine := quarantine[n := entry];
        opsLeft := opsLeft - 1;
      }
    }

    method PostEvent(post: Post)
      modifies this
      ensures Ran([Send(post)])
    {
      if opsLeft > 0 {
        posts := posts + [post];
        opsLeft := opsLeft - 1;
      }
    }

    /** Writing is two steps: the file exists, then it is complete. */
    method AtomicWriteFile(n: Name, record: Record)
      modifies this
      ensures Ran(AtomicWrite(n, record))
    {
      hide Execute, Left;
      ghost var w, k := Directory(), opsLeft;
      WriteTmpFile(n, Torn);
      WriteTmpFile(n, Whole(record));
      ReplaceFile(n);
      Three(w, WriteTmp(n, Torn), WriteTmp(n, Whole(record)), OutboxModel.Replace(n), k);
    }

    method EnqueueEvent(n: Name, payload: Payload, now: real)
      modifies this
      ensures Ran(EnqueuePlan(n, payload, now))
    {
      AtomicWriteFile(n, Record(payload, 0, None, now));
    }

    method QuarantineEvent(n: Name, reason: Reason, read: Reading) returns (raised: bool)
      modifies this
      ensures Ran(QuarantinePlan(old(Directory()), n, reason, read))
      ensures raised == (n in old(json) && read.Garbled?)
    {
      raised := n in json && read.Garbled?;
      if n !in json || raised {
        return;
      }
      hide Execute, Left;
      ghost var w, k := Directory(), opsLeft;
      var payload := if read.Good? && json[n].Whole? then Some(json[n].record.payload) else None;
      WriteQuarantineFile(n, TornQuarantine);
      WriteQuarantineFile(n, Quarantined(payload, reason));
      UnlinkFile(n);
      Three(w, WriteQuarantine(n, TornQuarantine), WriteQuarantine(n, Quarantined(payload, reason)), Unlink(n), k);
    }

    /** Read and parse; a file that cannot be is moved aside, unless its text is not
        UTF-8, which raises here or there. */
    method Load(n: Name, read: Reading, quarantineRead: Reading) returns (loading: Loading)
      modifies this
      ensures Ran(LoadPlan(old(Directory()), n, read, quarantineRead))
      ensures loading == LoadOf(old(Directory()), n, read, quarantineRead)
    {
      if n in json && json[n].Whole? && read.Good? {
        return Loaded(json[n].record);
      }
      if n in json && read.Garbled? {
        return Raised;
      }
      var raised := QuarantineEvent(n, CorruptJson, quarantineRead);
      return if raised then Raised else NotLoaded;
    }

    method MarkAttempt(n: Name, r: Reply)
      modifies this
      ensures Ran(MarkPlan(old(Directory()), n, r))
    {
      hide Execute, Left, Backoff, QuarantinePlan;
      var loading := Load(n, r.markRead, r.quarantineRead);
      if !loading.Loaded? {
        return;
      }
      var record := loading.record;
      ghost var w := Directory();
      Nothing(old(Directory()), old(opsLeft));
      var attempts := record.attempts + 1;
      if attempts > MAX_EXPONENT {
        return;
      }
      var backoff := Backoff(attempts, r.jitter, r.outcome.AuthFailure?);
      AtomicWriteFile(n, record.(attempts := attempts, nextAttemptAt := Some(r.markedAt + backoff)));
    }

    /** One entry: read it, post it if it is due, act on the answer. What raises ends
        this delivery only. */
    method DeliverOne(n: Name, r: Reply) returns (gone: Option<int>)
      modifies this
      ensures Ran(DeliverPlan(old(Directory()), n, r))
      ensures gone == GoneOf(old(Directory()), n, r)
    {
      hide Execute, Left, Backoff, QuarantinePlan, MarkPlan;
      ghost var w, k := Directory(), opsLeft;
      var loading := Load(n, r.loadRead, r.quarantineRead);
      if !loading.Loaded? {
        return None;
      }
      var record := loading.record;
      Nothing(w, k);
      if !Due(record, r.now) {
        return None;
      }
      var post := Post(n, record.payload, r.now, r.outcome);
      PostEvent(post);
      ghost var w1, k1 := Directory(), opsLeft;
      ExecuteConcat(w, [Send(post)], OutcomePlan(w, n, r), k);
      PlanAfterSend(w, post, n, r, k);
      gone := None;
      match r.outcome {
        case Acknowledged => UnlinkFile(n);
        case Conflict => UnlinkFile(n);
        case CameraGone =>
          UnlinkFile(n);
          gone := Some(record.payload.cameraId);
        case AuthFailure => MarkAttempt(n, r);
        case QuarantineIt =>
          var _ := QuarantineEvent(n, ValidationRejected, r.quarantineRead);
        case Retry => MarkAttempt(n, r);
      }
    }

    method Pending() returns (names: seq<Name>)
      ensures Listing(names, Directory())
      ensures forall i, j :: 0 <= i < j < |names| ==> names[i].stamp <= names[j].stamp
    {
      names := [];
      var rest := json.Keys;
      while rest != {}
        invariant Sorting(names, rest, json.Keys)
        decreases |rest|
      {
        hide Sorting, Oldest;
        OldestExists(rest);
        var n :| n in rest && Oldest(n, rest);
        SortingNext(names, rest, json.Keys, n);
        names := names + [n];
        rest := rest - {n};
      }
      assert (set n | n in names) + rest == (set n | n in names);
    }

    /** The cameras with a readable event pending; unreadable files are moved
        aside on the way. A file whose text is not UTF-8 ends the scan, and there is
        no answer. */
    method PendingCameraIds(read: Name -> Reading, quarantineRead: Name -> Reading)
      returns (answer: Option<set<int>>, ghost names: seq<Name>)
      modifies this
      ensures Listing(names, old(Directory()))
      ensures var calls := ScansDone(old(Directory()), names, read, quarantineRead);
              && Directory() == WorldAfter(old(Directory()), calls, old(opsLeft))
              && opsLeft == OpsAfter(old(Directory()), calls, old(opsLeft))
      ensures answer == if ScanRaises(old(Directory()), read, quarantineRead) then None
                        else Some(ReadableCameras(old(Directory()), read))
    {
      hide Execute, Left, LoadPlan, LoadOf, Loads, CamerasOf, ReadableCameras, Listing, ScanEnd, ScanRaises, WorldAfter,
        OpsAfter;
      ghost var w, k := Directory(), opsLeft;
      var paths := Pending();
      names := paths;
      ghost var calls := Scans(names, read, quarantineRead);
      var ids := {};
      assert calls[..0] == [] && paths[..0] == [];
      ListedOnce(w, paths, read);
      NoCalls(w, k);
      for i := 0 to |paths|
        invariant Directory() == WorldAfter(w, calls[..i], k) && opsLeft == OpsAfter(w, calls[..i], k)
        invariant ids == CamerasOf(w, paths[..i], read)
        invariant i <= ScanEnd(w, paths, read, quarantineRead)
      {
        ScanNext(w, paths, i, read, quarantineRead, k);
        var loading := Load(paths[i], read(paths[i]), quarantineRead(paths[i]));
        match loading
        case Loaded(record) => ids := ids + {record.payload.cameraId};
        case NotLoaded =>
        case Raised =>
          RaisingScan(w, paths, read, quarantineRead);
          return None, names;
      }
      assert calls[..|paths|] == calls && paths[..|paths|] == paths;
      RaisingScan(w, paths, read, quarantineRead);
      ListedCameras(w, paths, read);
      answer := Some(ids);
    }

    /** One oldest-first pass over what is pending at its start. */
    method RunDeliveryCycle(reply: Name -> Reply) returns (gone: seq<Option<int>>, ghost names: seq<Name>)
      modifies this
      ensures Listing(names, old(Directory())) && |gone| == |names|
      ensures Directory() == WorldAfter(old(Directory()), Deliveries(names, reply), old(opsLeft))
      ensures opsLeft == OpsAfter(old(Directory()), Deliveries(names, reply), old(opsLeft))
      ensures forall i :: 0 <= i < |names| ==>
                gone[i] == GoneOf(WorldAfter(old(Directory()), Deliveries(names, reply)[..i], old(opsLeft)),
                                  names[i], reply(names[i]))
    {
      hide Execute, Left, DeliverPlan, GoneOf, Listing, WorldAfter, OpsAfter;
      ghost var w, k := Directory(), opsLeft;
      var paths := Pending();
      names := paths;
      ghost var calls := Deliveries(names, reply);
      gone := [];
      assert calls[..0] == [];
      NoCalls(w, k);
      for i := 0 to |paths|
        invariant Directory() == WorldAfter(w, calls[..i], k) && opsLeft == OpsAfter(w, calls[..i], k)
        invariant |gone| == i
        invariant forall j :: 0 <= j < i ==>
                    gone[j] == GoneOf(WorldAfter(w, calls[..j], k), names[j], reply(names[j]))
      {
        CallsNext(w, calls, k, i);
        var one := DeliverOne(paths[i], reply(paths[i]));
        gone := gone + [one];
      }
      assert calls[..|paths|] == calls;
    }
  }
}
