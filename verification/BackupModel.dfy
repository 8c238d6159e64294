/** Backup publication and retention (backend/app/maintenance/backup.py) as file
    operations, each of which may raise, and any of which may be the last before
    the process stops. */
module BackupModel {
  datatype Origin = Scheduled | Manual | PreRestore | OtherOrigin

  datatype Tier = Protected | Degraded | OtherTier

  /** What a record's checks amount to; reading them may itself raise something
      other than an operating-system error (checks that are null, an id that is a
      list). */
  datatype Checks = Passed | Missed | Broken

  /** `createdAt` orders like the timestamps; an id that is not 32 hexadecimal
      digits is negative; `explicit` is false for records older than the tiers. */
  datatype Manifest = Manifest(backupId: int, createdAt: int, origin: Origin, tier: Tier, explicit: bool,
                               checks: Checks)

  /** A manifest file as a listing finds it: a record, one that is skipped, or one
      that makes the listing raise something other than an operating-system
      error (text that is not UTF-8, timestamps that do not compare). */
  datatype Entry = Point(record: Manifest) | Skipped | Malformed

  datatype Status = Requested | InProgress | DbRestored | Finished

  /** The state file: none or skipped as unreadable, a state, or one whose reading
      raises something other than an operating-system error (text that is not
      UTF-8, a status that is a list). */
  datatype RestoreState = NoState | State(status: Status, ids: set<int>) | Unusable

  /** One artifact directory, its files by id. */
  datatype Root = Root(db: set<int>, tmp: set<int>, manifests: map<int, Entry>, manifestTmp: set<int>,
                       restore: RestoreState)

  datatype FileOp =
    | UnlinkTmp(id: int)
    | WriteTmp(id: int)
    | ReplaceDb(id: int)
    | WriteManifestTmp(id: int)
    | ReplaceManifest(id: int, record: Manifest)
    | UnlinkDb(id: int)
    | UnlinkManifest(id: int)
    | UnlinkManifestTmp(id: int)

  function ApplyOp(r: Root, op: FileOp): Root {
    match op
    case UnlinkTmp(id) => r.(tmp := r.tmp - {id})
    case WriteTmp(id) => r.(tmp := r.tmp + {id})
    case ReplaceDb(id) => r.(tmp := r.tmp - {id}, db := r.db + {id})
    case WriteManifestTmp(id) => r.(manifestTmp := r.manifestTmp + {id})
    case ReplaceManifest(id, m) => r.(manifestTmp := r.manifestTmp - {id}, manifests := r.manifests[id := Point(m)])
    case UnlinkDb(id) => r.(db := r.db - {id})
    case UnlinkManifest(id) => r.(manifests := r.manifests - {id})
    case UnlinkManifestTmp(id) => r.(manifestTmp := r.manifestTmp - {id})
  }

  /** The first `k` operations of a plan. */
  function Do(r: Root, plan: seq<FileOp>, k: nat): Root
    decreases |plan|
  {
    if plan == [] || k == 0 then r else Do(ApplyOp(r, plan[0]), plan[1..], k - 1)
  }

  lemma {:induction false} DoConcat(r: Root, a: seq<FileOp>, b: seq<FileOp>, k: nat)
    ensures Do(r, a + b, k) == Do(Do(r, a, k), b, if k <= |a| then 0 else k - |a|)
    decreases |a|
  {
    if a == [] {
      assert a + b == b;
    } else if k > 0 {
      assert (a + b)[1..] == a[1..] + b;
      DoConcat(ApplyOp(r, a[0]), a[1..], b, k - 1);
    }
  }

  function Fewer(a: nat, b: nat): nat {
    if a <= b then a else b
  }

  // -- publishing -----------------------------------------------------------------

  /** How far one try gets before an operation raises, and how far the cleanup
      after that gets. */
  datatype Io = Io(done: nat, cleaned: nat)

  function PublishPlan(id: int, m: Manifest): seq<FileOp> {
    [UnlinkTmp(id), WriteTmp(id), ReplaceDb(id), WriteManifestTmp(id), ReplaceManifest(id, m)]
  }

  function CleanupPlan(id: int, published: bool): seq<FileOp> {
    [UnlinkTmp(id)] + if published then [UnlinkDb(id), UnlinkManifest(id), UnlinkManifestTmp(id)] else []
  }

  /** The directory, whether the call returned, and what is left of the operations
      before the process stops. */
  datatype Written = Written(root: Root, ok: bool, left: nat)

  function PerformWrite(r: Root, m: Manifest, io: Io, left: nat): Written {
    var plan := PublishPlan(m.backupId, m);
    var n := Fewer(Fewer(io.done, |plan|), left);
    var r1 := Do(r, plan, n);
    if m.origin.OtherOrigin? then Written(r, false, left)
    else if io.done >= |plan| then Written(r1, true, left - n)
    else
      var cleanup := CleanupPlan(m.backupId, io.done >= 3);
      var c := Fewer(Fewer(io.cleaned, |cleanup|), left - n);
      Written(Do(r1, cleanup, c), false, left - n - c)
  }

  lemma Unfold5(r: Root, a: FileOp, b: FileOp, c: FileOp, d: FileOp, e: FileOp, k: nat)
    ensures Do(r, [a, b, c, d, e], k)
         == if k == 0 then r else Do(ApplyOp(r, a), [b, c, d, e], k - 1)
  {
    assert [a, b, c, d, e][1..] == [b, c, d, e];
  }

  lemma Unfold4(r: Root, a: FileOp, b: FileOp, c: FileOp, d: FileOp, k: nat)
    ensures Do(r, [a, b, c, d], k)
         == if k == 0 then r
            else if k == 1 then ApplyOp(r, a)
            else if k == 2 then ApplyOp(ApplyOp(r, a), b)
            else if k == 3 then ApplyOp(ApplyOp(ApplyOp(r, a), b), c)
            else ApplyOp(ApplyOp(ApplyOp(ApplyOp(r, a), b), c), d)
  {
    hide ApplyOp;
    if k > 0 {
      var r1 := ApplyOp(r, a);
      assert [a, b, c, d][1..] == [b, c, d];
      assert Do(r, [a, b, c, d], k) == Do(r1, [b, c, d], k - 1);
      if k > 1 {
        var r2 := ApplyOp(r1, b);
        assert [b, c, d][1..] == [c, d];
        assert Do(r1, [b, c, d], k - 1) == Do(r2, [c, d], k - 2);
        if k > 2 {
          var r3 := ApplyOp(r2, c);
          assert [c, d][1..] == [d];
          assert Do(r2, [c, d], k - 2) == Do(r3, [d], k - 3);
          if k > 3 {
            assert [d][1..] == [];
            assert Do(r3, [d], k - 3) == Do(ApplyOp(r3, d), [], k - 4);
          }
        }
      }
    }
  }

  lemma PublishSteps(r: Root, id: int, m: Manifest, k: nat)
    ensures var r' := Do(r, PublishPlan(id, m), k);
            && r'.manifests == (if k >= 5 then r.manifests[id := Point(m)] else r.manifests)
            && r'.db == (if k >= 3 then r.db + {id} else r.db)
            && r'.restore == r.restore
  {
    Unfold5(r, UnlinkTmp(id), WriteTmp(id), ReplaceDb(id), WriteManifestTmp(id), ReplaceManifest(id, m), k);
    if k > 0 {
      Unfold4(ApplyOp(r, UnlinkTmp(id)), WriteTmp(id), ReplaceDb(id), WriteManifestTmp(id), ReplaceManifest(id, m),
              k - 1);
    }
  }

  lemma CleanupSteps(r: Root, id: int, published: bool, k: nat)
    ensures var r' := Do(r, CleanupPlan(id, published), k);
            && r'.restore == r.restore
            && (r'.manifests == r.manifests || r'.manifests == r.manifests - {id})
            && (r'.db == r.db || r'.db == r.db - {id})
            && (k >= 4 && published ==> id !in r'.db && id !in r'.tmp && id !in r'.manifestTmp)
            && (k >= 1 ==> id !in r'.tmp)
  {
    if published {
      assert CleanupPlan(id, true) == [UnlinkTmp(id), UnlinkDb(id), UnlinkManifest(id), UnlinkManifestTmp(id)];
      Unfold4(r, UnlinkTmp(id), UnlinkDb(id), UnlinkManifest(id), UnlinkManifestTmp(id), k);
    } else {
      assert CleanupPlan(id, false) == [UnlinkTmp(id)];
      if k > 0 {
        assert [UnlinkTmp(id)][1..] == [];
        assert Do(r, [UnlinkTmp(id)], k) == Do(ApplyOp(r, UnlinkTmp(id)), [], k - 1);
      }
    }
  }

  lemma PublishLengths(id: int, m: Manifest, published: bool)
    ensures |PublishPlan(id, m)| == 5 && |CleanupPlan(id, published)| == if published then 4 else 1
  {
  }

  /** Wherever it raises or stops, a publication leaves the manifests as they were
      or has published exactly its own point with its database in place; the
      other databases are untouched. It returns only with the point published,
      unless the process stopped; a failure whose cleanup completed leaves
      nothing of the attempt. */
  lemma PublishIsAtomic(r: Root, m: Manifest, io: Io, left: nat)
    requires m.backupId !in r.manifests && m.backupId !in r.db
    ensures var w := PerformWrite(r, m, io, left);
            && (w.root.manifests == r.manifests
                || (w.ok && w.root.manifests == r.manifests[m.backupId := Point(m)] && m.backupId in w.root.db))
            && (w.root.db == r.db || w.root.db == r.db + {m.backupId}) && w.root.restore == r.restore
            && (w.ok && left >= 5 ==> w.root.manifests == r.manifests[m.backupId := Point(m)])
            && (!w.ok && io.cleaned >= 4 && left >= 9 && !m.origin.OtherOrigin? ==>
                  w.root.db == r.db && m.backupId !in w.root.tmp
                  && (io.done >= 3 ==> m.backupId !in w.root.manifestTmp))
  {
    hide PublishPlan, CleanupPlan, Do;
    var id := m.backupId;
    PublishLengths(id, m, io.done >= 3);
    var n := Fewer(Fewer(io.done, 5), left);
    PublishSteps(r, id, m, n);
    if !m.origin.OtherOrigin? && io.done < 5 {
      var r1 := Do(r, PublishPlan(id, m), n);
      var c := Fewer(Fewer(io.cleaned, |CleanupPlan(id, io.done >= 3)|), left - n);
      CleanupSteps(r1, id, io.done >= 3, c);
      assert r.manifests - {id} == r.manifests;
    }
  }

  // -- retention --------------------------------------------------------------------

  datatype Retention = Retention(daily: int, manual: int)

  predicate Listed(r: Root, f: int) {
    f in r.manifests && r.manifests[f].Point?
  }

  predicate Unlistable(r: Root) {
    exists f :: f in r.manifests && r.manifests[f].Malformed?
  }

  predicate IsBroken(r: Root, f: int, origin: Origin, tier: Tier) {
    Listed(r, f) && r.manifests[f].record.origin == origin && r.manifests[f].record.tier == tier
    && r.manifests[f].record.checks.Broken?
  }

  /** A record whose checks cannot be read, and which retention of this origin and
      tier does read. */
  predicate Breaks(r: Root, origin: Origin, tier: Tier) {
    exists f :: f in r.manifests && IsBroken(r, f, origin, tier)
  }

  /** Something in the directory can make retention raise other than an
      operating-system error. */
  predicate CanRaise(r: Root, tier: Tier) {
    r.restore.Unusable? || Unlistable(r) || Breaks(r, Scheduled, tier) || Breaks(r, Manual, tier)
  }

  predicate NotOlder(r: Root, a: int, b: int) {
    Listed(r, a) && Listed(r, b) && r.manifests[a].record.createdAt >= r.manifests[b].record.createdAt
  }

  /** A listing holds every readable manifest once, newest first; ties come in any
      order. */
  ghost predicate Listing(r: Root, order: seq<int>) {
    && (forall f :: f in order <==> Listed(r, f))
    && (forall i, j :: 0 <= i < j < |order| ==> order[i] != order[j] && NotOlder(r, order[i], order[j]))
  }

  /** The points an active restore has named, as this directory's state file
      says. */
  function ActiveIds(r: Root): set<int> {
    if r.restore.State? && !r.restore.status.Finished? then r.restore.ids else {}
  }

  predicate Eligible(m: Manifest, origin: Origin, tier: Tier, protectedIds: set<int>) {
    && m.origin == origin && m.tier == tier && m.checks.Passed? && m.backupId !in protectedIds
    && (!tier.Degraded? || m.explicit) && m.backupId >= 0
  }

  function Candidates(r: Root, order: seq<int>, origin: Origin, tier: Tier, ids: set<int>): seq<int> {
    if order == [] then []
    else
      var front, f := Candidates(r, order[..|order| - 1], origin, tier, ids), order[|order| - 1];
      if Listed(r, f) && Eligible(r.manifests[f].record, origin, tier, ids) then front + [f] else front
  }

  /** Where a Python slice that starts at `keep` starts. */
  function StartOf(keep: int, length: nat): nat {
    if keep >= length then length else if keep >= 0 then keep else if length + keep >= 0 then length + keep else 0
  }

  function Beyond(files: seq<int>, keep: int): seq<int> {
    files[StartOf(keep, |files|)..]
  }

  function Ids(r: Root, files: seq<int>): (ids: seq<int>)
    ensures |ids| == |files|
    ensures forall i :: 0 <= i < |files| && Listed(r, files[i]) ==> ids[i] == r.manifests[files[i]].record.backupId
  {
    seq(|files|, i requires 0 <= i < |files| =>
      if Listed(r, files[i]) then r.manifests[files[i]].record.backupId else files[i])
  }

  function KeepOf(retention: Retention, origin: Origin): int {
    if origin.Scheduled? then retention.daily else retention.manual
  }

  function StaleOf(r: Root, order: seq<int>, retention: Retention, origin: Origin, tier: Tier,
                   ids: set<int>): seq<int> {
    Beyond(Candidates(r, order, origin, tier, ids), KeepOf(retention, origin))
  }

  /** The ids retention removes: the scheduled ones, then, if the manual records can
      be read, the manual ones. */
  function StaleIds(r: Root, order: seq<int>, retention: Retention, tier: Tier, ids: set<int>): seq<int> {
    Ids(r, StaleOf(r, order, retention, Scheduled, tier, ids))
    + (if Breaks(r, Manual, tier) then [] else Ids(r, StaleOf(r, order, retention, Manual, tier, ids)))
  }

  ghost predicate Descending(r: Root, files: seq<int>) {
    forall i, j :: 0 <= i < j < |files| ==> files[i] != files[j] && NotOlder(r, files[i], files[j])
  }

  lemma {:induction false} CandidatesAre(r: Root, order: seq<int>, origin: Origin, tier: Tier, ids: set<int>)
    requires forall i, j :: 0 <= i < j < |order| ==> order[i] != order[j] && NotOlder(r, order[i], order[j])
    ensures var c := Candidates(r, order, origin, tier, ids);
            && (forall f :: f in c <==>
                  f in order && Listed(r, f) && Eligible(r.manifests[f].record, origin, tier, ids))
            && Descending(r, c)
  {
    if order != [] {
      hide Eligible;
      var front, f := order[..|order| - 1], order[|order| - 1];
      CandidatesAre(r, front, origin, tier, ids);
      assert forall g :: g in order <==> g in front || g == f;
      var c := Candidates(r, front, origin, tier, ids);
      forall i | 0 <= i < |c|
        ensures c[i] != f && NotOlder(r, c[i], f)
      {
        assert c[i] in front;
        var k :| 0 <= k < |front| && front[k] == c[i];
        assert order[k] == c[i];
      }
    }
  }

  /** File names follow the ids inside, as every publication makes them. */
  predicate WellNamed(r: Root) {
    forall f :: f in r.manifests && r.manifests[f].Point? ==> r.manifests[f].record.backupId == f
  }

  ghost predicate IsEligible(r: Root, f: int, origin: Origin, tier: Tier, ids: set<int>) {
    Listed(r, f) && Eligible(r.manifests[f].record, origin, tier, ids)
  }

  lemma DescendingCandidates(r: Root, order: seq<int>, origin: Origin, tier: Tier, ids: set<int>)
    requires Listing(r, order)
    ensures Descending(r, Candidates(r, order, origin, tier, ids))
  {
    hide Eligible;
    CandidatesAre(r, order, origin, tier, ids);
  }

  lemma Split(r: Root, c: seq<int>, start: nat)
    requires start <= |c| && Descending(r, c)
    ensures forall a, b :: a in c[..start] && b in c[start..] ==> a != b && NotOlder(r, a, b)
    ensures forall f :: f in c <==> f in c[..start] || f in c[start..]
    ensures forall i, j :: 0 <= i < j < |c| ==> c[i] != c[j]
  {
    hide NotOlder;
    assert c == c[..start] + c[start..];
    forall a, b | a in c[..start] && b in c[start..]
      ensures a != b && NotOlder(r, a, b)
    {
      var i :| 0 <= i < start && c[i] == a;
      var j :| 0 <= j < |c| - start && c[start..][j] == b;
      assert c[start + j] == b;
    }
  }

  function SetOf(ids: seq<int>): set<int> {
    set id | id in ids
  }

  lemma {:induction false} DistinctSize(s: seq<int>)
    requires forall i, j :: 0 <= i < j < |s| ==> s[i] != s[j]
    ensures |SetOf(s)| == |s|
  {
    if s != [] {
      var front, last := s[..|s| - 1], s[|s| - 1];
      DistinctSize(front);
      assert SetOf(s) == SetOf(front) + {last};
      assert last !in SetOf(front);
    }
  }

  /** Dropping a newest-first list from `start` on keeps the newest. */
  lemma NewestStay(r: Root, c: seq<int>, start: nat)
    requires start <= |c| && Descending(r, c)
    ensures var all, stale := SetOf(c), SetOf(c[start..]);
            && stale <= all && |all| == |c| && |all - stale| == start
            && forall a, b :: a in all - stale && b in stale ==> NotOlder(r, a, b)
  {
    hide NotOlder;
    Split(r, c, start);
    assert SetOf(c) - SetOf(c[start..]) == SetOf(c[..start]);
    DistinctSize(c);
    DistinctSize(c[..start]);
  }

  lemma EligibleAre(r: Root, order: seq<int>, origin: Origin, tier: Tier, ids: set<int>)
    requires Listing(r, order)
    ensures forall f :: f in Candidates(r, order, origin, tier, ids) <==>
              f in r.manifests && IsEligible(r, f, origin, tier, ids)
  {
    hide Eligible;
    CandidatesAre(r, order, origin, tier, ids);
  }

  /** Retention removes, of each origin, exactly the eligible points beyond the
      newest `keep`: what it removes is eligible, no eligible point it leaves is
      older than one it removes, and it leaves `keep` of them, or all there are. */
  lemma RetentionIsExact(r: Root, order: seq<int>, retention: Retention, origin: Origin, tier: Tier,
                         ids: set<int>)
    requires Listing(r, order)
    ensures var stale := set f | f in StaleOf(r, order, retention, origin, tier, ids);
            var all := set f | f in r.manifests && IsEligible(r, f, origin, tier, ids);
            && stale <= all
            && (forall a, b :: a in all - stale && b in stale ==> NotOlder(r, a, b))
            && (KeepOf(retention, origin) >= 0 ==> |all - stale| == Fewer(KeepOf(retention, origin), |all|))
  {
    hide Eligible, KeepOf, Listed, NotOlder, Listing, IsEligible;
    var c := Candidates(r, order, origin, tier, ids);
    DescendingCandidates(r, order, origin, tier, ids);
    EligibleAre(r, order, origin, tier, ids);
    NewestStay(r, c, StartOf(KeepOf(retention, origin), |c|));
    var all := set f | f in r.manifests && IsEligible(r, f, origin, tier, ids);
    assert all == SetOf(c);
    assert (set f | f in StaleOf(r, order, retention, origin, tier, ids))
        == SetOf(c[StartOf(KeepOf(retention, origin), |c|)..]);
  }

  // -- removing ------------------------------------------------------------------------

  function RemovePlan(ids: seq<int>): seq<FileOp> {
    if ids == [] then [] else RemovePlan(ids[..|ids| - 1]) + [UnlinkDb(ids[|ids| - 1]), UnlinkManifest(ids[|ids| - 1])]
  }

  lemma PairSteps(r: Root, id: int, k: nat)
    ensures Do(r, [UnlinkDb(id), UnlinkManifest(id)], k)
         == if k == 0 then r
            else if k == 1 then r.(db := r.db - {id})
            else r.(db := r.db - {id}, manifests := r.manifests - {id})
  {
    var pair := [UnlinkDb(id), UnlinkManifest(id)];
    assert pair[1..] == [UnlinkManifest(id)] && pair[1..][1..] == [];
    if k > 0 {
      assert Do(r, pair, k) == Do(ApplyOp(r, pair[0]), pair[1..], k - 1);
      if k > 1 {
        assert Do(ApplyOp(r, pair[0]), pair[1..], k - 1)
            == Do(ApplyOp(ApplyOp(r, pair[0]), UnlinkManifest(id)), [], k - 2);
      }
    }
  }

  lemma RemovedMore(ids: seq<int>, k: nat)
    requires ids != []
    ensures var front, id := ids[..|ids| - 1], ids[|ids| - 1];
            forall half: nat ::
              SetOf(ids[..Fewer(half, |ids|)])
              == SetOf(front[..Fewer(half, |front|)]) + if half >= |ids| then {id} else {}
  {
    var front, id := ids[..|ids| - 1], ids[|ids| - 1];
    forall half: nat
      ensures SetOf(ids[..Fewer(half, |ids|)])
           == SetOf(front[..Fewer(half, |front|)]) + if half >= |ids| then {id} else {}
    {
      if half >= |ids| {
        assert ids[..|ids|] == front + [id] && front[..|front|] == front;
      } else {
        assert ids[..half] == front[..half];
      }
    }
  }

  /** Removing is two steps an id, the database first: cut anywhere, it has taken
      the manifests of the first so many ids and nothing else. */
  lemma {:induction false} RemoveSteps(r: Root, ids: seq<int>, k: nat)
    ensures |RemovePlan(ids)| == 2 * |ids|
    ensures var n, r' := Fewer(k / 2, |ids|), Do(r, RemovePlan(ids), k);
            && r'.manifests == r.manifests - SetOf(ids[..n])
            && r'.db == r.db - SetOf(ids[..Fewer((k + 1) / 2, |ids|)])
            && r'.tmp == r.tmp && r'.manifestTmp == r.manifestTmp && r'.restore == r.restore
  {
    if ids == [] {
      assert SetOf(ids[..0]) == {};
    } else {
      var front, id := ids[..|ids| - 1], ids[|ids| - 1];
      RemoveSteps(r, front, k);
      var pair := [UnlinkDb(id), UnlinkManifest(id)];
      DoConcat(r, RemovePlan(front), pair, k);
      var r1 := Do(r, RemovePlan(front), k);
      var rest := if k <= 2 * |front| then 0 else k - 2 * |front|;
      PairSteps(r1, id, rest);
      RemovedMore(ids, k);
    }
  }

  datatype PruneEnd = Pruned | OsError | OtherError

  /** Whether the directory can be listed at all, the order found, and how many
      removals work before one raises. */
  datatype PruneIo = PruneIo(listed: bool, order: seq<int>, done: nat)

  datatype PruneRun = PruneRun(root: Root, end: PruneEnd, left: nat)

  /** Nothing raises before the first removal. */
  predicate Starts(r: Root, tier: Tier, io: PruneIo) {
    !r.restore.Unusable? && io.listed && !Unlistable(r) && !Breaks(r, Scheduled, tier)
  }

  function Prune(r: Root, retention: Retention, tier: Tier, io: PruneIo, left: nat): PruneRun {
    if r.restore.Unusable? then PruneRun(r, OtherError, left)
    else if !io.listed then PruneRun(r, OsError, left)
    else if Unlistable(r) || Breaks(r, Scheduled, tier) then PruneRun(r, OtherError, left)
    else
      var plan := RemovePlan(StaleIds(r, io.order, retention, tier, ActiveIds(r)));
      var n := Fewer(Fewer(io.done, |plan|), left);
      PruneRun(Do(r, plan, n),
               if io.done < |plan| then OsError else if Breaks(r, Manual, tier) then OtherError else Pruned,
               left - n)
  }

  /** The ids whose manifests are gone when pruning ends or is cut. */
  function Taken(r: Root, retention: Retention, tier: Tier, io: PruneIo, left: nat): set<int> {
    if !Starts(r, tier, io) then {}
    else
      var ids := StaleIds(r, io.order, retention, tier, ActiveIds(r));
      SetOf(ids[..Fewer(Fewer(io.done, 2 * |ids|), left) / 2])
  }

  /** Retention raises other than an operating-system error: at once, or at the
      manual records after the scheduled points are gone. */
  predicate RaisesOtherwise(r: Root, retention: Retention, tier: Tier, io: PruneIo) {
    || r.restore.Unusable?
    || (io.listed
        && (|| Unlistable(r) || Breaks(r, Scheduled, tier)
            || (Breaks(r, Manual, tier)
                && io.done >= 2 * |StaleOf(r, io.order, retention, Scheduled, tier, ActiveIds(r))|)))
  }

  /** Retention runs to its end. */
  predicate Completes(r: Root, retention: Retention, tier: Tier, io: PruneIo) {
    && Starts(r, tier, io) && !Breaks(r, Manual, tier)
    && io.done >= 2 * |StaleIds(r, io.order, retention, tier, ActiveIds(r))|
  }

  /** What a pruning takes and how it ends. */
  lemma PruneEnds(r: Root, retention: Retention, tier: Tier, io: PruneIo, left: nat)
    ensures var p := Prune(r, retention, tier, io, left);
            && p.root.manifests == r.manifests - Taken(r, retention, tier, io, left)
            && (p.end.OtherError? <==> RaisesOtherwise(r, retention, tier, io))
            && (p.end.Pruned? <==> Completes(r, retention, tier, io))
  {
    hide Do, RemovePlan, Breaks, Unlistable, StaleOf;
    if Starts(r, tier, io) {
      var ids := StaleIds(r, io.order, retention, tier, ActiveIds(r));
      RemoveSteps(r, ids, Fewer(Fewer(io.done, 2 * |ids|), left));
    }
  }

  lemma {:induction false} OnlyEligible(r: Root, order: seq<int>, origin: Origin, tier: Tier, ids: set<int>)
    ensures forall f :: f in Candidates(r, order, origin, tier, ids) ==> IsEligible(r, f, origin, tier, ids)
  {
    if order != [] {
      hide Eligible;
      OnlyEligible(r, order[..|order| - 1], origin, tier, ids);
    }
  }

  lemma StaleIsEligible(r: Root, order: seq<int>, retention: Retention, tier: Tier, id: int)
    requires WellNamed(r) && id in StaleIds(r, order, retention, tier, ActiveIds(r))
    ensures IsEligible(r, id, Scheduled, tier, ActiveIds(r)) || IsEligible(r, id, Manual, tier, ActiveIds(r))
  {
    hide Eligible;
    var ids := ActiveIds(r);
    OnlyEligible(r, order, Scheduled, tier, ids);
    OnlyEligible(r, order, Manual, tier, ids);
    var a, b := StaleOf(r, order, retention, Scheduled, tier, ids), StaleOf(r, order, retention, Manual, tier, ids);
    var k :| 0 <= k < |StaleIds(r, order, retention, tier, ids)| && StaleIds(r, order, retention, tier, ids)[k] == id;
    if k < |a| {
      assert a[k] in Candidates(r, order, Scheduled, tier, ids);
    } else {
      assert b[k - |a|] in Candidates(r, order, Manual, tier, ids);
    }
  }

  /** However far pruning gets: it only takes points away, every one of them
      eligible under this directory's own state file, so never a pre-restore, an
      invalid or a legacy local point, nor one named by an active restore here;
      databases go only for the same ids. */
  lemma PruneTakesOnlyEligible(r: Root, retention: Retention, tier: Tier, io: PruneIo, left: nat)
    requires WellNamed(r)
    ensures var p := Prune(r, retention, tier, io, left);
            && p.root.restore == r.restore
            && p.root.manifests.Keys <= r.manifests.Keys
            && (forall f :: f in p.root.manifests ==> p.root.manifests[f] == r.manifests[f])
            && (forall f :: f in r.manifests && f !in p.root.manifests ==>
                  IsEligible(r, f, Scheduled, tier, ActiveIds(r)) || IsEligible(r, f, Manual, tier, ActiveIds(r)))
            && p.root.db <= r.db
            && (forall f :: f in r.db && f !in p.root.db ==>
                  IsEligible(r, f, Scheduled, tier, ActiveIds(r)) || IsEligible(r, f, Manual, tier, ActiveIds(r)))
  {
    if Starts(r, tier, io) {
      hide Eligible, StaleOf, Do, RemovePlan, Unlistable, Breaks;
      var ids := StaleIds(r, io.order, retention, tier, ActiveIds(r));
      var n := Fewer(Fewer(io.done, |RemovePlan(ids)|), left);
      RemoveSteps(r, ids, n);
      forall id | id in ids
        ensures IsEligible(r, id, Scheduled, tier, ActiveIds(r)) || IsEligible(r, id, Manual, tier, ActiveIds(r))
      {
        StaleIsEligible(r, io.order, retention, tier, id);
      }
    }
  }

  lemma StaleNames(r: Root, order: seq<int>, retention: Retention, origin: Origin, tier: Tier)
    requires WellNamed(r) && Listing(r, order)
    ensures Ids(r, StaleOf(r, order, retention, origin, tier, ActiveIds(r)))
         == StaleOf(r, order, retention, origin, tier, ActiveIds(r))
  {
    hide Eligible;
    var stale := StaleOf(r, order, retention, origin, tier, ActiveIds(r));
    EligibleAre(r, order, origin, tier, ActiveIds(r));
    forall i | 0 <= i < |stale|
      ensures Ids(r, stale)[i] == stale[i]
    {
      assert stale[i] in Candidates(r, order, origin, tier, ActiveIds(r));
    }
  }

  /** Pruning that is not interrupted takes exactly what retention says. */
  lemma PruneIsExact(r: Root, retention: Retention, tier: Tier, io: PruneIo, left: nat)
    requires WellNamed(r) && !CanRaise(r, tier) && io.listed && Listing(r, io.order)
    requires var n := 2 * |StaleIds(r, io.order, retention, tier, ActiveIds(r))|; io.done >= n && left >= n
    ensures var p, ids := Prune(r, retention, tier, io, left), ActiveIds(r);
            && p.end.Pruned?
            && forall f :: f in p.root.manifests <==>
                 && f in r.manifests
                 && f !in StaleOf(r, io.order, retention, Scheduled, tier, ids)
                 && f !in StaleOf(r, io.order, retention, Manual, tier, ids)
  {
    hide Unlistable, Breaks, Do, RemovePlan, Eligible;
    var ids := StaleIds(r, io.order, retention, tier, ActiveIds(r));
    RemoveSteps(r, ids, 2 * |ids|);
    assert ids[..|ids|] == ids;
    StaleNames(r, io.order, retention, Scheduled, tier);
    StaleNames(r, io.order, retention, Manual, tier);
  }
}
