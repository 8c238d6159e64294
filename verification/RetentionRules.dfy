/** What retention spares and takes (backend/app/maintenance/backup.py), said of the
    records and of the state file themselves. */
module RetentionRules {
  import opened BackupModel
  import opened BackupOutcomes
  import opened BackupRuns
  import opened Common

  /** The directory's own state file names the point in a restore that is requested or
      under way. */
  predicate Guarded(r: Root, id: int) {
    r.restore.State? && id in r.restore.ids
    && (r.restore.status.Requested? || r.restore.status.InProgress? || r.restore.status.DbRestored?)
  }

  /** A valid point of this origin and tier that nothing guards; a local one only if
      its record says so itself. */
  predicate Counted(r: Root, f: int, origin: Origin, tier: Tier) {
    && f in r.manifests && r.manifests[f].Point?
    && var m := r.manifests[f].record;
       && m.origin == origin && m.tier == tier && m.checks.Passed? && m.backupId >= 0
       && (tier.Degraded? ==> m.explicit) && !Guarded(r, m.backupId)
  }

  lemma CountedIsEligible(r: Root, f: int, origin: Origin, tier: Tier)
    ensures Counted(r, f, origin, tier) <==> IsEligible(r, f, origin, tier, ActiveIds(r))
  {
  }

  // -- points an active restore names ----------------------------------------------------

  lemma {:induction false} CandidatesUnguarded(r: Root, order: seq<int>, origin: Origin, tier: Tier, f: int)
    requires f in Candidates(r, order, origin, tier, ActiveIds(r))
    ensures Counted(r, f, origin, tier)
  {
    hide Eligible, Counted;
    var n := |order| - 1;
    if f in Candidates(r, order[..n], origin, tier, ActiveIds(r)) {
      CandidatesUnguarded(r, order[..n], origin, tier, f);
    } else {
      CountedIsEligible(r, f, origin, tier);
    }
  }

  lemma StaleUnguarded(r: Root, order: seq<int>, retention: Retention, tier: Tier, id: int)
    requires Guarded(r, id)
    ensures id !in StaleIds(r, order, retention, tier, ActiveIds(r))
  {
    hide Candidates;
    forall origin, i | 0 <= i < |StaleOf(r, order, retention, origin, tier, ActiveIds(r))|
      ensures Ids(r, StaleOf(r, order, retention, origin, tier, ActiveIds(r)))[i] != id
    {
      var f := StaleOf(r, order, retention, origin, tier, ActiveIds(r))[i];
      assert f in Candidates(r, order, origin, tier, ActiveIds(r));
      CandidatesUnguarded(r, order, origin, tier, f);
    }
  }

  predicate SameAt(r: Root, r': Root, f: int) {
    && (f in r'.manifests <==> f in r.manifests) && (f in r.manifests ==> r'.manifests[f] == r.manifests[f])
    && (f in r'.db <==> f in r.db)
  }

  lemma RemovalKeeps(r: Root, ids: seq<int>, k: nat, f: int)
    requires f !in ids
    ensures SameAt(r, Do(r, RemovePlan(ids), k), f)
  {
    hide Do, RemovePlan;
    RemoveSteps(r, ids, k);
  }

  /** However far pruning gets and whatever it reads: the manifest and the database of
      a point that a requested or running restore names in this directory stay. */
  lemma PruneSparesGuarded(r: Root, retention: Retention, tier: Tier, io: PruneIo, left: nat, f: int)
    requires Guarded(r, f)
    ensures SameAt(r, Prune(r, retention, tier, io, left).root, f)
  {
    hide Do, RemovePlan, StaleIds, Unlistable, Breaks;
    if Starts(r, tier, io) {
      var ids := StaleIds(r, io.order, retention, tier, ActiveIds(r));
      StaleUnguarded(r, io.order, retention, tier, f);
      RemovalKeeps(r, ids, Fewer(Fewer(io.done, |RemovePlan(ids)|), left), f);
    }
  }

  lemma WriteKeepsOthers(r: Root, m: Manifest, io: Io, left: nat, f: int)
    requires f != m.backupId
    ensures SameAt(r, PerformWrite(r, m, io, left).root, f) && PerformWrite(r, m, io, left).root.restore == r.restore
  {
    hide Do, PublishPlan, CleanupPlan;
    PublishLengths(m.backupId, m, io.done >= 3);
    var n := Fewer(Fewer(io.done, 5), left);
    PublishSteps(r, m.backupId, m, n);
    var r1 := Do(r, PublishPlan(m.backupId, m), n);
    var c := Fewer(Fewer(io.cleaned, |CleanupPlan(m.backupId, io.done >= 3)|), left - n);
    CleanupSteps(r1, m.backupId, io.done >= 3, c);
  }

  lemma LocalSpares(d: Disk, req: Request, env: Env, left: nat, f: int)
    requires Guarded(d.local, f) && f != req.localId
    ensures SameAt(d.local, Fallback(d, req, env, left).disk.local, f)
    ensures SameAt(d.local, Emergency(d, req, env, left).disk.local, f)
  {
    hide PerformWrite, Prune;
    var m := LocalManifest(req, env);
    WriteKeepsOthers(d.local, m, env.localWrite, left, f);
    var w := WriteLocal(d, req, env, left);
    if req.retention.Some? {
      PruneSparesGuarded(w.disk.local, req.retention.value, Degraded, env.localPrune, w.left, f);
    }
  }

  lemma ProtectedLeavesLocal(d: Disk, req: Request, env: Env, left: nat)
    ensures TryProtected(d, req, env, left).disk.local == d.local
  {
  }

  /** So no attempt, of any kind and wherever it raises or stops, takes from the local
      root a point that the restore described there is about to use. */
  lemma AttemptSparesGuarded(d: Disk, req: Request, env: Env, left: nat, f: int)
    requires Guarded(d.local, f) && f != req.localId
    ensures SameAt(d.local, Create(d, req, env, left).disk.local, f)
  {
    hide Fallback, Emergency, TryProtected;
    var d0 := d.(local := Sweep(d.local, left));
    var d1 := d.(protected := Cleared(d.protected, env, left));
    ProtectedLeavesLocal(d1, req, env, left);
    var t := TryProtected(d1, req, env, left);
    LocalSpares(d, req, env, left, f);
    LocalSpares(d0, req, env, left, f);
    LocalSpares(d1, req, env, left, f);
    LocalSpares(t.disk.(protected := Sweep(t.disk.protected, t.left)), req, env, t.left, f);
  }

  lemma EndIs(r: Root, retention: Retention, tier: Tier, io: PruneIo, left: nat)
    ensures var end := Prune(r, retention, tier, io, left).end; end.OsError? <==> !end.Pruned? && !end.OtherError?
  {
  }

  lemma SameBy(r: Root, r': Root, retention: Retention, tier: Tier, io: PruneIo, left: nat)
    requires r.manifests == r'.manifests && ActiveIds(r) == ActiveIds(r')
    requires !r.restore.Unusable? && !r'.restore.Unusable?
    ensures Taken(r, retention, tier, io, left) == Taken(r', retention, tier, io, left)
    ensures RaisesOtherwise(r, retention, tier, io) == RaisesOtherwise(r', retention, tier, io)
    ensures Completes(r, retention, tier, io) == Completes(r', retention, tier, io)
  {
    hide StaleOf, Breaks, Unlistable, Ids;
    SameStale(r, r', io.order, retention, Scheduled, tier, ActiveIds(r));
    SameStale(r, r', io.order, retention, Manual, tier, ActiveIds(r));
  }

  /** A restore that is over guards nothing: pruning is what it is without one. */
  lemma FinishedGuardsNothing(r: Root, ids: set<int>, retention: Retention, tier: Tier, io: PruneIo, left: nat)
    ensures var none, over := r.(restore := NoState), r.(restore := State(Finished, ids));
            var p, q := Prune(none, retention, tier, io, left), Prune(over, retention, tier, io, left);
            && p.root.manifests == q.root.manifests && p.end == q.end
  {
    hide Prune, StaleIds, StaleOf;
    var none, over := r.(restore := NoState), r.(restore := State(Finished, ids));
    PruneEnds(none, retention, tier, io, left);
    PruneEnds(over, retention, tier, io, left);
    SameBy(none, over, retention, tier, io, left);
    EndIs(none, retention, tier, io, left);
    EndIs(over, retention, tier, io, left);
  }

  // -- how many stay ---------------------------------------------------------------------

  /** What pruning takes are points that count, scheduled or manual; every other file
      stays as it is. */
  lemma PruneTakesOnlyCounted(r: Root, retention: Retention, tier: Tier, io: PruneIo, left: nat, f: int)
    requires WellNamed(r) && f in r.manifests
    ensures var after := Prune(r, retention, tier, io, left).root;
            && (f !in after.manifests ==> Counted(r, f, Scheduled, tier) || Counted(r, f, Manual, tier))
            && (f in after.manifests ==> after.manifests[f] == r.manifests[f])
            && (f in r.db && f !in after.db ==> Counted(r, f, Scheduled, tier) || Counted(r, f, Manual, tier))
  {
    hide Prune, Counted, Eligible;
    PruneTakesOnlyEligible(r, retention, tier, io, left);
    CountedIsEligible(r, f, Scheduled, tier);
    CountedIsEligible(r, f, Manual, tier);
  }

  /** How many of an origin retention is asked to keep. */
  predicate Keeps(retention: Retention, origin: Origin, keep: int) {
    (origin.Scheduled? && keep == retention.daily) || (origin.Manual? && keep == retention.manual)
  }

  predicate Newer(r: Root, a: int, b: int) {
    a in r.manifests && b in r.manifests && r.manifests[a].Point? && r.manifests[b].Point?
    && r.manifests[a].record.createdAt >= r.manifests[b].record.createdAt
  }

  lemma CountedSet(r: Root, origin: Origin, tier: Tier)
    ensures (set f | f in r.manifests && Counted(r, f, origin, tier))
         == (set f | f in r.manifests && IsEligible(r, f, origin, tier, ActiveIds(r)))
  {
    hide Eligible, Counted, IsEligible;
    forall f | f in r.manifests
      ensures Counted(r, f, origin, tier) <==> IsEligible(r, f, origin, tier, ActiveIds(r))
    {
      CountedIsEligible(r, f, origin, tier);
    }
  }

  lemma OneOrigin(r: Root, f: int, origin: Origin, other: Origin, tier: Tier)
    requires Counted(r, f, other, tier) && origin != other
    ensures !Counted(r, f, origin, tier)
  {
  }

  lemma OtherOriginStays(r: Root, order: seq<int>, retention: Retention, origin: Origin, other: Origin, tier: Tier)
    requires Listing(r, order) && origin != other
    ensures forall f :: f in StaleOf(r, order, retention, other, tier, ActiveIds(r)) ==>
              !Counted(r, f, origin, tier)
  {
    hide Candidates, Counted;
    forall f | f in StaleOf(r, order, retention, other, tier, ActiveIds(r))
      ensures !Counted(r, f, origin, tier)
    {
      assert f in Candidates(r, order, other, tier, ActiveIds(r));
      CandidatesUnguarded(r, order, other, tier, f);
      OneOrigin(r, f, origin, other, tier);
    }
  }

  lemma PrunedExactly(r: Root, retention: Retention, tier: Tier, io: PruneIo, left: nat)
    requires WellNamed(r) && io.listed && Listing(r, io.order) && left >= io.done
    requires Prune(r, retention, tier, io, left).end.Pruned?
    ensures forall f :: f in Prune(r, retention, tier, io, left).root.manifests <==>
              && f in r.manifests
              && f !in StaleOf(r, io.order, retention, Scheduled, tier, ActiveIds(r))
              && f !in StaleOf(r, io.order, retention, Manual, tier, ActiveIds(r))
  {
    hide Prune, StaleOf, StaleIds, Breaks, Unlistable;
    PruneEnds(r, retention, tier, io, left);
    PruneIsExact(r, retention, tier, io, left);
  }

  lemma NotOlderIsNewer(r: Root, a: int, b: int)
    requires NotOlder(r, a, b)
    ensures Newer(r, a, b)
  {
  }

  /** Of what counts, pruning keeps what is not stale. */
  lemma KeptIs(r: Root, retention: Retention, tier: Tier, io: PruneIo, left: nat, origin: Origin)
    requires WellNamed(r) && io.listed && Listing(r, io.order) && left >= io.done
    requires origin.Scheduled? || origin.Manual?
    requires Prune(r, retention, tier, io, left).end.Pruned?
    ensures var after := Prune(r, retention, tier, io, left).root;
            var all := set f | f in r.manifests && Counted(r, f, origin, tier);
            (set f | f in all && f in after.manifests)
            == all - (set f | f in StaleOf(r, io.order, retention, origin, tier, ActiveIds(r)))
  {
    hide Prune, StaleOf, Counted, Listing;
    PrunedExactly(r, retention, tier, io, left);
    OtherOriginStays(r, io.order, retention, origin, if origin.Scheduled? then Manual else Scheduled, tier);
  }

  /** Dropping the stale ones keeps the newest. */
  lemma RestIsNewest(r: Root, order: seq<int>, retention: Retention, origin: Origin, tier: Tier, keep: nat)
    requires Listing(r, order) && Keeps(retention, origin, keep)
    ensures var all := set f | f in r.manifests && Counted(r, f, origin, tier);
            var stale := set f | f in StaleOf(r, order, retention, origin, tier, ActiveIds(r));
            && stale <= all && |all - stale| == (if keep <= |all| then keep else |all|)
            && forall a, b :: a in all - stale && b in stale ==> Newer(r, a, b)
  {
    hide StaleOf, Counted, Listing, NotOlder, Newer, IsEligible;
    RetentionIsExact(r, order, retention, origin, tier, ActiveIds(r));
    CountedSet(r, origin, tier);
    var all := set f | f in r.manifests && Counted(r, f, origin, tier);
    var stale := set f | f in StaleOf(r, order, retention, origin, tier, ActiveIds(r));
    forall a, b | a in all - stale && b in stale
      ensures Newer(r, a, b)
    {
      NotOlderIsNewer(r, a, b);
    }
  }

  /** A pruning that ran to its end has kept, of the scheduled and of the manual points
      that count, the newest ones, exactly as many as it was asked to or all there
      were. */
  lemma PruneKeepsNewest(r: Root, retention: Retention, tier: Tier, io: PruneIo, left: nat, origin: Origin, keep: nat)
    requires WellNamed(r) && io.listed && Listing(r, io.order) && left >= io.done && Keeps(retention, origin, keep)
    requires Prune(r, retention, tier, io, left).end.Pruned?
    ensures var after := Prune(r, retention, tier, io, left).root;
            var all := set f | f in r.manifests && Counted(r, f, origin, tier);
            var kept := set f | f in all && f in after.manifests;
            && |kept| == (if keep <= |all| then keep else |all|)
            && forall a, b :: a in kept && b in all - kept ==> Newer(r, a, b)
  {
    hide Prune, StaleOf, Counted, Listing, Newer, WellNamed;
    KeptIs(r, retention, tier, io, left, origin);
    RestIsNewest(r, io.order, retention, origin, tier, keep);
  }

  // -- the databases -----------------------------------------------------------------------

  /** From `r` to `r'` no database appears but this attempt's own, and besides it only
      those of points go that count, and only if retention was asked for. */
  ghost predicate DatabasesStay(r: Root, r': Root, own: int, retention: Option<Retention>, tier: Tier) {
    forall f :: f != own ==>
      && (f in r'.db ==> f in r.db)
      && (f in r.db && f !in r'.db ==>
            retention.Some? && (Counted(r, f, Scheduled, tier) || Counted(r, f, Manual, tier)))
  }

  lemma SameCounted(r: Root, r1: Root, m: Manifest, f: int, origin: Origin, tier: Tier)
    requires r1.restore == r.restore && f != m.backupId
    requires r1.manifests == r.manifests || r1.manifests == r.manifests[m.backupId := Point(m)]
    ensures Counted(r1, f, origin, tier) <==> Counted(r, f, origin, tier)
  {
  }

  lemma WrittenThenPruned(r: Root, m: Manifest, io: Io, retention: Retention, tier: Tier, prune: PruneIo, left: nat,
                          rest: nat)
    requires BackupRuns.Ready(r, m.backupId)
    ensures var r1 := PerformWrite(r, m, io, left).root;
            && DatabasesStay(r, r1, m.backupId, Some(retention), tier)
            && DatabasesStay(r, Prune(r1, retention, tier, prune, rest).root, m.backupId, Some(retention), tier)
  {
    hide PerformWrite, Prune, Counted, Eligible;
    var r1 := PerformWrite(r, m, io, left).root;
    WriteEvolves(r, m, io, left, Some(retention), tier);
    PruneTakesOnlyEligible(r1, retention, tier, prune, rest);
    forall f | f != m.backupId
      ensures f in r1.db <==> f in r.db
      ensures f in r1.db && f !in Prune(r1, retention, tier, prune, rest).root.db ==>
                Counted(r, f, Scheduled, tier) || Counted(r, f, Manual, tier)
    {
      WriteKeepsOthers(r, m, io, left, f);
      CountedIsEligible(r1, f, Scheduled, tier);
      CountedIsEligible(r1, f, Manual, tier);
      SameCounted(r, r1, m, f, Scheduled, tier);
      SameCounted(r, r1, m, f, Manual, tier);
    }
  }

  lemma WrittenOnly(r: Root, m: Manifest, io: Io, retention: Option<Retention>, tier: Tier, left: nat, k: nat)
    ensures var r1 := PerformWrite(r, m, io, left).root;
            && DatabasesStay(r, r, m.backupId, retention, tier) && DatabasesStay(r, r1, m.backupId, retention, tier)
            && DatabasesStay(r, Do(r1, RemovePlan([m.backupId]), k), m.backupId, retention, tier)
  {
    hide PerformWrite, Do, RemovePlan, Counted;
    var r1 := PerformWrite(r, m, io, left).root;
    forall f | f != m.backupId
      ensures f in r1.db <==> f in r.db
      ensures f in Do(r1, RemovePlan([m.backupId]), k).db <==> f in r1.db
    {
      WriteKeepsOthers(r, m, io, left, f);
      RemovalKeeps(r1, [m.backupId], k, f);
    }
  }

  lemma LocalDatabases(d: Disk, req: Request, env: Env, left: nat)
    requires BackupRuns.Ready(d.local, req.localId)
    ensures DatabasesStay(d.local, Fallback(d, req, env, left).disk.local, req.localId, req.retention, Degraded)
    ensures DatabasesStay(d.local, Emergency(d, req, env, left).disk.local, req.localId, req.retention, Degraded)
    ensures Fallback(d, req, env, left).disk.protected == Emergency(d, req, env, left).disk.protected == d.protected
  {
    hide PerformWrite, Prune, Do, RemovePlan, DatabasesStay;
    var m := LocalManifest(req, env);
    WrittenOnly(d.local, m, env.localWrite, req.retention, Degraded, left, 0);
    var w := WriteLocal(d, req, env, left);
    if req.retention.Some? {
      WrittenThenPruned(d.local, m, env.localWrite, req.retention.value, Degraded, env.localPrune, left, w.left);
    }
  }

  lemma ProtectedDatabases(d: Disk, req: Request, env: Env, left: nat)
    requires BackupRuns.Ready(d.protected, req.protectedId)
    ensures var t := TryProtected(d, req, env, left);
            t.disk.local == d.local
            && DatabasesStay(d.protected, t.disk.protected, req.protectedId, req.retention, Protected)
  {
    hide PerformWrite, Prune, Do, RemovePlan, DatabasesStay;
    var m := ProtectedManifest(req, env);
    var w := PerformWrite(d.protected, m, env.protectedWrite, left);
    WrittenOnly(d.protected, m, env.protectedWrite, req.retention, Protected, left,
                Fewer(Fewer(env.removal, |RemovePlan([m.backupId])|), w.left));
    if req.retention.Some? {
      WrittenThenPruned(d.protected, m, env.protectedWrite, req.retention.value, Protected, env.protectedPrune, left,
                        w.left);
    }
  }

  lemma SweptDatabases(r: Root, r': Root, own: int, retention: Option<Retention>, tier: Tier, k: nat, j: nat)
    ensures BackupRuns.Ready(r, own) ==> BackupRuns.Ready(Sweep(r, k), own)
    ensures DatabasesStay(r, Sweep(r, k), own, retention, tier)
    ensures DatabasesStay(Sweep(r, k), r', own, retention, tier) ==> DatabasesStay(r, r', own, retention, tier)
    ensures DatabasesStay(r, r', own, retention, tier) ==> DatabasesStay(r, Sweep(r', j), own, retention, tier)
  {
    forall f, origin
      ensures Counted(Sweep(r, k), f, origin, tier) <==> Counted(r, f, origin, tier)
    {
    }
  }

  /** Over a whole attempt, in both roots: the database of a point that is not this
      attempt's own goes only by retention, and only where the point counts. */
  lemma AttemptKeepsDatabases(d: Disk, req: Request, env: Env, left: nat)
    requires BackupRuns.Ready(d.local, req.localId) && BackupRuns.Ready(d.protected, req.protectedId)
    ensures var after := Create(d, req, env, left).disk;
            && DatabasesStay(d.local, after.local, req.localId, req.retention, Degraded)
            && DatabasesStay(d.protected, after.protected, req.protectedId, req.retention, Protected)
  {
    hide Fallback, Emergency, TryProtected, DatabasesStay, Sweep, BackupRuns.Ready;
    WrittenOnly(d.local, LocalManifest(req, env), env.localWrite, req.retention, Degraded, left, 0);
    WrittenOnly(d.protected, ProtectedManifest(req, env), env.protectedWrite, req.retention, Protected, left, 0);
    var d0, d1 := d.(local := Sweep(d.local, left)), d.(protected := Sweep(d.protected, left));
    SweptDatabases(d.local, Fallback(d0, req, env, left).disk.local, req.localId, req.retention, Degraded, left, left);
    SweptDatabases(d.protected, d.protected, req.protectedId, req.retention, Protected, left, left);
    LocalDatabases(d, req, env, left);
    LocalDatabases(d0, req, env, left);
    LocalDatabases(d1, req, env, left);
    ProtectedDatabases(d1, req, env, left);
    var t := TryProtected(d1, req, env, left);
    SweptDatabases(d.protected, t.disk.protected, req.protectedId, req.retention, Protected, left, t.left);
    LocalDatabases(t.disk.(protected := Sweep(t.disk.protected, t.left)), req, env, t.left);
  }

  // -- copies that do not validate -----------------------------------------------------------

  lemma OneRemoved(r: Root, id: int, k: nat)
    requires k >= 2
    ensures var after := Do(r, RemovePlan([id]), k); id !in after.manifests && id !in after.db
  {
    hide Do, RemovePlan;
    RemoveSteps(r, [id], k);
    assert [id][..1] == [id];
  }

  lemma OneLength(id: int)
    ensures |RemovePlan([id])| == 2
  {
    RemoveSteps(Root({}, {}, map[], {}, NoState), [id], 0);
  }

  /** In the protected root nothing is left of a copy that does not validate, if its
      removal is not interrupted. */
  lemma InvalidProtectedGoes(d: Disk, req: Request, env: Env, left: nat)
    requires BackupRuns.Ready(d.protected, req.protectedId)
    requires Writes(ProtectedManifest(req, env), env.protectedSpace, env.protectedWrite) && !env.protectedValid
    requires env.removal >= 2 && left >= 7
    ensures var t := TryProtected(d, req, env, left);
            && t.outcome == Failed
            && req.protectedId !in t.disk.protected.manifests && req.protectedId !in t.disk.protected.db
  {
    hide PerformWrite, Do, RemovePlan;
    var m := ProtectedManifest(req, env);
    WrittenRoot(d.protected, m, env.protectedWrite, left);
    var w := PerformWrite(d.protected, m, env.protectedWrite, left);
    OneLength(m.backupId);
    OneRemoved(w.root, m.backupId, Fewer(Fewer(env.removal, |RemovePlan([m.backupId])|), w.left));
  }

  /** In the local root it stays, marked as invalid: a pre-restore backup returns it, any
      other fails. */
  lemma InvalidLocalStays(d: Disk, req: Request, env: Env, left: nat)
    requires BackupRuns.Ready(d.local, req.localId)
    requires Writes(LocalManifest(req, env), env.localSpace, env.localWrite) && !env.localValid && left >= 5
    ensures var m := Manifest(req.localId, req.now, req.origin, Degraded, true, Missed);
            && Emergency(d, req, env, left).outcome == Returned(m) && Fallback(d, req, env, left).outcome == Failed
            && Emergency(d, req, env, left).disk.local.manifests == d.local.manifests[req.localId := Point(m)]
            && Fallback(d, req, env, left).disk.local.manifests == d.local.manifests[req.localId := Point(m)]
  {
    hide PerformWrite;
    WrittenRoot(d.local, LocalManifest(req, env), env.localWrite, left);
  }

  // -- what a new point says ----------------------------------------------------------------

  /** The record of a point an attempt adds: its own id, the request's time and origin,
      the tier of the root it is in, and whether its copy was found valid. */
  lemma NewPointIs(d: Disk, req: Request, env: Env, left: nat)
    requires BackupRuns.Ready(d.local, req.localId) && BackupRuns.Ready(d.protected, req.protectedId)
    ensures var after := Create(d, req, env, left).disk;
            && (req.localId in after.local.manifests ==>
                  after.local.manifests[req.localId]
                  == Point(Manifest(req.localId, req.now, req.origin, Degraded, true,
                                    if env.localValid then Passed else Missed)))
            && (req.protectedId in after.protected.manifests ==>
                  after.protected.manifests[req.protectedId]
                  == Point(Manifest(req.protectedId, req.now, req.origin, Protected, true,
                                    if env.protectedValid then Passed else Missed)))
  {
    hide Create, WellNamed;
    AttemptEvolves(d, req, env, left);
  }
}
