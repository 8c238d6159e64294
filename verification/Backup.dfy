/** Backups as objects whose state is a directory (backend/app/maintenance/backup.py),
    proved against `BackupModel` and `BackupRuns`. */
module Backup {
  import opened BackupModel
  import opened BackupRuns
  import opened Common

  lemma {:induction false} DoOneMore(r: Root, plan: seq<FileOp>, k: nat)
    requires k < |plan|
    ensures Do(r, plan, k + 1) == ApplyOp(Do(r, plan, k), plan[k])
    decreases k
  {
    if k > 0 {
      DoOneMore(ApplyOp(r, plan[0]), plan[1..], k - 1);
    } else {
      assert Do(r, plan, 1) == Do(ApplyOp(r, plan[0]), plan[1..], 0);
    }
  }

  /** Where a plan stands once the operations up to `i` have been tried. */
  lemma TryNext(r: Root, plan: seq<FileOp>, i: nat, limit: nat)
    requires i < |plan|
    ensures var before := Do(r, plan, Fewer(i, limit));
            Do(r, plan, Fewer(i + 1, limit)) == if i < limit then ApplyOp(before, plan[i]) else before
    decreases |plan|
  {
    if i < limit {
      DoOneMore(r, plan, i);
    }
  }

  lemma RemoveLength(ids: seq<int>)
    ensures |RemovePlan(ids)| == 2 * |ids|
  {
    RemoveSteps(Empty(NoState), ids, 0);
  }

  lemma {:induction false} RemovePlanAt(ids: seq<int>, i: nat)
    requires i < |ids|
    ensures |RemovePlan(ids)| == 2 * |ids|
    ensures RemovePlan(ids)[2 * i] == UnlinkDb(ids[i]) && RemovePlan(ids)[2 * i + 1] == UnlinkManifest(ids[i])
  {
    RemoveLength(ids);
    RemoveLength(ids[..|ids| - 1]);
    if i < |ids| - 1 {
      RemovePlanAt(ids[..|ids| - 1], i);
    }
  }

  lemma DoNothing(r: Root, plan: seq<FileOp>)
    ensures Do(r, plan, 0) == r
  {
  }

  lemma {:induction false} RemovePlanConcat(a: seq<int>, b: seq<int>)
    ensures RemovePlan(a + b) == RemovePlan(a) + RemovePlan(b)
  {
    if b == [] {
      assert a + b == a;
    } else {
      var front := b[..|b| - 1];
      RemovePlanConcat(a, front);
      assert (a + b)[..|a + b| - 1] == a + front;
    }
  }

  /** A removal that raises among the first ids never reaches the others. */
  lemma RemovedFirst(r: Root, a: seq<int>, b: seq<int>, done: nat, left: nat)
    requires done < 2 * |a|
    ensures var n := Fewer(Fewer(done, |RemovePlan(a)|), left);
            && n == Fewer(Fewer(done, |RemovePlan(a + b)|), left)
            && Do(r, RemovePlan(a + b), n) == Do(r, RemovePlan(a), n)
            && done < |RemovePlan(a + b)|
  {
    hide Do, RemovePlan;
    RemoveLength(a);
    RemoveLength(b);
    RemovePlanConcat(a, b);
    var n := Fewer(done, left);
    DoConcat(r, RemovePlan(a), RemovePlan(b), n);
    assert Do(Do(r, RemovePlan(a), n), RemovePlan(b), 0) == Do(r, RemovePlan(a), n) by {
      DoNothing(Do(r, RemovePlan(a), n), RemovePlan(b));
    }
  }

  /** Budget beyond the plan is not used. */
  lemma {:induction false} DoEnough(r: Root, plan: seq<FileOp>, k: nat)
    requires k >= |plan|
    ensures Do(r, plan, k) == Do(r, plan, |plan|)
    decreases |plan|
  {
    if plan != [] {
      DoEnough(ApplyOp(r, plan[0]), plan[1..], k - 1);
    }
  }

  /** Past the first ids the budgets carry over to the others. */
  lemma RemovedBoth(r: Root, a: seq<int>, b: seq<int>, done: nat, left: nat)
    requires done >= 2 * |a|
    ensures var n1 := Fewer(Fewer(done, |RemovePlan(a)|), left);
            var n2 := Fewer(Fewer(done - 2 * |a|, |RemovePlan(b)|), left - n1);
            && Fewer(Fewer(done, |RemovePlan(a + b)|), left) == n1 + n2
            && Do(r, RemovePlan(a + b), n1 + n2) == Do(Do(r, RemovePlan(a), n1), RemovePlan(b), n2)
  {
    hide Do, RemovePlan;
    RemoveLength(a);
    RemoveLength(b);
    RemovePlanConcat(a, b);
    var n1 := Fewer(2 * |a|, left);
    var n2 := Fewer(Fewer(done - 2 * |a|, 2 * |b|), left - n1);
    DoConcat(r, RemovePlan(a), RemovePlan(b), n1 + n2);
    if n1 < 2 * |a| {
      assert n2 == 0;
      DoNothing(Do(r, RemovePlan(a), n1), RemovePlan(b));
    } else {
      DoConcat(r, RemovePlan(a), [], n1 + n2);
      DoEnough(r, RemovePlan(a), n1 + n2);
    }
  }

  lemma FirstTry(r: Root, plan: seq<FileOp>, limit: nat)
    requires |plan| >= 1
    ensures Do(r, plan, Fewer(1, limit)) == if limit > 0 then ApplyOp(r, plan[0]) else r
  {
    hide ApplyOp;
    TryNext(r, plan, 0, limit);
  }

  lemma FourTries(r: Root, plan: seq<FileOp>, limit: nat)
    requires |plan| >= 4
    ensures var r1 := if limit > 0 then ApplyOp(r, plan[0]) else r;
            var r2 := if limit > 1 then ApplyOp(r1, plan[1]) else r1;
            var r3 := if limit > 2 then ApplyOp(r2, plan[2]) else r2;
            Do(r, plan, Fewer(4, limit)) == if limit > 3 then ApplyOp(r3, plan[3]) else r3
  {
    hide ApplyOp, Do;
    FirstTry(r, plan, limit);
    TryNext(r, plan, 1, limit);
    TryNext(r, plan, 2, limit);
    TryNext(r, plan, 3, limit);
  }

  lemma FiveTries(r: Root, plan: seq<FileOp>, limit: nat)
    requires |plan| == 5
    ensures var r1 := if limit > 0 then ApplyOp(r, plan[0]) else r;
            var r2 := if limit > 1 then ApplyOp(r1, plan[1]) else r1;
            var r3 := if limit > 2 then ApplyOp(r2, plan[2]) else r2;
            var r4 := if limit > 3 then ApplyOp(r3, plan[3]) else r3;
            Do(r, plan, Fewer(5, limit)) == if limit > 4 then ApplyOp(r4, plan[4]) else r4
  {
    hide ApplyOp, Do;
    FourTries(r, plan, limit);
    TryNext(r, plan, 4, limit);
  }

  class ArtifactDirectory {
    var db: set<int>
    var tmp: set<int>
    var manifests: map<int, Entry>
    var manifestTmp: set<int>
    var restore: RestoreState

    ghost function Contents(): Root
      reads this
    {
      Root(db, tmp, manifests, manifestTmp, restore)
    }

    constructor (restore: RestoreState)
      ensures Contents() == Empty(restore)
    {
      db, tmp, manifests, manifestTmp, this.restore := {}, {}, map[], {}, restore;
    }

    /** One file operation: it happens if it does not raise and the process still
        runs. */
    method Perform(op: FileOp, works: bool, left: nat) returns (rest: nat)
      modifies this
      ensures Contents() == if works && left > 0 then ApplyOp(old(Contents()), op) else old(Contents())
      ensures rest == if works && left > 0 then left - 1 else left
    {
      rest := left;
      if works && left > 0 {
        rest := left - 1;
        match op
        case UnlinkTmp(id) => tmp := tmp - {id};
        case WriteTmp(id) => tmp := tmp + {id};
        case ReplaceDb(id) => tmp, db := tmp - {id}, db + {id};
        case WriteManifestTmp(id) => manifestTmp := manifestTmp + {id};
        case ReplaceManifest(id, m) => manifestTmp, manifests := manifestTmp - {id}, manifests[id := Point(m)];
        case UnlinkDb(id) => db := db - {id};
        case UnlinkManifest(id) => manifests := manifests - {id};
        case UnlinkManifestTmp(id) => manifestTmp := manifestTmp - {id};
      }
    }

    method SweepUnpublished(works: bool, left: nat) returns (ok: bool)
      modifies this
      ensures ok == works
      ensures Contents() == if works then Sweep(old(Contents()), left) else old(Contents())
    {
      ok := works;
      if works && left > 0 {
        tmp, manifestTmp := {}, {};
      }
    }

    function Used(id: int, published: bool, cleaned: nat, left: nat): (n: nat)
      ensures n <= left
    {
      Fewer(Fewer(cleaned, if published then 4 else 1), left)
    }

    method CleanUp(id: int, published: bool, cleaned: nat, left: nat)
      modifies this
      ensures Contents() == Do(old(Contents()), CleanupPlan(id, published), Used(id, published, cleaned, left))
    {
      hide ApplyOp;
      ghost var r, limit := Contents(), Fewer(cleaned, left);
      var rest := Perform(UnlinkTmp(id), cleaned > 0, left);
      FirstTry(r, CleanupPlan(id, published), limit);
      if published {
        rest := Perform(UnlinkDb(id), cleaned > 1, rest);
        rest := Perform(UnlinkManifest(id), cleaned > 2, rest);
        rest := Perform(UnlinkManifestTmp(id), cleaned > 3, rest);
        FourTries(r, CleanupPlan(id, published), limit);
      }
    }

    /** Write aside, validate, rename, then the manifest; if anything raises, take
        back what this attempt put there. */
    method Write(m: Manifest, io: Io, left: nat) returns (ok: bool, rest: nat)
      modifies this
      ensures PerformWrite(old(Contents()), m, io, left) == Written(Contents(), ok, rest)
    {
      hide ApplyOp;
      if m.origin.OtherOrigin? {
        return false, left;
      }
      var id := m.backupId;
      ghost var r, limit := Contents(), Fewer(io.done, left);
      rest := Perform(UnlinkTmp(id), io.done > 0, left);
      rest := Perform(WriteTmp(id), io.done > 1, rest);
      rest := Perform(ReplaceDb(id), io.done > 2, rest);
      var published := io.done > 2;
      rest := Perform(WriteManifestTmp(id), io.done > 3, rest);
      rest := Perform(ReplaceManifest(id, m), io.done > 4, rest);
      FiveTries(r, PublishPlan(id, m), limit);
      ok := io.done > 4;
      if !ok {
        CleanUp(id, published, io.cleaned, rest);
        rest := rest - Used(id, published, io.cleaned, rest);
      }
    }

    /** The manifests retention may drop for one origin, newest first. */
    method Candidates(order: seq<int>, origin: Origin, tier: Tier, ids: set<int>) returns (files: seq<int>)
      ensures files == BackupModel.Candidates(Contents(), order, origin, tier, ids)
    {
      hide Eligible;
      files := [];
      assert order[..0] == [];
      for i := 0 to |order|
        invariant files == BackupModel.Candidates(Contents(), order[..i], origin, tier, ids)
      {
        assert order[..i + 1][..i] == order[..i];
        var f := order[i];
        if f in manifests && manifests[f].Point? && Eligible(manifests[f].record, origin, tier, ids) {
          files := files + [f];
        }
      }
      assert order[..|order|] == order;
    }

    /** Removing is the database, then the manifest. */
    method RemoveFiles(ids: seq<int>, done: nat, left: nat) returns (rest: nat)
      modifies this
      ensures Contents() == Do(old(Contents()), RemovePlan(ids), Fewer(Fewer(done, |RemovePlan(ids)|), left))
      ensures rest == left - Fewer(Fewer(done, |RemovePlan(ids)|), left)
    {
      hide ApplyOp, RemovePlan;
      ghost var r, limit, plan := Contents(), Fewer(done, left), RemovePlan(ids);
      RemoveLength(ids);
      rest := left;
      for i := 0 to |ids|
        invariant Contents() == Do(r, plan, Fewer(2 * i, limit))
        invariant rest == left - Fewer(2 * i, limit)
      {
        RemovePlanAt(ids, i);
        rest := Perform(UnlinkDb(ids[i]), 2 * i < done, rest);
        TryNext(r, plan, 2 * i, limit);
        rest := Perform(UnlinkManifest(ids[i]), 2 * i + 1 < done, rest);
        TryNext(r, plan, 2 * i + 1, limit);
      }
    }

    function IdIn(f: int): int
      reads this
    {
      if f in manifests && manifests[f].Point? then manifests[f].record.backupId else f
    }

    /** The ids of one origin's candidates beyond the newest `keep`. */
    method Stale(order: seq<int>, retention: Retention, origin: Origin, tier: Tier, ids: set<int>)
      returns (removed: seq<int>)
      ensures removed == Ids(Contents(), StaleOf(Contents(), order, retention, origin, tier, ids))
    {
      hide Eligible;
      ghost var r := Contents();
      var files := Candidates(order, origin, tier, ids);
      var start := StartOf(KeepOf(retention, origin), |files|);
      removed := [];
      for i := start to |files|
        invariant removed == Ids(r, files[start..i])
      {
        removed := removed + [IdIn(files[i])];
      }
      assert files[start..|files|] == Beyond(files, KeepOf(retention, origin));
    }

    /** Does reading the records of one origin raise? */
    method Unreadable(origin: Origin, tier: Tier) returns (raised: bool)
      ensures raised == Breaks(Contents(), origin, tier)
    {
      raised := exists f :: f in manifests && manifests[f].Point? && manifests[f].record.origin == origin
                            && manifests[f].record.tier == tier && manifests[f].record.checks.Broken?;
      assert forall f :: IsBroken(Contents(), f, origin, tier) <==>
        f in manifests && manifests[f].Point? && manifests[f].record.origin == origin
        && manifests[f].record.tier == tier && manifests[f].record.checks.Broken?;
    }

    /** The scheduled points, then, unless reading their records raises, the manual
        ones. */
    method RemoveByOrigin(scheduled: seq<int>, manual: seq<int>, raised: bool, done: nat, left: nat)
      returns (end: PruneEnd, rest: nat)
      modifies this
      ensures var plan := RemovePlan(scheduled + (if raised then [] else manual));
              var n := Fewer(Fewer(done, |plan|), left);
              && Contents() == Do(old(Contents()), plan, n) && rest == left - n
              && end == if done < |plan| then OsError else if raised then OtherError else Pruned
    {
      hide RemovePlan, Do;
      ghost var r := Contents();
      rest := RemoveFiles(scheduled, done, left);
      RemoveLength(scheduled);
      if done < 2 * |scheduled| {
        RemovedFirst(r, scheduled, if raised then [] else manual, done, left);
        return OsError, rest;
      }
      if raised {
        assert scheduled + [] == scheduled;
        return OtherError, rest;
      }
      RemovedBoth(r, scheduled, manual, done, left);
      rest := RemoveFiles(manual, done - 2 * |scheduled|, rest);
      RemoveLength(manual);
      RemoveLength(scheduled + manual);
      end := if done >= 2 * |scheduled| + 2 * |manual| then Pruned else OsError;
    }

    /** The state file first, then the listing; the manual records are read only
        after the scheduled points are gone. */
    method PruneBackups(retention: Retention, tier: Tier, io: PruneIo, left: nat) returns (end: PruneEnd, rest: nat)
      modifies this
      ensures Prune(old(Contents()), retention, tier, io, left) == PruneRun(Contents(), end, rest)
    {
      hide StaleOf, RemovePlan, Do, Breaks;
      if restore.Unusable? {
        return OtherError, left;
      }
      if !io.listed {
        return OsError, left;
      }
      if exists f :: f in manifests && manifests[f].Malformed? {
        return OtherError, left;
      }
      var ids := if restore.State? && !restore.status.Finished? then restore.ids else {};
      var raised := Unreadable(Scheduled, tier);
      if raised {
        return OtherError, left;
      }
      var scheduled := Stale(io.order, retention, Scheduled, tier, ids);
      var manual := Stale(io.order, retention, Manual, tier, ids);
      raised := Unreadable(Manual, tier);
      end, rest := RemoveByOrigin(scheduled, manual, raised, io.done, left);
    }
  }

  // -- one attempt -----------------------------------------------------------------------

  /** The maintenance operations over the local root and a protected root. */
  class BackupService {
    const local: ArtifactDirectory
    const protected: ArtifactDirectory

    constructor (local: ArtifactDirectory, protected: ArtifactDirectory)
      requires local != protected
      ensures this.local == local && this.protected == protected
    {
      this.local, this.protected := local, protected;
    }

    ghost function Roots(): Disk
      reads local, protected
    {
      Disk(local.Contents(), protected.Contents())
    }

    method PruneLocal(req: Request, env: Env, left: nat) returns (outcome: Outcome, rest: nat)
      requires local != protected
      modifies local
      ensures Retain(old(Roots()), req, env, left) == Attempt(Roots(), outcome, rest)
    {
      hide Prune;
      outcome, rest := Returned(LocalManifest(req, env)), left;
      if req.retention.Some? {
        var end;
        end, rest := local.PruneBackups(req.retention.value, Degraded, env.localPrune, left);
        if !end.Pruned? {
          outcome := Failed;
        }
      }
    }

    method LocalWrite(req: Request, env: Env, left: nat) returns (outcome: Outcome, rest: nat)
      requires local != protected
      modifies local
      ensures WriteLocal(old(Roots()), req, env, left) == Attempt(Roots(), outcome, rest)
    {
      hide PerformWrite;
      outcome, rest := Failed, left;
      if env.localSpace {
        var ok;
        ok, rest := local.Write(LocalManifest(req, env), env.localWrite, left);
        if ok {
          outcome := Returned(LocalManifest(req, env));
        }
      }
    }

    method FallBack(req: Request, env: Env, left: nat) returns (outcome: Outcome, rest: nat)
      requires local != protected
      modifies local
      ensures Fallback(old(Roots()), req, env, left) == Attempt(Roots(), outcome, rest)
    {
      hide WriteLocal, Retain;
      outcome, rest := LocalWrite(req, env, left);
      if outcome.Returned? {
        if !env.localValid {
          outcome := Failed;
        } else {
          outcome, rest := PruneLocal(req, env, rest);
        }
      }
    }

    method PublishProtected(req: Request, env: Env, left: nat) returns (outcome: Outcome, rest: nat)
      requires local != protected
      modifies protected
      ensures TryProtected(old(Roots()), req, env, left) == Attempt(Roots(), outcome, rest)
    {
      hide PerformWrite, Prune, Do, RemovePlan;
      if !env.protectedSpace {
        return Failed, left;
      }
      var m := ProtectedManifest(req, env);
      var ok;
      ok, rest := protected.Write(m, env.protectedWrite, left);
      if !ok {
        return Failed, rest;
      }
      if !env.protectedValid {
        rest := protected.RemoveFiles([m.backupId], env.removal, rest);
        return Failed, rest;
      }
      outcome := Returned(m);
      if req.retention.Some? {
        var end;
        end, rest := protected.PruneBackups(req.retention.value, Protected, env.protectedPrune, rest);
        if end.OtherError? {
          outcome := Failed;
        }
      }
    }

    method SweepTwice(root: ArtifactDirectory, env: Env, left: nat) returns (swept: bool)
      modifies root
      ensures swept == (env.sweeps >= 2)
      ensures root.Contents() == Cleared(old(root.Contents()), env, left)
    {
      swept := root.SweepUnpublished(env.sweeps > 0, left);
      if swept {
        swept := root.SweepUnpublished(env.sweeps > 1, left);
      }
    }

    /** Protected first, then local, once. */
    method CreateBackup(req: Request, env: Env, left: nat) returns (outcome: Outcome, rest: nat)
      requires local != protected
      modifies local, protected
      ensures Create(old(Roots()), req, env, left) == Attempt(Roots(), outcome, rest)
    {
      hide WriteLocal, Retain, Fallback, TryProtected;
      var state := local.restore;
      if state.Unusable? {
        return Failed, left;
      }
      if state.State? && (state.status.InProgress? || state.status.DbRestored?) {
        return Busy, left;
      }
      if req.origin.PreRestore? {
        outcome, rest := LocalWrite(req, env, left);
        if outcome.Returned? && env.localValid {
          outcome, rest := PruneLocal(req, env, rest);
        }
        return;
      }
      rest := left;
      match req.target {
        case NotConfigured =>
        case SameRoot =>
          var swept := SweepTwice(local, env, left);
          if !swept {
            return Failed, left;
          }
        case Separate =>
          var swept := SweepTwice(protected, env, left);
          if !swept {
            return Failed, left;
          }
          if env.available {
            outcome, rest := PublishProtected(req, env, left);
            if outcome.Returned? {
              return;
            }
            swept := protected.SweepUnpublished(env.sweeps > 2, rest);
            if !swept {
              return;
            }
          }
      }
      outcome, rest := FallBack(req, env, rest);
    }
  }
}
