/** What one backup attempt leaves behind and what it reports
    (backend/app/maintenance/backup.py), read off the disk before the call. */
module BackupOutcomes {
  import opened BackupModel
  import opened BackupRuns
  import opened Common

  // -- retention looks only at the manifests and the state file ----------------------

  lemma {:induction false} SameCandidates(r: Root, r': Root, order: seq<int>, origin: Origin, tier: Tier, ids: set<int>)
    requires r.manifests == r'.manifests
    ensures Candidates(r, order, origin, tier, ids) == Candidates(r', order, origin, tier, ids)
  {
    if order != [] {
      hide Eligible;
      SameCandidates(r, r', order[..|order| - 1], origin, tier, ids);
    }
  }

  lemma SameStale(r: Root, r': Root, order: seq<int>, retention: Retention, origin: Origin, tier: Tier, ids: set<int>)
    requires r.manifests == r'.manifests
    ensures StaleOf(r, order, retention, origin, tier, ids) == StaleOf(r', order, retention, origin, tier, ids)
    ensures forall files :: Ids(r, files) == Ids(r', files)
    ensures Breaks(r, origin, tier) == Breaks(r', origin, tier) && Unlistable(r) == Unlistable(r')
  {
    hide Candidates;
    SameCandidates(r, r', order, origin, tier, ids);
    assert forall f :: IsBroken(r, f, origin, tier) == IsBroken(r', f, origin, tier);
  }

  lemma SameRetention(r: Root, r': Root, retention: Retention, tier: Tier, io: PruneIo, left: nat)
    requires r.manifests == r'.manifests && r.restore == r'.restore
    ensures Taken(r, retention, tier, io, left) == Taken(r', retention, tier, io, left)
    ensures RaisesOtherwise(r, retention, tier, io) == RaisesOtherwise(r', retention, tier, io)
    ensures Completes(r, retention, tier, io) == Completes(r', retention, tier, io)
  {
    hide StaleOf, Breaks, Unlistable, Ids;
    SameStale(r, r', io.order, retention, Scheduled, tier, ActiveIds(r));
    SameStale(r, r', io.order, retention, Manual, tier, ActiveIds(r));
  }

  // -- one target --------------------------------------------------------------------

  /** A root once the point is published in it, if the process got that far. */
  function WithPoint(r: Root, m: Manifest, left: nat): Root {
    if left < 5 then r else r.(manifests := r.manifests[m.backupId := Point(m)])
  }

  /** There is space, and nothing raises while the point is published. */
  predicate Writes(m: Manifest, space: bool, io: Io) {
    space && io.done >= 5 && !m.origin.OtherOrigin?
  }

  /** The point is written, valid, and retention does not take it away again. */
  predicate Stands(r: Root, m: Manifest, space: bool, io: Io, retention: Option<Retention>, prune: PruneIo, left: nat)
  {
    && Writes(m, space, io) && m.checks.Passed? && left >= 5
    && (retention.Some? ==>
          m.backupId !in Taken(WithPoint(r, m, left), retention.value, m.tier, prune, left - 5))
  }

  /** Retention, where asked for, raises other than an operating-system error. */
  predicate RetentionRaises(r: Root, m: Manifest, retention: Option<Retention>, prune: PruneIo, left: nat) {
    retention.Some? && RaisesOtherwise(WithPoint(r, m, left), retention.value, m.tier, prune)
  }

  /** Retention, where asked for, does not run to its end. */
  predicate RetentionFails(r: Root, m: Manifest, retention: Option<Retention>, prune: PruneIo, left: nat) {
    retention.Some? && !Completes(WithPoint(r, m, left), retention.value, m.tier, prune)
  }

  lemma WrittenRoot(r: Root, m: Manifest, io: Io, left: nat)
    requires Ready(r, m.backupId)
    ensures var w := PerformWrite(r, m, io, left);
            && (w.ok <==> Writes(m, true, io))
            && (w.ok ==> w.root.manifests == WithPoint(r, m, left).manifests && w.root.restore == r.restore
                         && w.left == if left >= 5 then left - 5 else 0)
            && (!w.ok ==> m.backupId !in w.root.manifests)
  {
    hide Do, CleanupPlan;
    PublishLengths(m.backupId, m, io.done >= 3);
    PublishSteps(r, m.backupId, m, Fewer(Fewer(io.done, 5), left));
    WrittenIff(r, m, io, left);
  }

  predicate ProtectedStands(d: Disk, req: Request, env: Env, left: nat) {
    Stands(d.protected, ProtectedManifest(req, env), env.protectedSpace, env.protectedWrite, req.retention,
           env.protectedPrune, left)
  }

  predicate ProtectedFails(d: Disk, req: Request, env: Env, left: nat) {
    var m := ProtectedManifest(req, env);
    || !Writes(m, env.protectedSpace, env.protectedWrite) || !env.protectedValid
    || RetentionRaises(d.protected, m, req.retention, env.protectedPrune, left)
  }

  predicate LocalStands(d: Disk, req: Request, env: Env, left: nat) {
    Stands(d.local, LocalManifest(req, env), env.localSpace, env.localWrite, req.retention, env.localPrune, left)
  }

  predicate LocalFails(d: Disk, req: Request, env: Env, left: nat) {
    var m := LocalManifest(req, env);
    || !Writes(m, env.localSpace, env.localWrite) || !env.localValid
    || RetentionFails(d.local, m, req.retention, env.localPrune, left)
  }

  predicate EmergencyFails(d: Disk, req: Request, env: Env, left: nat) {
    var m := LocalManifest(req, env);
    || !Writes(m, env.localSpace, env.localWrite)
    || (env.localValid && RetentionFails(d.local, m, req.retention, env.localPrune, left))
  }

  lemma ProtectedTry(d: Disk, req: Request, env: Env, left: nat)
    requires Ready(d.protected, req.protectedId)
    ensures var t := TryProtected(d, req, env, left);
            && t.outcome == (if ProtectedFails(d, req, env, left) then Failed
                             else Returned(ProtectedManifest(req, env)))
            && (req.protectedId in ValidPoints(t.disk.protected) <==> ProtectedStands(d, req, env, left))
  {
    hide PerformWrite, Prune, RaisesOtherwise, Taken, Do, RemovePlan;
    var m := ProtectedManifest(req, env);
    var w := PerformWrite(d.protected, m, env.protectedWrite, left);
    WrittenRoot(d.protected, m, env.protectedWrite, left);
    WriteEvolves(d.protected, m, env.protectedWrite, left, req.retention, Protected);
    RemovalEvolves(d.protected, w.root, m, req.retention, Protected,
                   Fewer(Fewer(env.removal, |RemovePlan([m.backupId])|), w.left));
    if req.retention.Some? && w.ok {
      PruneEnds(w.root, req.retention.value, Protected, env.protectedPrune, w.left);
      SameRetention(w.root, WithPoint(d.protected, m, left), req.retention.value, Protected, env.protectedPrune,
                    w.left);
    }
  }

  lemma LocalTry(d: Disk, req: Request, env: Env, left: nat)
    requires Ready(d.local, req.localId)
    ensures var f, e, m := Fallback(d, req, env, left), Emergency(d, req, env, left), LocalManifest(req, env);
            && f.outcome == (if LocalFails(d, req, env, left) then Failed else Returned(m))
            && e.outcome == (if EmergencyFails(d, req, env, left) then Failed else Returned(m))
            && (req.localId in ValidPoints(f.disk.local) <==> LocalStands(d, req, env, left))
            && (req.localId in ValidPoints(e.disk.local) <==> LocalStands(d, req, env, left))
  {
    hide PerformWrite, Prune, Completes, Taken;
    var m := LocalManifest(req, env);
    var w := PerformWrite(d.local, m, env.localWrite, left);
    WrittenRoot(d.local, m, env.localWrite, left);
    WriteEvolves(d.local, m, env.localWrite, left, req.retention, Degraded);
    if req.retention.Some? && w.ok {
      PruneEnds(w.root, req.retention.value, Degraded, env.localPrune, w.left);
      SameRetention(w.root, WithPoint(d.local, m, left), req.retention.value, Degraded, env.localPrune, w.left);
    }
  }

  lemma SweptIsSame(d: Disk, req: Request, env: Env, left: nat, k: nat)
    ensures var d' := d.(local := Sweep(d.local, k));
            && LocalStands(d', req, env, left) == LocalStands(d, req, env, left)
            && LocalFails(d', req, env, left) == LocalFails(d, req, env, left)
    ensures var d' := d.(protected := Sweep(d.protected, k));
            && ProtectedStands(d', req, env, left) == ProtectedStands(d, req, env, left)
            && ProtectedFails(d', req, env, left) == ProtectedFails(d, req, env, left)
  {
    hide Taken, RaisesOtherwise, Completes;
    if req.retention.Some? {
      var ml, mp := LocalManifest(req, env), ProtectedManifest(req, env);
      SameRetention(WithPoint(d.local, ml, left), WithPoint(Sweep(d.local, k), ml, left), req.retention.value, Degraded,
                    env.localPrune, if left >= 5 then left - 5 else 0);
      SameRetention(WithPoint(d.protected, mp, left), WithPoint(Sweep(d.protected, k), mp, left), req.retention.value,
                    Protected, env.protectedPrune, if left >= 5 then left - 5 else 0);
    }
  }

  // -- one attempt -------------------------------------------------------------------

  predicate TriesProtected(d: Disk, req: Request, env: Env) {
    Claimable(d.local.restore) && !req.origin.PreRestore? && req.target.Separate? && env.available && env.sweeps >= 2
  }

  /** The local root is the first and only one tried. */
  predicate TriesLocalOnly(d: Disk, req: Request, env: Env) {
    && Claimable(d.local.restore) && !req.origin.PreRestore?
    && (req.target.NotConfigured? || (env.sweeps >= 2 && (req.target.SameRoot? || !env.available)))
  }

  predicate IsEmergency(d: Disk, req: Request) {
    Claimable(d.local.restore) && req.origin.PreRestore?
  }

  predicate FallsBack(d: Disk, req: Request, env: Env, left: nat) {
    TriesProtected(d, req, env) && ProtectedFails(d, req, env, left) && env.sweeps >= 3
  }

  /** The operations left before the process stops once the protected root was
      tried. */
  function LeftOver(d: Disk, req: Request, env: Env, left: nat): nat {
    TryProtected(d.(protected := Sweep(d.protected, left)), req, env, left).left
  }

  lemma SameLocal(d: Disk, d': Disk, req: Request, env: Env, left: nat)
    requires d.local == d'.local
    ensures LocalStands(d, req, env, left) == LocalStands(d', req, env, left)
    ensures LocalFails(d, req, env, left) == LocalFails(d', req, env, left)
  {
  }

  lemma NoPointYet(r: Root, id: int)
    requires Ready(r, id)
    ensures id !in ValidPoints(r)
  {
  }

  /** Which new points stand after an attempt and what it reports, for every disk,
      every request, every place where an operation raises and every place where
      the process stops. */
  lemma AttemptIs(d: Disk, req: Request, env: Env, left: nat)
    requires Ready(d.local, req.localId) && Ready(d.protected, req.protectedId)
    ensures var a, rest := Create(d, req, env, left), LeftOver(d, req, env, left);
            && (req.protectedId in ValidPoints(a.disk.protected) <==>
                  TriesProtected(d, req, env) && ProtectedStands(d, req, env, left))
            && (req.localId in ValidPoints(a.disk.local) <==>
                  || ((IsEmergency(d, req) || TriesLocalOnly(d, req, env)) && LocalStands(d, req, env, left))
                  || (FallsBack(d, req, env, left) && LocalStands(d, req, env, rest)))
            && (a.outcome.Returned? ==>
                  a.outcome.record == if TriesProtected(d, req, env) && !ProtectedFails(d, req, env, left)
                                      then ProtectedManifest(req, env) else LocalManifest(req, env))
            && (a.outcome.Busy? <==> !Claimable(d.local.restore) && !d.local.restore.Unusable?)
            && (a.outcome.Failed? <==>
                  || d.local.restore.Unusable?
                  || (IsEmergency(d, req) && EmergencyFails(d, req, env, left))
                  || (TriesLocalOnly(d, req, env) && LocalFails(d, req, env, left))
                  || (FallsBack(d, req, env, left) && LocalFails(d, req, env, rest))
                  || (Claimable(d.local.restore) && !req.origin.PreRestore? && !req.target.NotConfigured?
                      && (env.sweeps < 2
                          || (env.sweeps < 3 && TriesProtected(d, req, env) && ProtectedFails(d, req, env, left)))))
  {
    hide Fallback, Emergency, TryProtected, LocalStands, LocalFails, EmergencyFails, ProtectedStands, ProtectedFails,
      Evolves, WellNamed, Ready, ValidPoints, Sweep;
    var ml, mp := LocalManifest(req, env), ProtectedManifest(req, env);
    NothingEvolves(d.local, ml, req.retention, Degraded, left);
    NothingEvolves(d.protected, mp, req.retention, Protected, left);
    NoPointYet(d.local, req.localId);
    NoPointYet(d.protected, req.protectedId);
    SweptIsSame(d, req, env, left, left);
    LocalTry(d, req, env, left);
    LocalEvolves(d, req, env, left);
    var d0 := d.(local := Sweep(d.local, left));
    LocalTry(d0, req, env, left);
    LocalEvolves(d0, req, env, left);
    var d1 := d.(protected := Sweep(d.protected, left));
    SameLocal(d, d1, req, env, left);
    LocalTry(d1, req, env, left);
    LocalEvolves(d1, req, env, left);
    ProtectedTry(d1, req, env, left);
    ProtectedEvolves(d1, req, env, left);
    var t := TryProtected(d1, req, env, left);
    var d2 := t.disk.(protected := Sweep(t.disk.protected, t.left));
    SweepEvolves(t.disk.protected, t.disk.protected, mp, req.retention, Protected, t.left);
    SameLocal(d, d2, req, env, t.left);
    LocalTry(d2, req, env, t.left);
    LocalEvolves(d2, req, env, t.left);
  }

  /** Exactly when one attempt leaves two new valid points: the protected one was
      published, retention there raised other than an operating-system error
      without having taken it, and the local one was published too and not taken
      by retention in its own root. */
  lemma TwoNewPointsIff(d: Disk, req: Request, env: Env, left: nat)
    requires Ready(d.local, req.localId) && Ready(d.protected, req.protectedId)
    ensures var a := Create(d, req, env, left);
            (req.localId in ValidPoints(a.disk.local) && req.protectedId in ValidPoints(a.disk.protected)) <==>
            (&& TriesProtected(d, req, env) && env.sweeps >= 3
             && ProtectedStands(d, req, env, left)
             && RetentionRaises(d.protected, ProtectedManifest(req, env), req.retention, env.protectedPrune, left)
             && LocalStands(d, req, env, LeftOver(d, req, env, left)))
  {
    hide Create, RaisesOtherwise, Taken, TryProtected, LocalStands, LocalFails, Ready;
    AttemptIs(d, req, env, left);
  }

  /** Exactly when an attempt reports failure with a new valid point in place:
      retention in the local root, tried first or last, did not run to its end and
      left the point standing; or a protected point stands after retention there
      raised, and the local root failed too or was not reached. */
  lemma FailedWithNewPointIff(d: Disk, req: Request, env: Env, left: nat)
    requires Ready(d.local, req.localId) && Ready(d.protected, req.protectedId)
    ensures var a, rest := Create(d, req, env, left), LeftOver(d, req, env, left);
            var ml, mp := LocalManifest(req, env), ProtectedManifest(req, env);
            (&& a.outcome.Failed?
             && (req.localId in ValidPoints(a.disk.local) || req.protectedId in ValidPoints(a.disk.protected))) <==>
            (|| ((IsEmergency(d, req) || TriesLocalOnly(d, req, env)) && LocalStands(d, req, env, left)
                 && RetentionFails(d.local, ml, req.retention, env.localPrune, left))
             || (FallsBack(d, req, env, left) && LocalStands(d, req, env, rest)
                 && RetentionFails(d.local, ml, req.retention, env.localPrune, rest))
             || (TriesProtected(d, req, env) && ProtectedStands(d, req, env, left)
                 && RetentionRaises(d.protected, mp, req.retention, env.protectedPrune, left)
                 && (env.sweeps < 3 || LocalFails(d, req, env, rest))))
  {
    hide Create, RaisesOtherwise, Completes, Taken, TryProtected, Ready;
    AttemptIs(d, req, env, left);
  }

  // -- failures that have published ------------------------------------------------------

  /** For instance, a pre-restore backup: its point is in place when listing the
      directory for retention raises. */
  lemma FailedEmergencyPublishes()
    ensures exists d: Disk, req: Request, env: Env ::
              && req.origin.PreRestore? && Ready(d.local, req.localId) && Ready(d.protected, req.protectedId)
              && Create(d, req, env, 100).outcome.Failed?
              && req.localId in ValidPoints(Create(d, req, env, 100).disk.local)
  {
    hide Create, TryProtected, StaleIds;
    var d := Disk(Empty(NoState), Empty(NoState));
    var req := Request(PreRestore, 8, 9, 2, Some(Retention(30, 10)), NotConfigured);
    var env := Smooth([], []).(localPrune := PruneIo(false, [], 0));
    AttemptIs(d, req, env, 100);
    assert Ready(d.local, req.localId) && Ready(d.protected, req.protectedId);
    assert IsEmergency(d, req) && LocalStands(d, req, env, 100) && EmergencyFails(d, req, env, 100);
  }

  /** Or a protected point that stands, although its root's state file is not UTF-8,
      while the local root has no space. */
  lemma FailedTargetsPublish()
    ensures exists d: Disk, req: Request, env: Env ::
              && Ready(d.local, req.localId) && Ready(d.protected, req.protectedId)
              && Create(d, req, env, 100).outcome.Failed?
              && req.protectedId in ValidPoints(Create(d, req, env, 100).disk.protected)
  {
    hide Create, TryProtected, StaleIds;
    var d := Disk(Empty(NoState), Empty(Unusable));
    var req := Request(Manual, 8, 9, 2, Some(Retention(30, 10)), Separate);
    var env := Smooth([], []).(localSpace := false);
    AttemptIs(d, req, env, 100);
    assert Ready(d.local, req.localId) && Ready(d.protected, req.protectedId);
    assert TriesProtected(d, req, env) && ProtectedStands(d, req, env, 100) && ProtectedFails(d, req, env, 100);
  }

  /** Or the same with space, when looking for temporary files before the local try
      raises. */
  lemma FailedSweepPublishes()
    ensures exists d: Disk, req: Request, env: Env ::
              && env.localSpace && Ready(d.local, req.localId) && Ready(d.protected, req.protectedId)
              && Create(d, req, env, 100).outcome.Failed?
              && req.protectedId in ValidPoints(Create(d, req, env, 100).disk.protected)
  {
    hide Create, TryProtected, StaleIds;
    var d := Disk(Empty(NoState), Empty(Unusable));
    var req := Request(Manual, 8, 9, 2, Some(Retention(30, 10)), Separate);
    var env := Smooth([], []).(sweeps := 2);
    AttemptIs(d, req, env, 100);
    assert Ready(d.local, req.localId) && Ready(d.protected, req.protectedId);
    assert TriesProtected(d, req, env) && ProtectedStands(d, req, env, 100) && ProtectedFails(d, req, env, 100);
  }
}
