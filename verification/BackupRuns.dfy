/** One backup attempt (backend/app/maintenance/backup.py): the protected root
    first, the local root once if that fails, retention in the root written to. */
module BackupRuns {
  import opened BackupModel
  import opened Common

  /** Where the configured protected root is. */
  datatype Target = NotConfigured | SameRoot | Separate

  datatype Disk = Disk(local: Root, protected: Root)

  datatype Request = Request(origin: Origin, protectedId: int, localId: int, now: int,
                             retention: Option<Retention>, target: Target)

  /** What the surroundings answer: the probe, the space checks, the validation of
      each copy, and where operations raise; of the sweeps of temporary files the
      first `sweeps` work. */
  datatype Env = Env(available: bool, protectedSpace: bool, localSpace: bool,
                     protectedValid: bool, localValid: bool,
                     protectedWrite: Io, localWrite: Io, removal: nat,
                     protectedPrune: PruneIo, localPrune: PruneIo, sweeps: nat)

  datatype Outcome = Returned(record: Manifest) | Failed | Busy

  datatype Attempt = Attempt(disk: Disk, outcome: Outcome, left: nat)

  function ProtectedManifest(req: Request, env: Env): Manifest {
    Manifest(req.protectedId, req.now, req.origin, Protected, true, if env.protectedValid then Passed else Missed)
  }

  function LocalManifest(req: Request, env: Env): Manifest {
    Manifest(req.localId, req.now, req.origin, Degraded, true, if env.localValid then Passed else Missed)
  }

  /** Temporary files of an earlier attempt go; nothing else does. */
  function Sweep(r: Root, left: nat): Root {
    if left == 0 then r else r.(tmp := {}, manifestTmp := {})
  }

  /** After the first two sweeps, the second of which finds nothing to do. */
  function Cleared(r: Root, env: Env, left: nat): Root {
    if env.sweeps == 0 then r else Sweep(r, left)
  }

  function Retain(d: Disk, req: Request, env: Env, left: nat): Attempt {
    var m := LocalManifest(req, env);
    if req.retention.None? then Attempt(d, Returned(m), left)
    else
      var p := Prune(d.local, req.retention.value, Degraded, env.localPrune, left);
      Attempt(d.(local := p.root), if p.end.Pruned? then Returned(m) else Failed, p.left)
  }

  function WriteLocal(d: Disk, req: Request, env: Env, left: nat): Attempt {
    var m := LocalManifest(req, env);
    if !env.localSpace then Attempt(d, Failed, left)
    else
      var w := PerformWrite(d.local, m, env.localWrite, left);
      Attempt(d.(local := w.root), if w.ok then Returned(m) else Failed, w.left)
  }

  function Fallback(d: Disk, req: Request, env: Env, left: nat): Attempt {
    var w := WriteLocal(d, req, env, left);
    if !w.outcome.Returned? then w
    else if !env.localValid then w.(outcome := Failed)
    else Retain(w.disk, req, env, w.left)
  }

  /** An emergency copy is kept and reported even when it does not validate. */
  function Emergency(d: Disk, req: Request, env: Env, left: nat): Attempt {
    var w := WriteLocal(d, req, env, left);
    if !w.outcome.Returned? || !env.localValid then w else Retain(w.disk, req, env, w.left)
  }

  /** `Failed` here means: go on to the local root. */
  function TryProtected(d: Disk, req: Request, env: Env, left: nat): Attempt {
    var m := ProtectedManifest(req, env);
    if !env.protectedSpace then Attempt(d, Failed, left)
    else
      var w := PerformWrite(d.protected, m, env.protectedWrite, left);
      var d1 := d.(protected := w.root);
      if !w.ok then Attempt(d1, Failed, w.left)
      else if !env.protectedValid then
        var plan := RemovePlan([m.backupId]);
        var n := Fewer(Fewer(env.removal, |plan|), w.left);
        Attempt(d.(protected := Do(w.root, plan, n)), Failed, w.left - n)
      else if req.retention.None? then Attempt(d1, Returned(m), w.left)
      else
        var p := Prune(w.root, req.retention.value, Protected, env.protectedPrune, w.left);
        Attempt(d.(protected := p.root), if p.end.OtherError? then Failed else Returned(m), p.left)
  }

  function Create(d: Disk, req: Request, env: Env, left: nat): Attempt {
    if d.local.restore.Unusable? then Attempt(d, Failed, left)
    else if d.local.restore.State? && (d.local.restore.status.InProgress? || d.local.restore.status.DbRestored?)
    then Attempt(d, Busy, left)
    else if req.origin.PreRestore? then Emergency(d, req, env, left)
    else
      match req.target
      case NotConfigured => Fallback(d, req, env, left)
      case SameRoot =>
        var d1 := d.(local := Cleared(d.local, env, left));
        if env.sweeps < 2 then Attempt(d1, Failed, left) else Fallback(d1, req, env, left)
      case Separate =>
        var d1 := d.(protected := Cleared(d.protected, env, left));
        if env.sweeps < 2 then Attempt(d1, Failed, left)
        else if !env.available then Fallback(d1, req, env, left)
        else
          var a := TryProtected(d1, req, env, left);
          if a.outcome.Returned? || env.sweeps < 3 then a
          else Fallback(a.disk.(protected := Sweep(a.disk.protected, a.left)), req, env, a.left)
  }

  // -- what may change in one root ---------------------------------------------------

  /** The valid points a directory shows. */
  function ValidPoints(r: Root): set<int> {
    set f | f in r.manifests && r.manifests[f].Point? && r.manifests[f].record.checks.Passed?
  }

  ghost predicate MayTake(r: Root, f: int, tier: Tier) {
    IsEligible(r, f, Scheduled, tier, ActiveIds(r)) || IsEligible(r, f, Manual, tier, ActiveIds(r))
  }

  /** From `r` to `r'` nothing appears but `m`, nothing is rewritten, and what goes
      is what retention may take. */
  ghost predicate Evolves(r: Root, r': Root, m: Manifest, retention: Option<Retention>, tier: Tier) {
    && r'.restore == r.restore && WellNamed(r')
    && r'.manifests.Keys <= r.manifests.Keys + {m.backupId}
    && (forall f :: f in r'.manifests && f in r.manifests ==> r'.manifests[f] == r.manifests[f])
    && (m.backupId in r'.manifests ==> r'.manifests[m.backupId] == Point(m))
    && (forall f :: f in r.manifests && f !in r'.manifests ==> retention.Some? && MayTake(r, f, tier))
  }

  lemma Gains(r: Root, r': Root, m: Manifest, retention: Option<Retention>, tier: Tier)
    requires Evolves(r, r', m, retention, tier) && m.backupId !in r.manifests
    ensures ValidPoints(r') - ValidPoints(r) == if m.backupId in ValidPoints(r') then {m.backupId} else {}
    ensures m.backupId in ValidPoints(r') ==> m.checks.Passed?
  {
    forall f | f in ValidPoints(r') - ValidPoints(r)
      ensures f == m.backupId
    {
      assert f in r.manifests.Keys + {m.backupId};
    }
  }

  predicate Ready(r: Root, id: int) {
    WellNamed(r) && id !in r.manifests && id !in r.db && id >= 0
  }

  lemma WriteEvolves(r: Root, m: Manifest, io: Io, left: nat, retention: Option<Retention>, tier: Tier)
    requires Ready(r, m.backupId)
    ensures Evolves(r, PerformWrite(r, m, io, left).root, m, retention, tier)
    ensures m.backupId in PerformWrite(r, m, io, left).root.manifests ==> PerformWrite(r, m, io, left).ok
    ensures PerformWrite(r, m, io, left).ok && left >= 5 ==> m.backupId in PerformWrite(r, m, io, left).root.manifests
    ensures PerformWrite(r, m, io, left).root.manifests == r.manifests
         || PerformWrite(r, m, io, left).root.manifests == r.manifests[m.backupId := Point(m)]
  {
    hide PerformWrite;
    PublishIsAtomic(r, m, io, left);
  }

  /** A written root, pruned. */
  lemma PruneEvolves(r: Root, r1: Root, m: Manifest, retention: Retention, tier: Tier, io: PruneIo, left: nat)
    requires Ready(r, m.backupId) && Evolves(r, r1, m, Some(retention), tier)
    ensures Evolves(r, Prune(r1, retention, tier, io, left).root, m, Some(retention), tier)
  {
    hide Prune, Eligible;
    PruneTakesOnlyEligible(r1, retention, tier, io, left);
    var r2 := Prune(r1, retention, tier, io, left).root;
    forall f | f in r.manifests && f !in r2.manifests
      ensures MayTake(r, f, tier)
    {
      if f in r1.manifests {
        assert r1.manifests[f] == r.manifests[f];
      }
    }
  }

  lemma RemovalEvolves(r: Root, r1: Root, m: Manifest, retention: Option<Retention>, tier: Tier, k: nat)
    requires Ready(r, m.backupId) && Evolves(r, r1, m, retention, tier)
    ensures Evolves(r, Do(r1, RemovePlan([m.backupId]), k), m, retention, tier)
  {
    hide Do, RemovePlan;
    RemoveSteps(r1, [m.backupId], k);
    var n := Fewer(k / 2, 1);
    var one := [m.backupId];
    assert one[..0] == [] && one[..1] == one;
    assert SetOf(one[..n]) == if n == 0 then {} else {m.backupId};
  }

  lemma NothingEvolves(r: Root, m: Manifest, retention: Option<Retention>, tier: Tier, left: nat)
    requires Ready(r, m.backupId)
    ensures Evolves(r, r, m, retention, tier)
    ensures Evolves(r, Sweep(r, left), m, retention, tier) && Ready(Sweep(r, left), m.backupId)
    ensures ValidPoints(Sweep(r, left)) == ValidPoints(r) && CanRaise(Sweep(r, left), tier) == CanRaise(r, tier)
  {
  }

  /** The temporary files of a root do not matter to it. */
  lemma SweepEvolves(r: Root, r1: Root, m: Manifest, retention: Option<Retention>, tier: Tier, left: nat)
    ensures Evolves(r, r1, m, retention, tier) ==> Evolves(r, Sweep(r1, left), m, retention, tier)
    ensures Evolves(Sweep(r, left), r1, m, retention, tier) ==> Evolves(r, r1, m, retention, tier)
    ensures ValidPoints(Sweep(r, left)) == ValidPoints(r)
  {
    hide Eligible;
    assert Sweep(r, left).manifests == r.manifests && Sweep(r, left).restore == r.restore;
    assert forall f :: MayTake(Sweep(r, left), f, tier) <==> MayTake(r, f, tier);
  }

  // -- the local root ------------------------------------------------------------------

  lemma LocalEvolves(d: Disk, req: Request, env: Env, left: nat)
    requires Ready(d.local, req.localId)
    ensures var m := LocalManifest(req, env);
            && Evolves(d.local, Fallback(d, req, env, left).disk.local, m, req.retention, Degraded)
            && Evolves(d.local, Emergency(d, req, env, left).disk.local, m, req.retention, Degraded)
            && Fallback(d, req, env, left).disk.protected == Emergency(d, req, env, left).disk.protected == d.protected
  {
    hide PerformWrite, Evolves, Ready, Prune;
    var m := LocalManifest(req, env);
    NothingEvolves(d.local, m, req.retention, Degraded, left);
    WriteEvolves(d.local, m, env.localWrite, left, req.retention, Degraded);
    var w := WriteLocal(d, req, env, left);
    if req.retention.Some? {
      PruneEvolves(d.local, w.disk.local, m, req.retention.value, Degraded, env.localPrune, w.left);
    }
  }

  lemma ProtectedEvolves(d: Disk, req: Request, env: Env, left: nat)
    requires Ready(d.protected, req.protectedId)
    ensures var a := TryProtected(d, req, env, left);
            && Evolves(d.protected, a.disk.protected, ProtectedManifest(req, env), req.retention, Protected)
            && a.disk.local == d.local && !a.outcome.Busy?
  {
    hide PerformWrite, Evolves, Ready, Prune, Do, RemovePlan;
    var m := ProtectedManifest(req, env);
    NothingEvolves(d.protected, m, req.retention, Protected, left);
    WriteEvolves(d.protected, m, env.protectedWrite, left, req.retention, Protected);
    var w := PerformWrite(d.protected, m, env.protectedWrite, left);
    RemovalEvolves(d.protected, w.root, m, req.retention, Protected,
                   Fewer(Fewer(env.removal, |RemovePlan([m.backupId])|), w.left));
    if req.retention.Some? {
      PruneEvolves(d.protected, w.root, m, req.retention.value, Protected, env.protectedPrune, w.left);
    }
  }

  /** Whatever is asked, wherever operations raise and the process stops: each root
      gains at most this attempt's own point, under its own tier, and loses only
      what retention may take there: valid scheduled or manual points of that
      tier, written since tiers exist, and not named by an active restore in that
      root's own state file. */
  lemma AttemptEvolves(d: Disk, req: Request, env: Env, left: nat)
    requires Ready(d.local, req.localId) && Ready(d.protected, req.protectedId)
    ensures var a := Create(d, req, env, left);
            && Evolves(d.local, a.disk.local, LocalManifest(req, env), req.retention, Degraded)
            && Evolves(d.protected, a.disk.protected, ProtectedManifest(req, env), req.retention, Protected)
  {
    hide Fallback, Emergency, TryProtected, Evolves, Ready, Sweep;
    var ml, mp := LocalManifest(req, env), ProtectedManifest(req, env);
    NothingEvolves(d.local, ml, req.retention, Degraded, left);
    NothingEvolves(d.protected, mp, req.retention, Protected, left);
    LocalEvolves(d, req, env, left);
    var swept := d.(local := Sweep(d.local, left));
    LocalEvolves(swept, req, env, left);
    SweepEvolves(d.local, Fallback(swept, req, env, left).disk.local, ml, req.retention, Degraded, left);
    var d1 := d.(protected := Sweep(d.protected, left));
    LocalEvolves(d1, req, env, left);
    ProtectedEvolves(d1, req, env, left);
    var a := TryProtected(d1, req, env, left);
    SweepEvolves(d.protected, a.disk.protected, mp, req.retention, Protected, left);
    SweepEvolves(d.protected, a.disk.protected, mp, req.retention, Protected, a.left);
    LocalEvolves(a.disk.(protected := Sweep(a.disk.protected, a.left)), req, env, a.left);
  }

  // -- at most one point -------------------------------------------------------------

  lemma WrittenIff(r: Root, m: Manifest, io: Io, left: nat)
    requires Ready(r, m.backupId)
    ensures m.backupId in PerformWrite(r, m, io, left).root.manifests <==>
              io.done >= 5 && left >= 5 && !m.origin.OtherOrigin?
    ensures PerformWrite(r, m, io, left).ok <==> io.done >= 5 && !m.origin.OtherOrigin?
    ensures PerformWrite(r, m, io, left).ok && left < 5 ==> PerformWrite(r, m, io, left).left == 0
  {
    hide Do, PublishPlan, CleanupPlan;
    PublishLengths(m.backupId, m, io.done >= 3);
    var n := Fewer(Fewer(io.done, 5), left);
    PublishSteps(r, m.backupId, m, n);
    PublishIsAtomic(r, m, io, left);
  }

  /** Exactly when the protected try counts as failed with its valid new point
      standing: the point was published, retention there raises something other
      than an operating-system error, and had not already removed the new point
      itself. */
  lemma FallsBackWithPointIff(d: Disk, req: Request, env: Env, left: nat)
    requires Ready(d.protected, req.protectedId)
    ensures var a := TryProtected(d, req, env, left);
            var w := PerformWrite(d.protected, ProtectedManifest(req, env), env.protectedWrite, left);
            (a.outcome.Failed? && req.protectedId in ValidPoints(a.disk.protected)) <==>
            (&& env.protectedSpace && env.protectedValid && env.protectedWrite.done >= 5 && !req.origin.OtherOrigin?
             && left >= 5 && req.retention.Some?
             && RaisesOtherwise(w.root, req.retention.value, Protected, env.protectedPrune)
             && req.protectedId !in Taken(w.root, req.retention.value, Protected, env.protectedPrune, w.left))
  {
    hide PerformWrite, Prune, RaisesOtherwise, Taken, Do, RemovePlan;
    var m := ProtectedManifest(req, env);
    WriteEvolves(d.protected, m, env.protectedWrite, left, req.retention, Protected);
    var w := PerformWrite(d.protected, m, env.protectedWrite, left);
    WrittenIff(d.protected, m, env.protectedWrite, left);
    RemovalEvolves(d.protected, w.root, m, req.retention, Protected,
                   Fewer(Fewer(env.removal, |RemovePlan([m.backupId])|), w.left));
    if req.retention.Some? {
      PruneEnds(w.root, req.retention.value, Protected, env.protectedPrune, w.left);
    }
  }

  /** What is published never makes retention raise. */
  lemma RaiseWasThere(r: Root, r1: Root, m: Manifest, tier: Tier)
    requires m.backupId !in r.manifests && !m.checks.Broken? && r1.restore == r.restore
    requires r1.manifests == r.manifests || r1.manifests == r.manifests[m.backupId := Point(m)]
    ensures CanRaise(r1, tier) <==> CanRaise(r, tier)
  {
    forall f, origin
      ensures IsBroken(r1, f, origin, tier) <==> IsBroken(r, f, origin, tier)
    {
    }
    if Unlistable(r) {
      var f :| f in r.manifests && r.manifests[f].Malformed?;
      assert f in r1.manifests && r1.manifests[f].Malformed?;
    }
    if Unlistable(r1) {
      var f :| f in r1.manifests && r1.manifests[f].Malformed?;
      assert f in r.manifests && r.manifests[f].Malformed?;
    }
  }

  lemma OtherwiseNeedsCause(d: Disk, req: Request, env: Env, left: nat)
    requires Ready(d.protected, req.protectedId)
    ensures var w := PerformWrite(d.protected, ProtectedManifest(req, env), env.protectedWrite, left);
            req.retention.Some? && RaisesOtherwise(w.root, req.retention.value, Protected, env.protectedPrune) ==>
              CanRaise(d.protected, Protected)
  {
    hide PerformWrite;
    var m := ProtectedManifest(req, env);
    WriteEvolves(d.protected, m, env.protectedWrite, left, req.retention, Protected);
    RaiseWasThere(d.protected, PerformWrite(d.protected, m, env.protectedWrite, left).root, m, Protected);
  }

  /** An attempt adds at most one valid point over the two roots, unless retention
      is asked for and something in the protected root, a manifest or the state
      file, raises other than an operating-system error when it is read. */
  lemma AtMostOneNewPoint(d: Disk, req: Request, env: Env, left: nat)
    requires Ready(d.local, req.localId) && Ready(d.protected, req.protectedId)
    ensures var a := Create(d, req, env, left);
            && ValidPoints(a.disk.local) - ValidPoints(d.local) <= {req.localId}
            && ValidPoints(a.disk.protected) - ValidPoints(d.protected) <= {req.protectedId}
            && (req.localId in ValidPoints(a.disk.local) && req.protectedId in ValidPoints(a.disk.protected) ==>
                  req.retention.Some? && CanRaise(d.protected, Protected))
  {
    hide Fallback, Emergency, TryProtected, CanRaise, RaisesOtherwise, PerformWrite, Taken, Evolves, WellNamed;
    var a := Create(d, req, env, left);
    AttemptEvolves(d, req, env, left);
    Gains(d.local, a.disk.local, LocalManifest(req, env), req.retention, Degraded);
    Gains(d.protected, a.disk.protected, ProtectedManifest(req, env), req.retention, Protected);
    var swept := d.(local := Sweep(d.local, left));
    NothingEvolves(d.local, LocalManifest(req, env), req.retention, Degraded, left);
    LocalEvolves(swept, req, env, left);
    var d1 := d.(protected := Sweep(d.protected, left));
    NothingEvolves(d.protected, ProtectedManifest(req, env), req.retention, Protected, left);
    var t := TryProtected(d1, req, env, left);
    FallsBackWithPointIff(d1, req, env, left);
    OtherwiseNeedsCause(d1, req, env, left);
    ProtectedEvolves(d1, req, env, left);
    LocalEvolves(d, req, env, left);
    LocalEvolves(d1, req, env, left);
    LocalEvolves(t.disk.(protected := Sweep(t.disk.protected, t.left)), req, env, t.left);
    SweepEvolves(t.disk.protected, t.disk.protected, ProtectedManifest(req, env), req.retention, Protected, t.left);
  }

  // -- what the outcome says -----------------------------------------------------------

  lemma LocalOutcome(d: Disk, req: Request, env: Env, left: nat)
    requires Ready(d.local, req.localId) && req.retention.None?
    ensures var f, e := Fallback(d, req, env, left), Emergency(d, req, env, left);
            && f.disk.protected == e.disk.protected == d.protected
            && !f.outcome.Busy? && !e.outcome.Busy?
            && (f.outcome.Returned? ==> f.outcome.record == LocalManifest(req, env) && env.localValid)
            && (e.outcome.Returned? ==> e.outcome.record == LocalManifest(req, env))
            && (!f.outcome.Returned? ==> req.localId !in ValidPoints(f.disk.local))
            && (!e.outcome.Returned? ==> req.localId !in ValidPoints(e.disk.local))
            && (left >= 5 && f.outcome.Returned? ==> req.localId in ValidPoints(f.disk.local))
            && (left >= 5 && e.outcome.Returned? && env.localValid ==> req.localId in ValidPoints(e.disk.local))
  {
    hide PerformWrite;
    WriteEvolves(d.local, LocalManifest(req, env), env.localWrite, left, req.retention, Degraded);
  }

  lemma ProtectedOutcome(d: Disk, req: Request, env: Env, left: nat)
    requires Ready(d.protected, req.protectedId) && req.retention.None?
    ensures var a := TryProtected(d, req, env, left);
            && a.disk.local == d.local && !a.outcome.Busy? && a.left + 11 >= left
            && (a.outcome.Returned? ==> a.outcome.record == ProtectedManifest(req, env) && env.protectedValid)
            && (!a.outcome.Returned? ==> req.protectedId !in ValidPoints(a.disk.protected))
            && (left >= 5 && a.outcome.Returned? ==> req.protectedId in ValidPoints(a.disk.protected))
  {
    hide Do, RemovePlan;
    var m := ProtectedManifest(req, env);
    PublishLengths(m.backupId, m, env.protectedWrite.done >= 3);
    WriteEvolves(d.protected, m, env.protectedWrite, left, req.retention, Protected);
    var w := PerformWrite(d.protected, m, env.protectedWrite, left);
    var n := Fewer(Fewer(env.removal, |RemovePlan([m.backupId])|), w.left);
    RemoveSteps(w.root, [m.backupId], n);
    RemovalEvolves(d.protected, w.root, m, req.retention, Protected, n);
  }

  /** Without retention the outcome is the truth: an attempt that reports failure
      has left no new valid point in either root, and one that returns, if the
      process did not stop, has left exactly the point it returns. */
  lemma OutcomeIsTrue(d: Disk, req: Request, env: Env, left: nat)
    requires Ready(d.local, req.localId) && Ready(d.protected, req.protectedId) && req.retention.None?
    ensures var a := Create(d, req, env, left);
            var gained := (ValidPoints(a.disk.local) - ValidPoints(d.local),
                          ValidPoints(a.disk.protected) - ValidPoints(d.protected));
            && (!a.outcome.Returned? ==> gained == ({}, {}))
            && (a.outcome.Returned? && left >= 16 ==>
                  gained == (if a.outcome.record == LocalManifest(req, env) && env.localValid
                             then {req.localId} else {},
                            if a.outcome.record == ProtectedManifest(req, env) && env.protectedValid
                            then {req.protectedId} else {}))
            && (a.outcome.Returned? ==>
                  a.outcome.record == LocalManifest(req, env) || a.outcome.record == ProtectedManifest(req, env))
  {
    hide Fallback, Emergency, TryProtected, Evolves, WellNamed;
    var a := Create(d, req, env, left);
    AttemptEvolves(d, req, env, left);
    var ml, mp := LocalManifest(req, env), ProtectedManifest(req, env);
    Gains(d.local, a.disk.local, ml, req.retention, Degraded);
    Gains(d.protected, a.disk.protected, mp, req.retention, Protected);
    LocalOutcome(d, req, env, left);
    var swept := d.(local := Sweep(d.local, left));
    NothingEvolves(d.local, ml, req.retention, Degraded, left);
    LocalOutcome(swept, req, env, left);
    var d1 := d.(protected := Sweep(d.protected, left));
    NothingEvolves(d.protected, mp, req.retention, Protected, left);
    LocalOutcome(d1, req, env, left);
    ProtectedOutcome(d1, req, env, left);
    var t := TryProtected(d1, req, env, left);
    LocalOutcome(t.disk.(protected := Sweep(t.disk.protected, t.left)), req, env, t.left);
    SweepEvolves(t.disk.protected, t.disk.protected, mp, req.retention, Protected, t.left);
  }

  /** Exactly when the local try reports failure with its valid point in place: the
      point was published, and retention did not run to its end and had not
      already removed it. */
  lemma FailureWithPointIff(d: Disk, req: Request, env: Env, left: nat)
    requires Ready(d.local, req.localId)
    ensures var f := Fallback(d, req, env, left);
            var w := PerformWrite(d.local, LocalManifest(req, env), env.localWrite, left);
            (f.outcome.Failed? && req.localId in ValidPoints(f.disk.local)) <==>
            (&& env.localSpace && env.localValid && env.localWrite.done >= 5 && !req.origin.OtherOrigin?
             && left >= 5 && req.retention.Some?
             && !Completes(w.root, req.retention.value, Degraded, env.localPrune)
             && req.localId !in Taken(w.root, req.retention.value, Degraded, env.localPrune, w.left))
  {
    hide PerformWrite, Prune, Completes, Taken;
    var m := LocalManifest(req, env);
    WriteEvolves(d.local, m, env.localWrite, left, req.retention, Degraded);
    WrittenIff(d.local, m, env.localWrite, left);
    var w := PerformWrite(d.local, m, env.localWrite, left);
    if req.retention.Some? {
      PruneEnds(w.root, req.retention.value, Degraded, env.localPrune, w.left);
    }
  }

  // -- what becomes of an older protected point ----------------------------------------

  lemma RemovalTakesOwn(r: Root, id: int, k: nat)
    ensures forall f :: f in r.manifests && f != id ==> f in Do(r, RemovePlan([id]), k).manifests
  {
    hide Do, RemovePlan;
    RemoveSteps(r, [id], k);
  }

  predicate Claimable(state: RestoreState) {
    !state.Unusable? && (state.State? ==> !state.status.InProgress? && !state.status.DbRestored?)
  }

  lemma KeepsProtected(d: Disk, req: Request, env: Env, left: nat)
    ensures Fallback(d, req, env, left).disk.protected == Emergency(d, req, env, left).disk.protected == d.protected
  {
    hide PerformWrite, Prune;
  }

  /** Exactly when an attempt removes an older point of the protected root. Nothing
      on the right speaks of the ids an active restore in the local root names:
      only the state file of the protected root keeps a point there. */
  lemma ProtectedPointGoesIff(d: Disk, req: Request, env: Env, left: nat, f: int)
    requires Ready(d.protected, req.protectedId) && f in d.protected.manifests
    ensures var w := PerformWrite(Sweep(d.protected, left), ProtectedManifest(req, env), env.protectedWrite, left);
            f !in Create(d, req, env, left).disk.protected.manifests <==>
            (&& Claimable(d.local.restore) && !req.origin.PreRestore? && req.target.Separate? && env.available
             && env.sweeps >= 2 && env.protectedSpace && env.protectedValid && w.ok && req.retention.Some?
             && f in Taken(w.root, req.retention.value, Protected, env.protectedPrune, w.left))
  {
    hide PerformWrite, Prune, Taken, Fallback, Emergency, Do, RemovePlan;
    var swept := Sweep(d.protected, left);
    var d1 := d.(protected := swept);
    var m := ProtectedManifest(req, env);
    WriteEvolves(swept, m, env.protectedWrite, left, req.retention, Protected);
    var w := PerformWrite(swept, m, env.protectedWrite, left);
    RemovalTakesOwn(w.root, m.backupId, Fewer(Fewer(env.removal, |RemovePlan([m.backupId])|), w.left));
    if req.retention.Some? {
      PruneEnds(w.root, req.retention.value, Protected, env.protectedPrune, w.left);
    }
    var t := TryProtected(d1, req, env, left);
    KeepsProtected(d, req, env, left);
    KeepsProtected(d.(local := Sweep(d.local, left)), req, env, left);
    KeepsProtected(d1, req, env, left);
    KeepsProtected(t.disk.(protected := Sweep(t.disk.protected, t.left)), req, env, t.left);
  }

  // -- where the promises stop -----------------------------------------------------------

  lemma SameProtected(d: Disk, d': Disk, req: Request, env: Env, left: nat)
    requires d.protected == d'.protected
    ensures var t, t' := TryProtected(d, req, env, left), TryProtected(d', req, env, left);
            t.disk.protected == t'.disk.protected && t.outcome == t'.outcome && t.left == t'.left
  {
  }

  /** What becomes of the protected root does not depend on the restore the local
      state file describes: a request that names a protected point does not keep
      it from retention there. */
  lemma LocalRestoreIsIgnored(d: Disk, state: RestoreState, req: Request, env: Env, left: nat)
    requires Claimable(d.local.restore) && Claimable(state) && req.target.Separate?
    ensures var d' := d.(local := d.local.(restore := state));
            Create(d', req, env, left).disk.protected == Create(d, req, env, left).disk.protected
  {
    hide PerformWrite, Prune, Do, RemovePlan, Retain;
    var d' := d.(local := d.local.(restore := state));
    var d1, d1' := d.(protected := Sweep(d.protected, left)), d'.(protected := Sweep(d.protected, left));
    SameProtected(d1, d1', req, env, left);
    var t, t' := TryProtected(d1, req, env, left), TryProtected(d1', req, env, left);
    KeepsProtected(d, req, env, left);
    KeepsProtected(d', req, env, left);
    KeepsProtected(d1, req, env, left);
    KeepsProtected(d1', req, env, left);
    KeepsProtected(t.disk.(protected := Sweep(t.disk.protected, t.left)), req, env, t.left);
    KeepsProtected(t'.disk.(protected := Sweep(t'.disk.protected, t'.left)), req, env, t'.left);
  }

  function Empty(restore: RestoreState): Root {
    Root({}, {}, map[], {}, restore)
  }

  function Smooth(protectedOrder: seq<int>, localOrder: seq<int>): Env {
    Env(true, true, true, true, true, Io(5, 4), Io(5, 4), 2,
        PruneIo(true, protectedOrder, 10), PruneIo(true, localOrder, 10), 3)
  }

  lemma TwoCandidates(r: Root, a: int, b: int)
    requires Listed(r, a) && Listed(r, b)
    requires Eligible(r.manifests[a].record, Manual, Protected, {})
    requires Eligible(r.manifests[b].record, Manual, Protected, {})
    ensures Candidates(r, [a, b], Manual, Protected, {}) == [a, b]
    ensures Candidates(r, [a, b], Scheduled, Protected, {}) == []
  {
    assert [a, b][..1] == [a] && [a][..0] == [];
    assert Candidates(r, [a], Manual, Protected, {}) == [a];
    assert Candidates(r, [a], Scheduled, Protected, {}) == [];
  }

  /** With one manual point to keep, the older of two goes. */
  lemma OlderOfTwoGoes(r: Root, a: int, b: int)
    requires r.manifests.Keys == {a, b} && a != b && Listed(r, a) && Listed(r, b) && r.restore == NoState
    requires Eligible(r.manifests[a].record, Manual, Protected, {})
    requires Eligible(r.manifests[b].record, Manual, Protected, {})
    requires r.manifests[b].record.backupId == b
    ensures var p := Prune(r, Retention(30, 1), Protected, PruneIo(true, [a, b], 10), 95);
            b !in p.root.manifests && p.end.Pruned?
  {
    hide Do, RemovePlan, Candidates;
    TwoCandidates(r, a, b);
    var ids := StaleIds(r, [a, b], Retention(30, 1), Protected, ActiveIds(r));
    assert ids == [b];
    RemoveSteps(r, ids, 2);
    assert [b][..1] == [b];
    assert !CanRaise(r, Protected);
  }

  /** For instance: a requested restore of protected point 7, then a manual backup
      with one manual point to keep. Nothing goes wrong, and 7 is gone. */
  lemma RequestedPointIsPruned()
    ensures exists d: Disk, req: Request, env: Env ::
              && d.local.restore == State(Requested, {7}) && 7 in ValidPoints(d.protected)
              && Create(d, req, env, 100).outcome.Returned?
              && 7 !in ValidPoints(Create(d, req, env, 100).disk.protected)
  {
    hide Do, PublishPlan, RemovePlan, Prune;
    var old7 := Manifest(7, 1, Manual, Protected, true, Passed);
    var r := Root({7}, {}, map[7 := Point(old7)], {}, NoState);
    var d := Disk(Empty(State(Requested, {7})), r);
    var req := Request(Manual, 8, 9, 2, Some(Retention(30, 1)), Separate);
    var env := Smooth([8, 7], []);
    var m := ProtectedManifest(req, env);
    var swept := Sweep(r, 100);
    PublishLengths(8, m, true);
    PublishSteps(swept, 8, m, 5);
    WrittenIff(swept, m, Io(5, 4), 100);
    var w := PerformWrite(swept, m, Io(5, 4), 100);
    assert w.root.manifests == map[7 := Point(old7), 8 := Point(m)] && w.left == 95;
    OlderOfTwoGoes(w.root, 8, 7);
    var p := Prune(w.root, Retention(30, 1), Protected, PruneIo(true, [8, 7], 10), 95);
    assert TryProtected(d.(protected := swept), req, env, 100) == Attempt(Disk(d.local, p.root), Returned(m), p.left);
    var a := Create(d, req, env, 100);
    assert a == TryProtected(d.(protected := swept), req, env, 100);
    assert a.outcome.Returned? && 7 !in ValidPoints(a.disk.protected) && 7 in ValidPoints(d.protected);
  }

  lemma SweptIsAlike(r: Root, left: nat)
    ensures Unlistable(r) == Unlistable(Sweep(r, left)) && Sweep(r, left).restore == r.restore
  {
  }

  lemma StaysUnlistable(r: Root, r1: Root, m: Manifest)
    requires m.backupId !in r.manifests && Unlistable(r)
    requires r1.manifests == r.manifests || r1.manifests == r.manifests[m.backupId := Point(m)]
    ensures Unlistable(r1)
  {
    var f :| f in r.manifests && r.manifests[f].Malformed?;
    assert f in r1.manifests && r1.manifests[f].Malformed?;
  }

  lemma NoneStale(r: Root, f: int)
    requires r.manifests.Keys == {f} && Listed(r, f) && !r.manifests[f].record.checks.Broken?
    ensures !Unlistable(r) && !Breaks(r, Scheduled, Degraded) && !Breaks(r, Manual, Degraded)
    ensures RemovePlan(StaleIds(r, [f], Retention(30, 10), Degraded, ActiveIds(r))) == []
    ensures forall k :: Do(r, [], k) == r
  {
    assert [f][..0] == [];
    assert |Candidates(r, [f], Manual, Degraded, ActiveIds(r))| <= 1;
    assert |Candidates(r, [f], Scheduled, Degraded, ActiveIds(r))| <= 1;
  }

  /** One attempt over an empty local root and a protected root that makes
      retention raise: two valid points. */
  lemma DoublesWith(r: Root)
    requires Ready(r, 8) && (r.restore.Unusable? || Unlistable(r))
    ensures var d := Disk(Empty(NoState), r);
            var req := Request(Manual, 8, 9, 2, Some(Retention(30, 10)), Separate);
            var a := Create(d, req, Smooth([], [9]), 100);
            Ready(d.local, 9) && 9 in ValidPoints(a.disk.local) && 8 in ValidPoints(a.disk.protected)
  {
    hide Do, PublishPlan, CleanupPlan, RemovePlan, Candidates, Unlistable, Breaks;
    var d := Disk(Empty(NoState), r);
    var req := Request(Manual, 8, 9, 2, Some(Retention(30, 10)), Separate);
    var env := Smooth([], [9]);
    var swept := d.(protected := Sweep(r, 100));
    SweptIsAlike(r, 100);
    var m := ProtectedManifest(req, env);
    var w := PerformWrite(swept.protected, m, env.protectedWrite, 100);
    PublishLengths(8, m, true);
    WriteEvolves(swept.protected, m, env.protectedWrite, 100, req.retention, Protected);
    if Unlistable(r) {
      StaysUnlistable(swept.protected, w.root, m);
    }
    FallsBackWithPointIff(swept, req, env, 100);
    var t := TryProtected(swept, req, env, 100);
    assert t.left == 95;
    SweepEvolves(t.disk.protected, t.disk.protected, m, req.retention, Protected, t.left);
    var d2 := t.disk.(protected := Sweep(t.disk.protected, t.left));
    ProtectedEvolves(swept, req, env, 100);
    WrittenIff(d2.local, LocalManifest(req, env), Io(5, 4), t.left);
    var wl := PerformWrite(d2.local, LocalManifest(req, env), Io(5, 4), t.left);
    WriteEvolves(d2.local, LocalManifest(req, env), Io(5, 4), t.left, req.retention, Degraded);
    NoneStale(wl.root, 9);
    KeepsProtected(d2, req, env, t.left);
    var a := Create(d, req, env, 100);
    assert a == Fallback(d2, req, env, t.left);
    assert a.disk.local == wl.root;
  }

  /** For instance with one manifest in the protected root that is not UTF-8. */
  lemma UnreadableManifestDoubles()
    ensures exists d: Disk, req: Request, env: Env ::
              && Ready(d.local, req.localId) && Ready(d.protected, req.protectedId)
              && req.localId in ValidPoints(Create(d, req, env, 100).disk.local)
              && req.protectedId in ValidPoints(Create(d, req, env, 100).disk.protected)
  {
    hide Create;
    var r := Root({}, {}, map[5 := Malformed], {}, NoState);
    assert 5 in r.manifests && r.manifests[5].Malformed?;
    DoublesWith(r);
    var d, req := Disk(Empty(NoState), r), Request(Manual, 8, 9, 2, Some(Retention(30, 10)), Separate);
    assert Ready(d.local, req.localId) && Ready(d.protected, req.protectedId);
  }

  /** Or with a state file there that is not, and every manifest well-formed. */
  lemma UnreadableStateDoubles()
    ensures exists d: Disk, req: Request, env: Env ::
              && d.protected.restore.Unusable? && d.protected.manifests == map[]
              && Ready(d.local, req.localId) && Ready(d.protected, req.protectedId)
              && req.localId in ValidPoints(Create(d, req, env, 100).disk.local)
              && req.protectedId in ValidPoints(Create(d, req, env, 100).disk.protected)
  {
    hide Create;
    DoublesWith(Empty(Unusable));
    var d := Disk(Empty(NoState), Empty(Unusable));
    var req := Request(Manual, 8, 9, 2, Some(Retention(30, 10)), Separate);
    assert Ready(d.local, req.localId) && Ready(d.protected, req.protectedId);
  }

  lemma NothingTaken(r: Root, retention: Retention, io: PruneIo, left: nat)
    requires !io.listed
    ensures Taken(r, retention, Degraded, io, left) == {}
  {
  }

  /** For instance, an attempt with only a local root that reports failure although
      its valid point is in place: listing the directory for retention raised. */
  lemma FailedAttemptPublishes()
    ensures exists d: Disk, req: Request, env: Env ::
              && Ready(d.local, req.localId) && Create(d, req, env, 100).outcome.Failed?
              && req.localId in ValidPoints(Create(d, req, env, 100).disk.local)
  {
    hide Fallback, PerformWrite, Taken;
    var d := Disk(Empty(NoState), Empty(NoState));
    var req := Request(Manual, 8, 9, 2, Some(Retention(30, 10)), NotConfigured);
    var env := Smooth([], []).(localPrune := PruneIo(false, [], 0));
    FailureWithPointIff(d, req, env, 100);
    var w := PerformWrite(d.local, LocalManifest(req, env), env.localWrite, 100);
    assert 9 !in Taken(w.root, Retention(30, 10), Degraded, env.localPrune, w.left) by {
      NothingTaken(w.root, Retention(30, 10), env.localPrune, w.left);
    }
    assert Create(d, req, env, 100) == Fallback(d, req, env, 100);
    assert Ready(d.local, req.localId);
  }
}
