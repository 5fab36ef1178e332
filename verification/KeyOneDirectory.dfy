/** A deployment whose rotations all run in one key directory: recovery then never meets a stray
    pending DEK, so nothing is lost and a restart always works, with no condition on recovery. */
module KeyOneDirectory {
  import opened Options
  import opened KeyState
  import opened KeySteps
  import opened KeyGeneration
  import opened KeyDurability
  import opened KeySets
  import opened KeyRestart

  /** What the operator sees to: no lock is lost, every rotation runs in directory `home`, and one
      that finds no epoch row runs on the DEK the rows are under. */
  predicate RotatesIn(s: State, l: Label, home: DirId) {
    && KeepsLocks(s, l)
    && (l.AdminStart? ==> l.d == home)
    && (l.AdminTakes? && l.rotation.RotateFence? && s.admin.PendingWritten? && s.db.epoch.Absent? ==>
          AllUnder(s.db.rows, s.admin.from))
  }

  function RotationsIn(home: DirId): (State, Label) -> bool {
    (s, l) => RotatesIn(s, l, home)
  }

  /** While the marker stands, the rotations' directory holds the DEK of the epoch: pending, or
      active with nothing pending. */
  predicate HoldsCommitted(db: Db, k: KeyDir) {
    db.marker ==>
      db.epoch.Current? && (k.pending == Some(db.epoch.dek) || (k.active == Some(db.epoch.dek) && k.pending.None?))
  }

  /** Where a rotation is, seen from its directory. */
  predicate Staging(v: AdminLocal) {
    match v.admin
    case NoAdmin => true
    case Opened => true
    case Examined => true
    case Promoting => v.home.pending.None?
    case Recovered => v.home.pending.None?
    case HoldsKey(from) => v.home.pending.None? && v.home.active == Some(from)
    case MarkerChecked(_) => !v.db.marker
    case PendingWritten(_, _) => !v.db.marker
    case Fenced(_, into, _) => !v.db.marker && v.home.pending == Some(into)
    case Committed(into) => v.db.epoch == Current(into) && v.home.pending == Some(into)
    case Renamed(_) => true
  }

  /** The phases between recovery and the installed DEK. */
  predicate Past(ph: Phase) {
    ph.Settled? || ph.Derived? || ph.Missing? || ph.Staged?
  }

  /** Either the generation check of database mode or the key provider's own files keep recovery
      from a lone pending file. */
  predicate Fenceable(s: State) {
    s.mode.Database? || s.kekFiles
  }

  /** Elsewhere a pending file is one an interrupted first boot left, with no key beside it; and
      `home` is not generating while a rotation is to be finished. */
  ghost predicate OneHome(s: State, home: DirId) {
    && Fenceable(s)
    && HoldsCommitted(s.db, DirOf(s, home))
    && (!s.admin.NoAdmin? ==> s.adminDir == home)
    && Staging(AdminLocalOf(s)) && (s.admin.PendingWritten? ==> DirOf(s, home).pending == Some(s.admin.into))
    && (forall d :: d != home && DirOf(s, d).pending.Some? ==> DirOf(s, d).active.None?)
    && (forall p :: p in s.procs && s.procs[p].dir == home && Past(s.procs[p].phase) && HomeOf(s, p).active.None? ==>
                      !s.db.marker)
  }

  /** What the locks and the checks before recovery give. */
  ghost predicate Orderly(s: State) {
    Exclusive(s) && GeneratesOnEmpty(s) && KekFirst(s) && Inspected(s)
  }

  lemma StepIsOrderly(s: State, l: Label)
    requires Orderly(s) && Enabled(s, l) && KeepsLocks(s, l)
    ensures Orderly(After(s, l))
  {
    StepKeepsExclusive(s, l);
    StepKeepsGeneratesOnEmpty(s, l);
    StepKeepsKekFirst(s, l);
    StepKeepsInspected(s, l);
  }

  // ---------------------------------------------------------------------------
  // Steps

  /** Recovery meets a lone pending file only when no rotation is to be finished. */
  lemma LoneIsUnmarked(s: State, p: Pid, home: DirId)
    requires OneHome(s, home) && Orderly(s) && p in s.procs && s.procs[p].phase.Consistent?
    ensures HomeOf(s, p).active.None? && HomeOf(s, p).pending.Some? ==> !s.db.marker
  {
    if s.kekFiles {
      NoLonePending(s, p);
    }
  }

  /** What a server step leaves of a rotation to be finished, on `home` or another directory. */
  predicate Leaves(v: Local, w: Local, atHome: bool) {
    && (w.db.marker ==> v.db.marker && w.db.epoch == v.db.epoch)
    && (atHome ==> HoldsCommitted(w.db, w.home) && (Past(w.phase) && w.home.active.None? ==> !w.db.marker))
    && ((v.home.pending.Some? ==> v.home.active.None?) ==> (w.home.pending.Some? ==> w.home.active.None?))
  }

  predicate Finishable(v: Local, atHome: bool) {
    && (v.phase.Consistent? && v.home.active.None? && v.home.pending.Some? ==> !v.db.marker)
    && (atHome && Past(v.phase) && v.home.active.None? ==> !v.db.marker)
    && (v.phase.Missing? || v.phase.Staged? ==> v.home.active.None?)
    && (v.db.marker ==> v.db.epoch.Current?)
    && (atHome ==> HoldsCommitted(v.db, v.home))
  }

  lemma KeyStepsLeave(v: Local, st: ServerStep, atHome: bool)
    requires CanServe(v, st) && KeyStep(st) && Finishable(v, atHome)
    ensures Leaves(v, Serve(v, st), atHome)
  {
  }

  lemma OtherStepsLeave(v: Local, st: ServerStep, atHome: bool)
    requires CanServe(v, st) && !KeyStep(st) && Finishable(v, atHome)
    ensures Leaves(v, Serve(v, st), atHome)
  {
    OtherStepsKeepFiles(v, st);
  }

  lemma ServersLeave(v: Local, st: ServerStep, atHome: bool)
    requires CanServe(v, st) && Finishable(v, atHome)
    ensures Leaves(v, Serve(v, st), atHome) && OrderlyStep(v, Serve(v, st)) && Live(v.phase)
  {
    ServersAreOrderly(v, st);
    if KeyStep(st) {
      KeyStepsLeave(v, st, atHome);
    } else {
      OtherStepsLeave(v, st, atHome);
    }
  }

  lemma IsFinishable(s: State, p: Pid, home: DirId)
    requires OneHome(s, home) && Orderly(s) && p in s.procs
    ensures Finishable(LocalOf(s, p), s.procs[p].dir == home)
  {
    if s.procs[p].phase.Consistent? {
      LoneIsUnmarked(s, p, home);
    }
  }

  lemma ServerStepKeepsHome(s: State, p: Pid, st: ServerStep, home: DirId)
    requires OneHome(s, home) && Orderly(s) && Enabled(s, Server(p, st))
    ensures OneHome(After(s, Server(p, st)), home)
  {
    IsFinishable(s, p, home);
    ServersLeave(LocalOf(s, p), st, s.procs[p].dir == home);
    PutKeepsHome(s, p, Serve(LocalOf(s, p), st), home);
  }

  lemma PutKeepsHome(s: State, p: Pid, w: Local, home: DirId)
    requires OneHome(s, home) && Orderly(s) && p in s.procs && Live(s.procs[p].phase) && OrderlyStep(LocalOf(s, p), w)
    requires Leaves(LocalOf(s, p), w, s.procs[p].dir == home)
    ensures OneHome(Put(s, p, w), home)
  {
    var t := Put(s, p, w);
    assert s.admin.NoAdmin?;
    assert forall d :: d != s.procs[p].dir ==> DirOf(t, d) == DirOf(s, d);
    forall q | q in t.procs && q != p && t.procs[q].dir == home && Past(t.procs[q].phase) && HomeOf(t, q).active.None?
      ensures !t.db.marker
    {
      assert HoldsKeyLock(s, q);
      assert Critical(s.procs[p].phase) ==> HoldsKeyLock(s, p);
    }
  }

  lemma RotationKeepsCommitted(v: AdminLocal, st: AdminStep)
    requires CanRotate(v, st) && HoldsCommitted(v.db, v.home) && Staging(v)
    requires v.admin.PendingWritten? ==> v.home.pending == Some(v.admin.into)
    ensures var w := Rotate(v, st);
            HoldsCommitted(w.db, w.home) && Staging(w)
                && (w.admin.PendingWritten? ==> w.home.pending == Some(w.admin.into))
  {
  }

  lemma OtherStepKeepsHome(s: State, l: Label, home: DirId)
    requires OneHome(s, home) && Orderly(s) && Enabled(s, l) && RotatesIn(s, l, home) && !l.Server? && !l.AdminTakes?
    ensures OneHome(After(s, l), home)
  {
    var t := After(s, l);
    if l.CopyKeys? {
      assert forall d :: DirOf(t, d) == DirOf(s, d) || (d == l.dst && DirOf(s, d).pending.None?);
    } else {
      assert forall d :: DirOf(t, d) == DirOf(s, d);
    }
  }

  lemma RotationStepKeepsHome(s: State, st: AdminStep, home: DirId)
    requires OneHome(s, home) && Orderly(s) && Enabled(s, AdminTakes(st))
    ensures OneHome(After(s, AdminTakes(st)), home)
  {
    var t := After(s, AdminTakes(st));
    RotationKeepsCommitted(AdminLocalOf(s), st);
    assert DirOf(t, home) == Rotate(AdminLocalOf(s), st).home;
    assert forall d :: d != home ==> DirOf(t, d) == DirOf(s, d);
    assert forall p :: p in s.procs ==> !Live(s.procs[p].phase);
  }

  lemma StepKeepsHome(s: State, l: Label, home: DirId)
    requires OneHome(s, home) && Orderly(s) && Enabled(s, l) && RotatesIn(s, l, home)
    ensures OneHome(After(s, l), home)
  {
    match l {
      case Server(p, st) => ServerStepKeepsHome(s, p, st, home);
      case AdminTakes(st) => RotationStepKeepsHome(s, st, home);
      case _ => OtherStepKeepsHome(s, l, home);
    }
  }

  /** No recovery step then promotes anything but the DEK of the epoch. */
  lemma HomeIsPrudent(s: State, l: Label, home: DirId)
    requires OneHome(s, home) && Orderly(s) && Enabled(s, l) && RotatesIn(s, l, home)
    ensures Prudent(s, l)
  {
    if l.Server? && l.step.Recover? {
      LoneIsUnmarked(s, l.p, home);
    }
  }

  /** In database mode, or with a key provider that keeps files of its own: if every rotation runs
      in one directory, on the rows' DEK when there is no epoch, and no lock is lost, every run
      is prudent. */
  lemma {:induction false} OneDirectoryIsPrudent(s: State, ls: seq<Label>, home: DirId)
    requires OneHome(s, home) && Orderly(s) && Run(s, ls) && Throughout(s, ls, RotationsIn(home))
    ensures Throughout(s, ls, Prudent)
    decreases |ls|
  {
    if ls != [] {
      var l := ls[0];
      assert RotatesIn(s, l, home);
      HomeIsPrudent(s, l, home);
      StepKeepsHome(s, l, home);
      StepIsOrderly(s, l);
      OneDirectoryIsPrudent(After(s, l), ls[1..], home);
    }
  }

  /** A sound deployment at rest with no rotation left half done outside `home`. */
  ghost predicate HomeStart(s: State, home: DirId) {
    TidyStart(s) && OneHome(s, home)
  }

  /** So, in every such run, whatever crashes: the rows stay under the DEK of the epoch, it is on
      disk, and from every state at rest some directory boots a server that reads every row. */
  lemma OneDirectoryLosesNothing(s: State, ls: seq<Label>, home: DirId, p: Pid) returns (more: seq<Label>)
    requires HomeStart(s, home) && Run(s, ls) && Throughout(s, ls, RotationsIn(home))
    ensures var t := End(s, ls);
            && Recoverable(t)
            && (!t.db.epoch.Absent? ==> AllUnder(t.db.rows, t.db.epoch.dek) && OnDisk(t, t.db.epoch.dek))
            && (AtRest(t) && p !in t.procs && (!t.db.epoch.Absent? || AnyEncrypted(t.db.rows)) ==>
                  && Run(t, more)
                  && var u := End(t, more);
                     && p in u.procs && u.procs[p].phase.Ready? && u.db.rows == t.db.rows
                     && AllUnder(u.db.rows, u.procs[p].phase.dek))
  {
    OneDirectoryIsPrudent(s, ls, home);
    NothingIsLost(s, ls);
    var t := End(s, ls);
    more := [];
    if AtRest(t) && p !in t.procs && (!t.db.epoch.Absent? || AnyEncrypted(t.db.rows)) {
      more := CanAlwaysRestart(s, ls, p);
    }
  }
}
