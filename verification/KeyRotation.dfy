/** `admin encryption rotate` from start to end: when it completes, and what it leaves however it
    ends. */
module KeyRotation {
  import opened Options
  import opened KeyState
  import opened KeySteps
  import opened KeyDurability
  import opened KeySolo

  /** The key set is whole, crash recovery leaves a DEK, the epoch is absent or names that DEK, fenced
      or not, and every encrypted row is under it. */
  predicate Rotatable(kekFiles: bool, db: Db, k: KeyDir) {
    && Whole(kekFiles, k) && RecoveredHome(db, k).active.Some?
    && var own := RecoveredHome(db, k).active.value;
       (db.epoch.Absent? || db.epoch.dek == own) && AllUnder(db.rows, own)
  }

  // ---------------------------------------------------------------------------
  // The way to the end

  /** Where a rotation that started at `o` is once it holds its staged DEK. */
  function Staged(o: AdminLocal): AdminLocal
    requires RecoveredHome(o.db, o.home).active.Some?
  {
    var k := RecoveredHome(o.db, o.home);
    var own := k.active.value;
    o.(admin := PendingWritten(own, o.next), home := k.(pending := Some(o.next)), next := o.next + 1,
       db := o.db.(marker := o.db.marker && o.home.pending.None? && o.db.epoch != Current(own)))
  }

  /** The new DEK is in place everywhere. */
  function Completed(o: AdminLocal): AdminLocal {
    o.(admin := NoAdmin, home := KeyDir(Some(o.next), None, o.home.kek), next := o.next + 1,
       db := o.db.(epoch := Current(o.next), rows := Sweep(o.db.rows, o.next), marker := false))
  }

  lemma StagePath(o: AdminLocal) returns (sts: seq<AdminStep>)
    requires o.admin.Opened? && Whole(o.kekFiles, o.home) && RecoveredHome(o.db, o.home).active.Some?
    ensures RotationLeads(o, sts, Staged(o), false)
  {
    var w := o;
    sts := [];
    RotationLeadsOn(o, sts, w, RotateCheck, false);
    w, sts := Rotate(w, RotateCheck), sts + [RotateCheck];
    RotationLeadsOn(o, sts, w, RotateRecover, false);
    w, sts := Rotate(w, RotateRecover), sts + [RotateRecover];
    if w.admin.Promoting? {
      RotationLeadsOn(o, sts, w, RotateClearPromoted, false);
      w, sts := Rotate(w, RotateClearPromoted), sts + [RotateClearPromoted];
    }
    RotationLeadsOn(o, sts, w, RotateLoad, false);
    w, sts := Rotate(w, RotateLoad), sts + [RotateLoad];
    RotationLeadsOn(o, sts, w, RotateClearCompleted, false);
    w, sts := Rotate(w, RotateClearCompleted), sts + [RotateClearCompleted];
    RotationLeadsOn(o, sts, w, RotateStage, false);
    w, sts := Rotate(w, RotateStage), sts + [RotateStage];
  }

  lemma CompletePath(o: AdminLocal) returns (sts: seq<AdminStep>)
    requires o.admin.Opened? && Rotatable(o.kekFiles, o.db, o.home)
    ensures RotationLeads(o, sts, Completed(o), false)
  {
    sts := StagePath(o);
    var w := Staged(o);
    RotationLeadsOn(o, sts, w, RotateFence, false);
    w, sts := Rotate(w, RotateFence), sts + [RotateFence];
    RotationLeadsOn(o, sts, w, RotateCommit, false);
    w, sts := Rotate(w, RotateCommit), sts + [RotateCommit];
    RotationLeadsOn(o, sts, w, RotateRename, false);
    w, sts := Rotate(w, RotateRename), sts + [RotateRename];
    RotationLeadsOn(o, sts, w, RotateFinish(true), false);
    w, sts := Rotate(w, RotateFinish(true)), sts + [RotateFinish(true)];
  }

  // ---------------------------------------------------------------------------
  // Every way it can go

  /** The new DEK is committed: the rows and the epoch are under it, and it is the active file, or
      pending beside the DEK it replaces while the redo marker stands. */
  predicate Done(o: AdminLocal, w: AdminLocal) {
    && Rotatable(o.kekFiles, o.db, o.home)
    && w.db.rows == Sweep(o.db.rows, o.next) && w.db.epoch == Current(o.next)
    && (w.home == KeyDir(Some(o.next), None, o.home.kek) ||
        (w.db.marker && w.home == RecoveredHome(o.db, o.home).(pending := Some(o.next))))
  }

  /** Nothing is committed: the rows are as they were, the active file is what it was or what recovery
      makes of it, the redo marker is not set anew, and the epoch still names what it named; an
      absent one may be left fenced. */
  predicate Undone(o: AdminLocal, w: AdminLocal) {
    && w.db.rows == o.db.rows && (w.db.marker ==> o.db.marker) && w.home.kek == o.home.kek
    && (w.home.active == o.home.active || w.home.active == RecoveredHome(o.db, o.home).active)
    && (w.db.epoch == o.db.epoch || Refenced(o, w.db.epoch))
  }

  /** The fence this rotation may leave, or the plain epoch it lifts one to. */
  predicate Refenced(o: AdminLocal, e: Epoch) {
    && RecoveredHome(o.db, o.home).active.Some?
    && var own := RecoveredHome(o.db, o.home).active.value;
       (o.db.epoch.Absent? && e == Rotating(own))
           || (!o.db.epoch.Absent? && o.db.epoch.dek == own && !e.Absent? && e.dek == own)
  }

  /** Where the rotation that started at `o` is, by its phase. */
  predicate Along(o: AdminLocal, w: AdminLocal) {
    var k := RecoveredHome(o.db, o.home);
    var looked := Whole(o.kekFiles, o.home) && (o.home.active.Some? || o.home.pending.Some?);
    match w.admin
    case NoAdmin => Done(o, w) || Undone(o, w)
    case Opened => w == o
    case Examined => looked && w == o.(admin := Examined)
    case Promoting => looked && o.db.marker && o.home.pending.Some? && w == o.(admin := Promoting, home := k)
    case Recovered => looked && w == Settling(o, Recovered)
    case HoldsKey(from) => looked && k.active == Some(from) && w == Settling(o, w.admin)
    case MarkerChecked(from) =>
      looked && k.active == Some(from) && w == Staged(o).(admin := w.admin, home := k, next := o.next)
    case PendingWritten(from, into) => looked && k.active == Some(from) && w == Staged(o)
    case Fenced(from, into, hadEpoch) =>
      && looked && k.active == Some(from) && into == o.next && hadEpoch == !o.db.epoch.Absent?
      && (o.db.epoch.Absent? || o.db.epoch.dek == from)
      && w == Staged(o).(admin := w.admin, db := Staged(o).db.(epoch := Rotating(from)))
    case Committed(into) =>
      into == o.next && Done(o, w) && w.db.marker && w.home == k.(pending := Some(into))
    case Renamed(into) => into == o.next && Done(o, w) && w.home == KeyDir(Some(into), None, o.home.kek)
  }

  /** Recovery is done, in phase `a`. */
  function Settling(o: AdminLocal, a: Admin): AdminLocal {
    o.(admin := a, home := RecoveredHome(o.db, o.home), db := o.db.(marker := o.db.marker && o.home.pending.None?))
  }

  lemma StepAlong(o: AdminLocal, w: AdminLocal, st: AdminStep)
    requires o.admin.Opened? && Along(o, w) && CanRotate(w, st)
    ensures Along(o, Rotate(w, st))
  {
  }

  lemma {:induction false} RunAlong(o: AdminLocal, v: AdminLocal, sts: seq<AdminStep>, w: AdminLocal)
    requires o.admin.Opened? && Along(o, v) && RotationLeads(v, sts, w, false)
    ensures Along(o, w)
    decreases |sts|
  {
    if sts != [] {
      StepAlong(o, v, sts[0]);
      RunAlong(o, Rotate(v, sts[0]), sts[1..], w);
    }
  }

  /** A run of rotation steps is told by the rotation's own view. */
  lemma {:induction false} RunLeads(s: State, sts: seq<AdminStep>)
    requires Run(s, AdminLabels(sts))
    ensures var t := End(s, AdminLabels(sts));
            RotationLeads(AdminLocalOf(s), sts, AdminLocalOf(t), false) && t.adminDir == s.adminDir
    decreases |sts|
  {
    if sts != [] {
      var l := AdminTakes(sts[0]);
      assert AdminLabels(sts)[0] == l && AdminLabels(sts)[1..] == AdminLabels(sts[1..]);
      assert AdminLocalOf(After(s, l)) == Rotate(AdminLocalOf(s), sts[0]);
      RunLeads(After(s, l), sts[1..]);
    }
  }

  lemma RotationAlong(s: State, d: DirId, sts: seq<AdminStep>)
    requires Run(s, Rotation(d, sts))
    ensures var t := End(s, Rotation(d, sts));
            && t.adminDir == d && RotationLeads(OpenedIn(s, d), sts, AdminLocalOf(t), false)
            && Along(OpenedIn(s, d), AdminLocalOf(t))
  {
    var s1 := After(s, AdminStart(d));
    assert Rotation(d, sts)[1..] == AdminLabels(sts);
    assert AdminLocalOf(s1) == OpenedIn(s, d);
    RunLeads(s1, sts);
    RunAlong(OpenedIn(s, d), OpenedIn(s, d), sts, AdminLocalOf(End(s1, AdminLabels(sts))));
  }

  // ---------------------------------------------------------------------------
  // The results

  /** A rotation in directory `d` can take the deployment to the new DEK `n`: the rows and the epoch
      under it, the file active, nothing pending and no marker. */
  ghost predicate CanComplete(s: State, d: DirId, n: Dek) {
    exists sts :: Run(s, Rotation(d, sts)) && RotatedTo(s, d, n, End(s, Rotation(d, sts)))
  }

  predicate RotatedTo(s: State, d: DirId, n: Dek, t: State) {
    && t.admin.NoAdmin? && DirOf(t, d) == KeyDir(Some(n), None, DirOf(s, d).kek)
    && t.db == s.db.(epoch := Current(n), rows := Sweep(s.db.rows, n), marker := false)
  }

  /** From every state in which a rotation may start, with an interrupted one behind it or not: some
      rotation in the directory completes if and only if the directory is rotatable, a condition on
      its files and the database alone. In particular one that died between its fence and its
      commit can be run again. */
  lemma RotationCompletesExactly(s: State, d: DirId)
    requires s.admin.NoAdmin? && s.presence == {} && KnownDir(DirOf(s, d), s.next)
    ensures CanComplete(s, d, s.next) <==> Rotatable(s.kekFiles, s.db, DirOf(s, d))
  {
    var o := OpenedIn(s, d);
    if Rotatable(s.kekFiles, s.db, DirOf(s, d)) {
      var sts := CompletePath(o);
      var ls := RotateIn(s, d, sts, Completed(o), false);
      assert RotatedTo(s, d, s.next, End(s, Rotation(d, sts)));
    }
    if CanComplete(s, d, s.next) {
      var sts :| Run(s, Rotation(d, sts)) && RotatedTo(s, d, s.next, End(s, Rotation(d, sts)));
      RotationAlong(s, d, sts);
      assert AdminLocalOf(End(s, Rotation(d, sts))).home.active == Some(s.next);
    }
  }

  /** Said of a directory with nothing to recover: with its rows under its DEK `k`, a rotation completes
      if and only if there is no epoch, or it is `k`, or it is the fence a dead rotation of `k` left. */
  lemma RotationCanBeRetried(s: State, d: DirId, k: Dek)
    requires s.admin.NoAdmin? && s.presence == {} && KnownDir(DirOf(s, d), s.next)
    requires !s.db.marker && Whole(s.kekFiles, DirOf(s, d)) && DirOf(s, d).active == Some(k) && AllUnder(s.db.rows, k)
    ensures CanComplete(s, d, s.next) <==>
              s.db.epoch == Absent || s.db.epoch == Current(k) || s.db.epoch == Rotating(k)
  {
    RotationCompletesExactly(s, d);
  }

  /** At every point of every rotation, and so wherever it dies: either all of it is committed, with
      the new DEK active or recovery bound to promote it, or none of it is. */
  lemma RotationIsAllOrNothing(s: State, d: DirId, sts: seq<AdminStep>)
    requires Run(s, Rotation(d, sts))
    ensures var o := OpenedIn(s, d);
            var w := AdminLocalOf(End(s, Rotation(d, sts)));
            Done(o, w) || Undone(o, w)
  {
    RotationAlong(s, d, sts);
  }

  /** A rotation whose directory the epoch does not name, or that is not rotatable for another reason,
      never commits, and leaves an epoch of another DEK as it is. */
  lemma UnfitRotationIsRefused(s: State, d: DirId, sts: seq<AdminStep>)
    requires Run(s, Rotation(d, sts)) && !Rotatable(s.kekFiles, s.db, DirOf(s, d))
    ensures var t := End(s, Rotation(d, sts));
            && t.db.rows == s.db.rows && !t.admin.Committed? && !t.admin.Renamed?
            && (!s.db.epoch.Absent? && RecoveredHome(s.db, DirOf(s, d)).active != Some(s.db.epoch.dek) ==>
                  t.db.epoch == s.db.epoch)
  {
    RotationAlong(s, d, sts);
  }

  /** A rotation can fail at any point between its staged file and its commit. One that does so
      without dying drops its staged file, unless the outcome of the commit is unknown, and puts
      the epoch back: an absent one is absent again and a plain one plain again. Where that write
      fails too, its fence stays, and the rotation can be run again like one that died. */
  lemma FailedRotationIsUndone(s: State, d: DirId, sts: seq<AdminStep>, keep: bool, lifted: bool)
    requires Run(s, Rotation(d, sts))
    requires var a := End(s, Rotation(d, sts)).admin; a.PendingWritten? || a.Fenced?
    ensures Enabled(End(s, Rotation(d, sts)), AdminTakes(RotateAbort(keep, lifted)))
    ensures var u := End(s, Rotation(d, sts));
            var t := After(u, AdminTakes(RotateAbort(keep, lifted)));
            && t.admin.NoAdmin? && t.db.rows == s.db.rows
            && (u.admin.PendingWritten? ==> t.db.epoch == s.db.epoch)
            && (u.admin.Fenced? && lifted ==>
                  t.db.epoch == if s.db.epoch.Absent? then Absent else Current(s.db.epoch.dek))
            && (u.admin.Fenced? && !lifted ==> t.db.epoch == Rotating(u.admin.from))
            && DirOf(t, d) ==
               RecoveredHome(s.db, DirOf(s, d)).(pending := if keep then Some(s.next) else None)
  {
    RotationAlong(s, d, sts);
  }

  /** A rotation whose fence is refused, because the epoch is of another DEK, leaves the database as it
      found it after recovery and no staged file behind. */
  lemma RefusedFenceLeavesNothing(s: State, d: DirId, sts: seq<AdminStep>)
    requires Run(s, Rotation(d, sts))
    requires var u := End(s, Rotation(d, sts));
             u.admin.PendingWritten? && !s.db.epoch.Absent? && s.db.epoch.dek != u.admin.from
    ensures Enabled(End(s, Rotation(d, sts)), AdminTakes(RotateFence))
    ensures var t := After(End(s, Rotation(d, sts)), AdminTakes(RotateFence));
            && t.admin.NoAdmin? && t.db.rows == s.db.rows && t.db.epoch == s.db.epoch
            && DirOf(t, d) == RecoveredHome(s.db, DirOf(s, d)).(pending := None)
  {
    RotationAlong(s, d, sts);
  }

  // ---------------------------------------------------------------------------
  // A fence that is gone

  /** The rotation's fence was lifted under it. */
  predicate Unfenced(s: State) {
    s.admin.Fenced? && s.db.epoch != Rotating(s.admin.from)
  }

  lemma ServersNeverFence(v: Local, st: ServerStep)
    requires CanServe(v, st)
    ensures Serve(v, st).db.epoch.Rotating? ==> Serve(v, st).db.epoch == v.db.epoch
  {
  }

  lemma StepKeepsUnfenced(s: State, l: Label)
    requires Enabled(s, l) && !l.AdminStart? && (Unfenced(s) || s.admin.NoAdmin?)
    ensures Unfenced(After(s, l)) || After(s, l).admin.NoAdmin?
  {
    match l {
      case Server(p, st) => ServersNeverFence(LocalOf(s, p), st);
      case _ =>
    }
  }

  lemma {:induction false} RunKeepsUnfenced(s: State, ls: seq<Label>)
    requires Run(s, ls) && (Unfenced(s) || s.admin.NoAdmin?) && forall i :: 0 <= i < |ls| ==> !ls[i].AdminStart?
    ensures Unfenced(End(s, ls)) || End(s, ls).admin.NoAdmin?
    decreases |ls|
  {
    if ls != [] {
      StepKeepsUnfenced(s, ls[0]);
      RunKeepsUnfenced(After(s, ls[0]), ls[1..]);
    }
  }

  /** A server that comes up beside a rotation, its presence lock lost, may lift the fence. Whatever
      happens then, locks lost or not, that rotation never commits: its only ways on are to die
      or to fail, and its failure leaves the epoch it finds. */
  lemma LiftedFenceStopsRotation(s: State, p: Pid, ls: seq<Label>)
    requires s.admin.Fenced? && Enabled(s, Server(p, VerifyEpoch)) && s.procs[p].phase == Seeded(s.admin.from)
    requires s.db.epoch == Rotating(s.admin.from) && Run(After(s, Server(p, VerifyEpoch)), ls)
    requires forall i :: 0 <= i < |ls| ==> !ls[i].AdminStart?
    ensures var t := End(After(s, Server(p, VerifyEpoch)), ls);
            && (t.admin.Fenced? || t.admin.NoAdmin?) && !Enabled(t, AdminTakes(RotateCommit))
            && (t.admin.Fenced? ==> forall keep, lifted ::
                  && Enabled(t, AdminTakes(RotateAbort(keep, lifted)))
                  && After(t, AdminTakes(RotateAbort(keep, lifted))).db == t.db)
  {
    RunKeepsUnfenced(After(s, Server(p, VerifyEpoch)), ls);
  }
}
