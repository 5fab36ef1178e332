/** Why recovery must not promote a pending DEK the epoch does not name: the DEK of the rows is
    lost, and nothing later repairs it. */
module KeyLoss {
  import opened Options
  import opened KeyState
  import opened KeySteps
  import opened KeyAgreement
  import opened KeyGeneration
  import opened KeyDurability
  import opened KeySolo
  import opened KeyRestart

  // ---------------------------------------------------------------------------
  // A lost DEK stays lost

  predicate AwayFrom(ph: Phase, k: Dek) {
    CachesDek(ph) ==> ph.dek != k
  }

  predicate AdminAwayFrom(a: Admin, k: Dek) {
    match a
    case HoldsKey(from) => from != k
    case MarkerChecked(from) => from != k
    case PendingWritten(from, _) => from != k
    case Fenced(_, _, _) => false
    case Committed(_) => false
    case _ => true
  }

  /** The epoch names `k`, which no directory holds where recovery would find it and no
      process remembers. */
  ghost predicate LostFor(s: State, k: Dek) {
    && s.db.epoch == Current(k) && k < s.next && !OnDisk(s, k)
    && (forall p :: p in s.procs ==> AwayFrom(s.procs[p].phase, k))
    && (forall p :: p in s.procs && s.procs[p].phase.Staged? ==> HomeOf(s, p).pending != Some(k))
    && AdminAwayFrom(s.admin, k)
  }

  /** The process and its directory do not have `k`, the DEK of the epoch. */
  predicate Without(v: Local, k: Dek) {
    && v.db.epoch == Current(k) && k < v.next && (v.db.marker || v.phase.Staged? ==> v.home.pending != Some(k))
    && v.home.active != Some(k) && AwayFrom(v.phase, k)
  }

  predicate StillWithout(v: Local, w: Local, k: Dek) {
    && Without(w, k) && (w.db.marker ==> v.db.marker) && (w.home.pending == Some(k) ==> v.home.pending == Some(k))
  }

  lemma KeyStepsCannotFind(v: Local, st: ServerStep, k: Dek)
    requires CanServe(v, st) && KeyStep(st) && Without(v, k)
    ensures StillWithout(v, Serve(v, st), k)
  {
  }

  lemma ServersCannotFind(v: Local, st: ServerStep, k: Dek)
    requires CanServe(v, st) && Without(v, k)
    ensures StillWithout(v, Serve(v, st), k)
  {
    if KeyStep(st) {
      KeyStepsCannotFind(v, st, k);
    } else {
      OtherStepsKeepFiles(v, st);
    }
  }

  lemma RotationCannotFind(v: AdminLocal, st: AdminStep, k: Dek)
    requires CanRotate(v, st) && v.db.epoch == Current(k) && (v.db.marker ==> v.home.pending != Some(k)) && k < v.next
    requires AdminAwayFrom(v.admin, k) && v.home.active != Some(k)
    ensures var w := Rotate(v, st);
            && w.db.epoch == Current(k) && (w.db.marker ==> v.db.marker) && k < w.next
            && AdminAwayFrom(w.admin, k) && w.home.active != Some(k)
            && (w.home.pending == Some(k) ==> v.home.pending == Some(k))
  {
  }

  lemma ServerStepKeepsLost(s: State, p: Pid, st: ServerStep, k: Dek)
    requires Enabled(s, Server(p, st)) && LostFor(s, k)
    ensures LostFor(After(s, Server(p, st)), k)
  {
    var t := After(s, Server(p, st));
    assert forall d :: DirOf(s, d).active != Some(k) && (s.db.marker ==> DirOf(s, d).pending != Some(k));
    ServersCannotFind(LocalOf(s, p), st, k);
    assert forall d :: DirOf(t, d) == DirOf(s, d) || d == s.procs[p].dir;
  }

  lemma RotationStepKeepsLost(s: State, st: AdminStep, k: Dek)
    requires Enabled(s, AdminTakes(st)) && LostFor(s, k)
    ensures LostFor(After(s, AdminTakes(st)), k)
  {
    var t := After(s, AdminTakes(st));
    assert forall d :: DirOf(s, d).active != Some(k) && (s.db.marker ==> DirOf(s, d).pending != Some(k));
    RotationCannotFind(AdminLocalOf(s), st, k);
    assert forall d :: DirOf(t, d) == DirOf(s, d) || d == s.adminDir;
    forall p | p in t.procs && t.procs[p].phase.Staged? ensures HomeOf(t, p).pending != Some(k) {
      assert HomeOf(s, p).pending != Some(k);
    }
  }

  lemma StepKeepsLost(s: State, l: Label, k: Dek)
    requires Enabled(s, l) && LostFor(s, k)
    ensures LostFor(After(s, l), k)
  {
    var t := After(s, l);
    match l {
      case Server(p, st) => ServerStepKeepsLost(s, p, st, k);
      case AdminTakes(st) => RotationStepKeepsLost(s, st, k);
      case CopyKeys(_, _) =>
      case _ => assert forall d :: DirOf(t, d) == DirOf(s, d);
    }
  }

  /** Once lost, in every further run, prudent or not: the epoch goes on naming `k`, no key
      file becomes `k`, and no process that holds the presence lock serves. */
  lemma {:induction false} LossIsForever(s: State, ls: seq<Label>, k: Dek)
    requires Run(s, ls) && LostFor(s, k) && Agrees(s) && ModeRecordedFirst(s)
    ensures var t := End(s, ls);
            && LostFor(t, k)
            && (forall p :: p in t.procs && p in t.presence ==> !t.procs[p].phase.Ready?)
    decreases |ls|
  {
    if ls != [] {
      StepKeepsLost(s, ls[0], k);
      StepKeepsAgreement(s, ls[0]);
      LossIsForever(After(s, ls[0]), ls[1..], k);
    }
  }

  // ---------------------------------------------------------------------------
  // Recovery promotes a pending DEK without comparing it with the epoch

  /** Promoting a stray pending DEK leaves a safe state exactly when the current DEK is an
      active file in some directory. */
  lemma MispromotedButSafe(s: State, p: Pid)
    requires Safe(s) && Enabled(s, Server(p, Recover)) && Mispromotes(s.db, HomeOf(s, p))
    requires HasActive(After(s, Server(p, Recover)), s.db.epoch.dek)
    ensures Safe(After(s, Server(p, Recover)))
  {
    var l := Server(p, Recover);
    var t := After(s, l);
    var k := s.db.epoch.dek;
    StepKeepsExclusive(s, l);
    forall d ensures KnownDir(DirOf(t, d), t.next) {
      assert KnownDir(DirOf(s, d), s.next);
    }
    forall q | q in t.procs ensures ProcBacked(t, q) {
      assert ProcBacked(s, q);
      assert Critical(s.procs[q].phase) ==> HoldsKeyLock(s, q);
      assert HoldsKeyLock(s, p);
    }
  }

  lemma MispromotedAndLost(s: State, p: Pid)
    requires Safe(s) && Tidy(s) && Enabled(s, Server(p, Recover)) && Mispromotes(s.db, HomeOf(s, p))
    requires !HasActive(s, s.db.epoch.dek)
    ensures var t := After(s, Server(p, Recover));
            Enabled(t, Server(p, ClearPromoted)) && LostFor(After(t, Server(p, ClearPromoted)), s.db.epoch.dek)
  {
    var k := s.db.epoch.dek;
    var t := After(s, Server(p, Recover));
    var u := After(t, Server(p, ClearPromoted));
    assert s.admin.NoAdmin?;
    forall d ensures DirOf(u, d).active != Some(k) {
      assert DirOf(s, d).active != Some(k);
    }
    forall q | q in u.procs
      ensures AwayFrom(u.procs[q].phase, k) && (u.procs[q].phase.Staged? ==> HomeOf(u, q).pending != Some(k))
    {
      assert ProcBacked(s, q) && TidyDir(s.db, HomeOf(s, q));
      assert Critical(s.procs[q].phase) ==> HoldsKeyLock(s, q);
      assert HoldsKeyLock(s, p);
    }
  }

  ghost predicate LeadsToLoss(s: State, k: Dek) {
    exists ls :: Run(s, ls) && Throughout(s, ls, Prudent) && LostFor(End(s, ls), k)
  }

  /** In any state a prudent run can reach, taking the step by which recovery promotes a
      pending DEK the epoch does not name loses the current DEK, through steps that are all
      prudent from then on, if and only if no directory holds the current DEK as its active
      file. */
  lemma MispromotionExactlyLoses(s: State, p: Pid)
    requires Safe(s) && Tidy(s) && Enabled(s, Server(p, Recover)) && Mispromotes(s.db, HomeOf(s, p))
    ensures LeadsToLoss(After(s, Server(p, Recover)), s.db.epoch.dek) <==> !HasActive(s, s.db.epoch.dek)
  {
    var k := s.db.epoch.dek;
    var t := After(s, Server(p, Recover));
    if HasActive(s, k) {
      var d :| DirOf(s, d).active == Some(k);
      assert TidyDir(s.db, DirOf(s, d));
      assert DirOf(t, d).active == Some(k);
      MispromotedButSafe(s, p);
      forall ls | Run(t, ls) && Throughout(t, ls, Prudent) ensures !LostFor(End(t, ls), k) {
        RunIsSafe(t, ls);
      }
    } else {
      MispromotedAndLost(s, p);
      LosesInOne(t, Server(p, ClearPromoted), k);
    }
  }

  lemma RotationMispromotedButSafe(s: State)
    requires Safe(s) && Enabled(s, AdminTakes(RotateRecover)) && Mispromotes(s.db, DirOf(s, s.adminDir))
    requires HasActive(After(s, AdminTakes(RotateRecover)), s.db.epoch.dek)
    ensures Safe(After(s, AdminTakes(RotateRecover)))
  {
    var l := AdminTakes(RotateRecover);
    var t := After(s, l);
    StepKeepsExclusive(s, l);
    forall d ensures KnownDir(DirOf(t, d), t.next) {
      assert KnownDir(DirOf(s, d), s.next);
    }
    NobodyLive(s, t);
  }

  lemma RotationMispromotedAndLost(s: State)
    requires Safe(s) && Enabled(s, AdminTakes(RotateRecover)) && Mispromotes(s.db, DirOf(s, s.adminDir))
    requires !HasActive(s, s.db.epoch.dek)
    ensures var t := After(s, AdminTakes(RotateRecover));
            Enabled(t, AdminTakes(RotateClearPromoted))
            && LostFor(After(t, AdminTakes(RotateClearPromoted)), s.db.epoch.dek)
  {
    var k := s.db.epoch.dek;
    var u := After(After(s, AdminTakes(RotateRecover)), AdminTakes(RotateClearPromoted));
    forall d ensures DirOf(u, d).active != Some(k) {
      assert DirOf(s, d).active != Some(k);
    }
    assert forall p :: p in s.procs ==> !Live(s.procs[p].phase);
  }

  /** The same of the recovery a rotation opens with. */
  lemma RotationMispromotionExactlyLoses(s: State)
    requires Safe(s) && Tidy(s) && Enabled(s, AdminTakes(RotateRecover)) && Mispromotes(s.db, DirOf(s, s.adminDir))
    ensures LeadsToLoss(After(s, AdminTakes(RotateRecover)), s.db.epoch.dek) <==> !HasActive(s, s.db.epoch.dek)
  {
    var k := s.db.epoch.dek;
    var t := After(s, AdminTakes(RotateRecover));
    if HasActive(s, k) {
      var d :| DirOf(s, d).active == Some(k);
      assert TidyDir(s.db, DirOf(s, d));
      assert DirOf(t, d).active == Some(k);
      RotationMispromotedButSafe(s);
      forall ls | Run(t, ls) && Throughout(t, ls, Prudent) ensures !LostFor(End(t, ls), k) {
        RunIsSafe(t, ls);
      }
    } else {
      RotationMispromotedAndLost(s);
      LosesInOne(t, AdminTakes(RotateClearPromoted), k);
    }
  }

  lemma LosesInOne(t: State, l: Label, k: Dek)
    requires Enabled(t, l) && Prudent(t, l) && LostFor(After(t, l), k)
    ensures LeadsToLoss(t, k)
  {
    var ls := [l];
    var u := After(t, l);
    assert ls[1..] == [] && End(u, []) == u && Run(u, []) && Throughout(u, [], Prudent);
    assert Run(t, ls) && Throughout(t, ls, Prudent) && End(t, ls) == u;
  }

  ghost predicate TwoCopies(s: State, d: DirId, e: DirId) {
    && Safe(s) && Tidy(s) && AtRest(s) && s.presence == {}
    && s.db.epoch.Current? && !s.db.marker && d != e
    && Whole(s.kekFiles, DirOf(s, d)) && DirOf(s, d).active == Some(s.db.epoch.dek) && DirOf(s, d).pending.None?
    && DirOf(s, e) == DirOf(s, d)
  }

  /** A rotation that dies right after writing its pending file in `e`, and one that commits
      and dies before its rename in `d`. */
  lemma TwoRotations(s: State, d: DirId, e: DirId) returns (ls: seq<Label>)
    requires TwoCopies(s, d, e)
    ensures Run(s, ls) && Throughout(s, ls, Prudent)
    ensures var t := End(s, ls);
            && t.procs == s.procs && t.presence == {} && t.locks == s.locks && t.admin.NoAdmin?
            && t.db.epoch.Current? && t.db.epoch.dek > s.next && t.db.marker
            && t.kekFiles == s.kekFiles && DirOf(t, e) == DirOf(s, e).(pending := Some(s.next))
            && (forall f :: DirOf(t, f).active == DirOf(s, f).active)
  {
    var k := s.db.epoch.dek;
    var sts1 := StageAndCrash(OpenedIn(s, e), k);
    var ls1 := RotateIn(s, e, sts1, StagedBy(OpenedIn(s, e), NoAdmin));
    var s1 := End(s, ls1);
    var sts2 := CommitAndCrash(OpenedIn(s1, d), k);
    var ls2 := RotateIn(s1, d, sts2, StagedBy(OpenedIn(s1, d), NoAdmin).(db := SweptTo(s1.db, s1.next)));
    RunAppend(s, ls1, ls2, Prudent);
    ls := ls1 + ls2;
  }

  /** Not a corner of the state space: from every deployment at rest with the current key set
      in two directories, prudent steps (a rotation that dies right after writing its pending
      file in one, a rotation that commits and dies in the other, a restart in the first)
      lead to a recovery that promotes the stray file and loses the DEK of every row. */
  lemma TwoDirectoriesCanLose(s: State, d: DirId, e: DirId, p: Pid) returns (ls: seq<Label>)
    requires TwoCopies(s, d, e) && p !in s.procs
    ensures Run(s, ls) && Throughout(s, ls, Prudent)
    ensures var t := End(s, ls);
            && Enabled(t, Server(p, Recover)) && t.db.epoch.Current?
            && LeadsToLoss(After(t, Server(p, Recover)), t.db.epoch.dek)
  {
    var ls1 := TwoRotations(s, d, e);
    var s1 := End(s, ls1);
    var v := LocalOf(Arrived(s1, p, e), p);
    var sts := CheckAlone(v);
    var ls2 := ServeIn(s1, p, e, sts, Checked(v));
    RunAppend(s, ls1, ls2, Prudent);
    ls := ls1 + ls2;
    RunIsTidy(s, ls);
    StrayIsPromoted(s, s1, End(s1, ls2), e, p);
  }

  lemma StrayIsPromoted(s: State, s1: State, t: State, e: DirId, p: Pid)
    requires Known(s) && Safe(t) && Tidy(t) && p in t.procs && t.procs[p].dir == e && t.procs[p].phase.Consistent?
    requires t.db.epoch.Current? && t.db.epoch.dek > s.next && t.db.marker
    requires LocalOf(t, p).home == DirOf(s1, e) && DirOf(s1, e).pending == Some(s.next)
    requires forall f :: f != e ==> DirOf(t, f) == DirOf(s1, f)
    requires forall f :: DirOf(s1, f).active == DirOf(s, f).active
    ensures Enabled(t, Server(p, Recover)) && LeadsToLoss(After(t, Server(p, Recover)), t.db.epoch.dek)
  {
    forall f ensures DirOf(t, f).active != Some(t.db.epoch.dek) {
      assert KnownDir(DirOf(s, f), s.next);
      assert DirOf(s1, f).active == DirOf(s, f).active;
    }
    MispromotionExactlyLoses(t, p);
  }

  // ---------------------------------------------------------------------------
  // In flock mode, and with no key file but the DEK's, one rotation is enough

  /** An interrupted first boot on an empty directory leaves a pending file and no key. */
  lemma StageFirstAndCrash(v: Local) returns (sts: seq<ServerStep>)
    requires v.phase.Present? && v.lock.Free? && v.home == EMPTY_DIR && v.mode.Flock? && !v.kekFiles && !v.db.marker
    ensures Leads(v, sts, DiedStaged(v))
  {
    sts := CheckAlone(v);
    sts := StageOn(v, sts, Checked(v));
  }

  function DiedStaged(v: Local): Local {
    v.(phase := Exited(2), generated := true, present := false, lock := Free,
       home := KeyDir(None, Some(v.next), v.kekFiles), next := v.next + 1, firstBoot := v.firstBoot + 1)
  }

  lemma StageOn(o: Local, before: seq<ServerStep>, v: Local) returns (sts: seq<ServerStep>)
    requires Leads(o, before, v) && v.phase.Consistent? && v.lock.Mine? && v.home == EMPTY_DIR && !v.db.marker
    ensures Leads(o, sts, DiedStaged(v))
  {
    var w := v;
    sts := before;
    LeadsOn(o, sts, w, Recover);
    w, sts := Serve(w, Recover), sts + [Recover];
    LeadsOn(o, sts, w, DeriveKek);
    w, sts := Serve(w, DeriveKek), sts + [DeriveKek];
    LeadsOn(o, sts, w, Initialize);
    w, sts := Serve(w, Initialize), sts + [Initialize];
    LeadsOn(o, sts, w, Generate);
    w, sts := Serve(w, Generate), sts + [Generate];
    LeadsOn(o, sts, w, Crash);
    sts := sts + [Crash];
  }

  /** A deployment in flock mode, dek.key its only required key file, with the key set in `d` and an
      empty directory `e`. */
  ghost predicate BesideEmpty(s: State, d: DirId, e: DirId) {
    && Safe(s) && Tidy(s) && AtRest(s) && s.presence == {} && s.mode.Flock? && !s.kekFiles
    && s.db.epoch.Current? && !s.db.marker && d != e
    && DirOf(s, d).active == Some(s.db.epoch.dek) && DirOf(s, d).pending.None? && DirOf(s, e) == EMPTY_DIR
  }

  lemma FirstBootDies(s: State, e: DirId, p: Pid) returns (ls: seq<Label>)
    requires AtRest(s) && s.presence == {} && s.mode.Flock? && !s.kekFiles && !s.db.marker
    requires DirOf(s, e) == EMPTY_DIR && p !in s.procs
    ensures Run(s, ls) && Throughout(s, ls, Prudent)
    ensures var t := End(s, ls);
            && t.procs.Keys == s.procs.Keys + {p} && t.presence == {} && DirLock(e) !in t.locks && t.admin.NoAdmin?
            && t.mode.Flock? && !t.kekFiles && t.db == s.db && t.next == s.next + 1
            && DirOf(t, e) == KeyDir(None, Some(s.next), false)
            && (forall f :: f != e ==> DirOf(t, f) == DirOf(s, f))
  {
    var v := LocalOf(Arrived(s, p, e), p);
    var sts := StageFirstAndCrash(v);
    var w := DiedStaged(v);
    ls := ServeIn(s, p, e, sts, w);
    var t := End(s, ls);
    assert LocalOf(t, p) == w;
    assert w.db == t.db && w.next == t.next && w.home == DirOf(t, e);
  }

  /** A first boot that dies in `e`, and a rotation that commits and dies before its rename in `d`. */
  lemma StrayThenCommitted(s: State, d: DirId, e: DirId, p: Pid) returns (ls: seq<Label>)
    requires BesideEmpty(s, d, e) && p !in s.procs
    ensures Run(s, ls) && Throughout(s, ls, Prudent)
    ensures var t := End(s, ls);
            && t.procs.Keys == s.procs.Keys + {p} && t.presence == {} && DirLock(e) !in t.locks && t.admin.NoAdmin?
            && t.mode.Flock? && !t.kekFiles && t.db.epoch.Current? && t.db.epoch.dek > s.next && t.db.marker
            && DirOf(t, e) == KeyDir(None, Some(s.next), false)
            && (forall f :: DirOf(t, f).active == DirOf(s, f).active)
  {
    var k := s.db.epoch.dek;
    var ls1 := FirstBootDies(s, e, p);
    var s1 := End(s, ls1);
    var sts := CommitAndCrash(OpenedIn(s1, d), k);
    var ls2 := RotateIn(s1, d, sts, StagedBy(OpenedIn(s1, d), NoAdmin).(db := SweptTo(s1.db, s1.next)));
    RunAppend(s, ls1, ls2, Prudent);
    ls := ls1 + ls2;
  }

  /** Rotating in one directory only does not prevent the loss where neither the generation check
      of database mode nor a file of the key provider stands in the way: there a first boot that
      died on an empty directory is enough of a stray. */
  lemma FlockCanLose(s: State, d: DirId, e: DirId, p: Pid, q: Pid) returns (ls: seq<Label>)
    requires BesideEmpty(s, d, e) && p !in s.procs && q !in s.procs && p != q
    ensures Run(s, ls) && Throughout(s, ls, Prudent)
    ensures var t := End(s, ls);
            && Enabled(t, Server(q, Recover)) && t.db.epoch.Current?
            && LeadsToLoss(After(t, Server(q, Recover)), t.db.epoch.dek)
  {
    var ls1 := StrayThenCommitted(s, d, e, p);
    var s1 := End(s, ls1);
    var v := LocalOf(Arrived(s1, q, e), q);
    var sts := CheckAlone(v);
    var ls2 := ServeIn(s1, q, e, sts, Checked(v));
    RunAppend(s, ls1, ls2, Prudent);
    ls := ls1 + ls2;
    RunIsTidy(s, ls);
    StrayIsPromoted(s, s1, End(s1, ls2), e, q);
  }
}
