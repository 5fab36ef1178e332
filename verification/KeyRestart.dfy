/** After any run, however it was interrupted, some key directory starts a server that reads
    every row. */
module KeyRestart {
  import opened Options
  import opened KeyState
  import opened KeySteps
  import opened KeyDurability
  import opened KeySets
  import opened KeySolo

  /** While the marker stands, a directory that already has the current DEK has no stray
      pending one beside it, and one that has it pending also has an active file. */
  predicate TidyDir(db: Db, k: KeyDir) {
    db.marker && db.epoch.Current? && k.pending.Some? ==>
      && (k.active == Some(db.epoch.dek) ==> k.pending == k.active)
      && (k.pending == Some(db.epoch.dek) ==> k.active.Some?)
  }

  predicate AdminTidy(v: AdminLocal) {
    v.admin.HoldsKey? || v.admin.MarkerChecked? || v.admin.PendingWritten? || v.admin.Fenced? ==>
      v.home.active == Some(v.admin.from)
  }

  /** The DEK being rotated to exists only as the pending file of this rotation. */
  ghost predicate OnlyStaged(s: State, k: Dek) {
    forall d :: DirOf(s, d).active != Some(k) && (d != s.adminDir ==> DirOf(s, d).pending != Some(k))
  }

  ghost predicate Tidy(s: State) {
    && (forall d :: TidyDir(s.db, DirOf(s, d)))
    && AdminTidy(AdminLocalOf(s))
    && (s.admin.PendingWritten? || s.admin.Fenced? ==> OnlyStaged(s, s.admin.into))
  }

  lemma ServersAreTidy(v: Local, st: ServerStep)
    requires CanServe(v, st) && (st.Recover? ==> !Mispromotes(v.db, v.home))
    requires v.phase.Missing? ==> v.home.active.None? && v.home.pending.None?
    requires KnownEpoch(v.db, v.next)
    ensures TidyDir(v.db, v.home) ==> TidyDir(v.db, Serve(v, st).home)
  {
    if !KeyStep(st) {
      OtherStepsKeepFiles(v, st);
    }
  }

  lemma ServersKeepEpoch(v: Local, st: ServerStep)
    requires CanServe(v, st)
    ensures Serve(v, st).db.marker ==> v.db.marker
    ensures v.db.epoch.Current? ==> Serve(v, st).db.epoch == v.db.epoch
  {
  }

  lemma ServerStepIsTidy(s: State, p: Pid, st: ServerStep)
    requires Safe(s) && Tidy(s) && Enabled(s, Server(p, st)) && Prudent(s, Server(p, st))
    ensures Tidy(After(s, Server(p, st)))
  {
    var t := After(s, Server(p, st));
    assert ProcBacked(s, p);
    ServersAreTidy(LocalOf(s, p), st);
    ServersKeepEpoch(LocalOf(s, p), st);
    assert s.admin.NoAdmin?;
    forall d ensures TidyDir(t.db, DirOf(t, d)) {
      assert TidyDir(s.db, DirOf(s, d));
    }
  }

  lemma RotationIsTidy(v: AdminLocal, st: AdminStep)
    requires CanRotate(v, st) && AdminTidy(v) && StagesOwn(v) && TidyDir(v.db, v.home)
    requires v.admin.MarkerChecked? && v.db.epoch == Current(v.admin.from) ==> !v.db.marker
    requires KnownEpoch(v.db, v.next)
    ensures var w := Rotate(v, st);
            && AdminTidy(w)
            && (!st.RotateCommit? ==> TidyDir(v.db, w.home) && (w.db.marker ==> v.db.marker))
            && (v.db.epoch.Current? && v.db.marker && !st.RotateCommit? ==> w.db.epoch == v.db.epoch)
  {
  }

  lemma RotationStages(s: State, st: AdminStep)
    requires Safe(s) && Tidy(s) && Enabled(s, AdminTakes(st))
    ensures var t := After(s, AdminTakes(st));
            t.admin.PendingWritten? || t.admin.Fenced? ==> OnlyStaged(t, t.admin.into)
  {
    var t := After(s, AdminTakes(st));
    if t.admin.PendingWritten? {
      forall d ensures DirOf(t, d).active != Some(s.next) && (d != s.adminDir ==> DirOf(t, d).pending != Some(s.next)) {
        assert KnownDir(DirOf(s, d), s.next);
      }
    } else if t.admin.Fenced? {
      forall d ensures DirOf(t, d) == DirOf(s, d) {
      }
    }
  }

  lemma RotationStepIsTidy(s: State, st: AdminStep)
    requires Safe(s) && Tidy(s) && Enabled(s, AdminTakes(st)) && Prudent(s, AdminTakes(st))
    ensures Tidy(After(s, AdminTakes(st)))
  {
    var t := After(s, AdminTakes(st));
    assert TidyDir(s.db, DirOf(s, s.adminDir));
    RotationIsTidy(AdminLocalOf(s), st);
    RotationStages(s, st);
    assert t.adminDir == s.adminDir && DirOf(t, t.adminDir) == Rotate(AdminLocalOf(s), st).home;
    forall d ensures TidyDir(t.db, DirOf(t, d)) {
      assert TidyDir(s.db, DirOf(s, d));
      assert d != s.adminDir ==> DirOf(t, d) == DirOf(s, d);
    }
  }

  lemma OtherStepIsTidy(s: State, l: Label)
    requires Safe(s) && Tidy(s) && Enabled(s, l) && KeepsLocks(s, l) && !l.Server? && !l.AdminTakes?
    ensures Tidy(After(s, l))
  {
    var t := After(s, l);
    forall d ensures TidyDir(t.db, DirOf(t, d)) {
      assert TidyDir(s.db, DirOf(s, d));
    }
    assert forall d :: DirOf(t, d).pending == DirOf(s, d).pending;
    assert forall d :: DirOf(t, d).active == DirOf(s, d).active || DirOf(t, d).active == Some(s.db.epoch.dek);
  }

  lemma {:induction false} RunIsTidy(s: State, ls: seq<Label>)
    requires Safe(s) && Tidy(s) && Run(s, ls) && Throughout(s, ls, Prudent)
    ensures Safe(End(s, ls)) && Tidy(End(s, ls))
    decreases |ls|
  {
    if ls != [] {
      var l := ls[0];
      match l {
        case Server(p, st) => ServerStepIsTidy(s, p, st);
        case AdminTakes(st) => RotationStepIsTidy(s, st);
        case _ => OtherStepIsTidy(s, l);
      }
      StepIsSafe(s, l);
      RunIsTidy(After(s, l), ls[1..]);
    }
  }

  /** Every process that was present has ended, by a crash or otherwise, and no lock is held. */
  predicate AtRest(s: State) {
    s.admin.NoAdmin? && s.locks == map[] && forall p :: p in s.procs ==> !Live(s.procs[p].phase)
  }

  /** A directory that holds the DEK the rows are under, where a boot succeeds. */
  lemma SomeDirectoryBoots(s: State) returns (d: DirId)
    requires Safe(s) && Tidy(s) && KekFirst(s) && (!s.db.epoch.Absent? || AnyEncrypted(s.db.rows))
    ensures Boots(s.kekFiles, s.db, DirOf(s, d)) && AllUnder(s.db.rows, RecoveredHome(s.db, DirOf(s, d)).active.value)
  {
    if s.db.epoch.Absent? {
      var k: Dek :| AllUnder(s.db.rows, k) && HasActive(s, k);
      d :| DirOf(s, d).active == Some(k);
      SecretVersionsUnder(s.db.rows, k);
      NewestUnder(SecretVersions(s.db.rows), PROBE_LIMIT, k);
    } else {
      var k := s.db.epoch.dek;
      if s.db.marker && HasPending(s, k) {
        d :| DirOf(s, d).pending == Some(k);
        assert TidyDir(s.db, DirOf(s, d));
      } else {
        d :| DirOf(s, d).active == Some(k);
        assert TidyDir(s.db, DirOf(s, d));
      }
    }
  }

  lemma BootFrom(s: State, d: DirId, p: Pid) returns (ls: seq<Label>)
    requires AtRest(s) && p !in s.procs && Boots(s.kekFiles, s.db, DirOf(s, d)) && (s.db.marker ==> s.db.epoch.Current?)
    ensures Run(s, ls) && Throughout(s, ls, Prudent)
    ensures var t := End(s, ls);
            && p in t.procs && t.procs[p].phase == Ready(RecoveredHome(s.db, DirOf(s, d)).active.value)
            && t.db.rows == s.db.rows && p in t.presence
  {
    var v := LocalOf(Arrived(s, p, d), p);
    var sts := BootAlone(v);
    ls := ServeIn(s, p, d, sts, Booted(v));
    var t := End(s, ls);
    assert LocalOf(t, p) == Booted(v);
    assert LocalOf(t, p).phase == t.procs[p].phase && LocalOf(t, p).db == t.db && LocalOf(t, p).present;
  }

  /** A deployment at rest whose rows, epoch and key files belong together, each key set whole. */
  ghost predicate TidyStart(s: State) {
    SoundStart(s) && KekFirst(s) && forall d :: TidyDir(s.db, DirOf(s, d))
  }

  /** Whatever crashed, and wherever: from the state a prudent run leaves at rest there is a
      key directory whose server boots, and every encrypted row is under the DEK it serves. */
  lemma CanAlwaysRestart(s: State, ls: seq<Label>, p: Pid) returns (more: seq<Label>)
    requires TidyStart(s) && Run(s, ls) && Throughout(s, ls, Prudent)
    requires var t := End(s, ls); AtRest(t) && p !in t.procs && (!t.db.epoch.Absent? || AnyEncrypted(t.db.rows))
    ensures var t := End(s, ls);
            && Run(t, more) && Throughout(t, more, Prudent)
            && var u := End(t, more);
               && p in u.procs && u.procs[p].phase.Ready? && u.db.rows == t.db.rows
               && AllUnder(u.db.rows, u.procs[p].phase.dek)
  {
    RunIsTidy(s, ls);
    KekPrecedesDek(s, ls);
    var t := End(s, ls);
    var d := SomeDirectoryBoots(t);
    more := BootFrom(t, d, p);
  }

  /** A replica is added, and a directory with a partial key set repaired, by copying the current key
      set: from rest, a server on the directory it was copied to boots and serves the DEK of the
      epoch. */
  lemma CopiedKeySetBoots(s: State, src: DirId, dst: DirId, p: Pid) returns (ls: seq<Label>)
    requires AtRest(s) && KekFirst(s) && p !in s.procs && Enabled(s, CopyKeys(src, dst))
    ensures var t := After(s, CopyKeys(src, dst));
            && Run(t, ls) && Throughout(t, ls, Prudent)
            && var u := End(t, ls);
               p in u.procs && p in u.presence && u.procs[p].phase == Ready(s.db.epoch.dek) && u.db.rows == s.db.rows
  {
    var t := After(s, CopyKeys(src, dst));
    assert HoldsDek(DirOf(s, src));
    assert Whole(t.kekFiles, DirOf(t, dst));
    ls := BootFrom(t, dst, p);
  }
}
