/** Why no lock may be lost: one lost key-init lock, or one lost presence lock, and otherwise prudent
    steps lose the DEK of every row. */
module KeyLockLoss {
  import opened Options
  import opened KeyState
  import opened KeySteps
  import opened KeyGeneration
  import opened KeyDurability
  import opened KeySolo
  import opened KeyRestart
  import opened KeyLoss

  // ---------------------------------------------------------------------------
  // A lost key-init lock during generation

  /** An empty database-mode deployment, nothing running. */
  ghost predicate Empty(s: State, d: DirId) {
    && Quiet(s) && s.mode.Database? && DirOf(s, d) == EMPTY_DIR && Known(s)
    && s.db == Db(Absent, false, [], s.db.modeRecorded)
  }

  /** A process on an empty directory has found the key set whole and nothing to recover. */
  lemma SettleAlone(v: Local) returns (sts: seq<ServerStep>)
    requires v.phase.Present? && v.lock.Free? && v.home == EMPTY_DIR && MayGenerate(v) && !v.db.marker
    ensures Leads(v, sts, Checked(v).(phase := Settled))
  {
    sts := CheckAlone(v);
    LeadsOn(v, sts, Checked(v), Recover);
    sts := sts + [Recover];
  }

  /** A second process settles too, while the directory is still empty: the first lost its lock. */
  ghost predicate BothSettled(s: State, p: Pid, q: Pid, d: DirId) {
    && s.mode.Database? && s.admin.NoAdmin? && p != q && s.procs.Keys == {p, q}
    && s.procs[p].dir == d && s.procs[q].dir == d && s.procs[p].phase.Settled? && s.procs[q].phase.Settled?
    && KeyInitLock in s.locks && s.locks[KeyInitLock] == q
    && s.db == Db(Absent, false, [], true) && DirOf(s, d) == EMPTY_DIR
  }

  lemma SettleIn(s: State, p: Pid, d: DirId) returns (ls: seq<Label>)
    requires s.mode.Database? && s.admin.NoAdmin? && p !in s.procs && KeyInitLock !in s.locks
    requires DirOf(s, d) == EMPTY_DIR
    requires s.db == Db(Absent, false, [], s.db.modeRecorded)
    ensures Run(s, ls) && Throughout(s, ls, Prudent)
    ensures var t := End(s, ls);
            && t.mode.Database? && t.kekFiles == s.kekFiles && t.admin.NoAdmin? && t.procs.Keys == s.procs.Keys + {p}
            && (forall q :: q in s.procs ==> t.procs[q] == s.procs[q])
            && t.procs[p].dir == d && t.procs[p].phase.Settled?
            && KeyInitLock in t.locks && t.locks[KeyInitLock] == p
            && t.db == s.db.(modeRecorded := true) && t.next == s.next
            && (forall e :: DirOf(t, e) == DirOf(s, e))
  {
    var v := LocalOf(Arrived(s, p, d), p);
    var sts := SettleAlone(v);
    var w := Checked(v).(phase := Settled);
    ls := ServeIn(s, p, d, sts, w);
    var t := End(s, ls);
    assert LocalOf(t, p) == w;
    assert w.db == t.db && w.next == t.next && w.home == DirOf(t, d);
  }

  /** The process that lost its lock derives its KEK and finds no DEK; the other is not disturbed. */
  lemma FirstLooks(s: State, p: Pid, q: Pid, d: DirId) returns (ls: seq<Label>)
    requires BothSettled(s, p, q, d)
    ensures Run(s, ls) && Throughout(s, ls, Prudent)
    ensures var t := End(s, ls);
            && t.mode.Database? && t.kekFiles == s.kekFiles && t.admin.NoAdmin? && t.db == s.db && t.next == s.next
            && t.procs == s.procs[p := s.procs[p].(phase := Missing)]
            && KeyInitLock in t.locks && t.locks[KeyInitLock] == q
            && DirOf(t, d) == KeyDir(None, None, s.kekFiles) && (forall e :: e != d ==> DirOf(t, e) == DirOf(s, e))
  {
    var l1, l2 := Server(p, DeriveKek), Server(p, Initialize);
    LooksAlone(s, p, q, DeriveKek);
    var s1 := After(s, l1);
    LooksAlone(s1, p, q, Initialize);
    var s2 := After(s1, l2);
    ls := [l1, l2];
    assert ls[1..] == [l2] && [l2][1..] == [];
    assert Run(s2, []) && Throughout(s2, [], Prudent) && End(s2, []) == s2;
    assert Run(s1, [l2]) && Throughout(s1, [l2], Prudent) && End(s1, [l2]) == s2;
  }

  lemma LooksAlone(s: State, p: Pid, q: Pid, st: ServerStep)
    requires p in s.procs && p != q && s.mode.Database? && KeyInitLock in s.locks && s.locks[KeyInitLock] == q
    requires (st.DeriveKek? || st.Initialize?) && CanServe(LocalOf(s, p), st)
    ensures var t := After(s, Server(p, st));
            var w := Serve(LocalOf(s, p), st);
            && t.mode == s.mode && t.kekFiles == s.kekFiles && t.admin == s.admin && t.db == s.db && t.next == s.next
            && t.procs == s.procs[p := s.procs[p].(phase := w.phase)]
            && KeyInitLock in t.locks && t.locks[KeyInitLock] == q
            && (forall e :: DirOf(t, e) == if e == s.procs[p].dir then w.home else DirOf(s, e))
  {
  }

  /** The DEK is seeded as the epoch, one row is written, and the process dies. */
  lemma ServeAndCrash(o: Local, before: seq<ServerStep>, v: Local, payload: nat) returns (sts: seq<ServerStep>)
    requires Leads(o, before, v)
    requires v.phase.Loaded? && v.lock.Mine? && v.mode.Database? && v.home.pending.None?
    requires v.db == Db(Absent, false, [], true)
    ensures Leads(o, sts, Served(v, payload))
  {
    assert Probe([], v.phase.dek);
    var w := v;
    sts := before;
    LeadsOn(o, sts, w, SeedEpoch);
    w, sts := Serve(w, SeedEpoch), sts + [SeedEpoch];
    LeadsOn(o, sts, w, VerifyEpoch);
    w, sts := Serve(w, VerifyEpoch), sts + [VerifyEpoch];
    LeadsOn(o, sts, w, ClearCompleted(true));
    w, sts := Serve(w, ClearCompleted(true)), sts + [ClearCompleted(true)];
    LeadsOn(o, sts, w, ReleaseKeys);
    w, sts := Serve(w, ReleaseKeys), sts + [ReleaseKeys];
    LeadsOn(o, sts, w, Write(Insert(payload, true)));
    w, sts := Serve(w, Write(Insert(payload, true))), sts + [Write(Insert(payload, true))];
    assert w.db.rows == [Row(payload, Some(v.phase.dek), true)];
    LeadsOn(o, sts, w, Crash);
    sts := sts + [Crash];
  }

  function Served(v: Local, payload: nat): Local
    requires v.phase.Loaded?
  {
    v.(phase := Exited(2), present := false, lock := Free,
       db := Db(Current(v.phase.dek), false, [Row(payload, Some(v.phase.dek), true)], true))
  }

  /** The process that holds the lock goes on: it generates, records its DEK, writes and dies. */
  lemma SecondServes(s: State, q: Pid, payload: nat) returns (ls: seq<Label>)
    requires q in s.procs && s.procs[q].phase.Settled? && s.mode.Database? && LocalOf(s, q).lock.Mine?
    requires HomeOf(s, q) == KeyDir(None, None, s.kekFiles) && s.db == Db(Absent, false, [], true)
    ensures Run(s, ls) && Throughout(s, ls, Prudent)
    ensures var t := End(s, ls);
            && OnlyBy(s, q, t) && t.procs[q].phase.Exited? && t.next == s.next + 1
            && HomeOf(t, q) == KeyDir(Some(s.next), None, s.kekFiles)
            && t.db == Db(Current(s.next), false, [Row(payload, Some(s.next), true)], true)
  {
    var v := LocalOf(s, q);
    var sts := [];
    LeadsOn(v, sts, v, DeriveKek);
    var w := Serve(v, DeriveKek);
    sts := InstallOn(v, sts + [DeriveKek], w);
    sts := ServeAndCrash(v, sts, Generated(w), payload);
    var x := Served(Generated(w), payload);
    SoloRun(s, q, sts, x);
    ls := Labels(q, sts);
    var t := End(s, ls);
    assert LocalOf(t, q).db == t.db && LocalOf(t, q).next == t.next;
  }

  /** The process that found no DEK goes on to write one, whatever is there by now. */
  lemma FirstOverwrites(s: State, p: Pid) returns (ls: seq<Label>)
    requires p in s.procs && s.procs[p].phase.Missing?
    ensures Run(s, ls) && Throughout(s, ls, Prudent)
    ensures var t := End(s, ls);
            && OnlyBy(s, p, t) && t.procs[p].phase.Derived? && t.db == s.db && t.next == s.next + 1
            && HomeOf(t, p).active == Some(s.next) && HomeOf(t, p).pending.None?
  {
    var v := LocalOf(s, p);
    var sts := [];
    LeadsOn(v, sts, v, Generate);
    var w := Serve(v, Generate);
    LeadsOn(v, sts + [Generate], w, Install);
    sts := sts + [Generate] + [Install];
    SoloRun(s, p, sts, Serve(w, Install));
    ls := Labels(p, sts);
    var t := End(s, ls);
    assert LocalOf(t, p).db == t.db && LocalOf(t, p).next == t.next;
  }

  /** The first process overwrites the key file of the DEK the epoch names. */
  lemma OverwriteLoses(s: State, p: Pid, k: Dek, payload: nat) returns (ls: seq<Label>)
    requires p in s.procs && s.procs[p].phase.Missing? && s.admin.NoAdmin? && k < s.next
    requires forall q :: q in s.procs && q != p ==> s.procs[q].phase.Exited?
    requires s.db == Db(Current(k), false, [Row(payload, Some(k), true)], true)
    requires forall e :: e != s.procs[p].dir ==> DirOf(s, e).active != Some(k)
    ensures Run(s, ls) && Throughout(s, ls, Prudent)
    ensures var u := End(s, ls); AnyEncrypted(u.db.rows) && AllUnder(u.db.rows, k) && LostFor(u, k)
  {
    ls := FirstOverwrites(s, p);
    var u := End(s, ls);
    assert u.db.rows[0].under == Some(k);
    forall e ensures DirOf(u, e).active != Some(k) {
      assert e != s.procs[p].dir ==> DirOf(u, e) == DirOf(s, e);
    }
  }

  /** From both processes settled: the second serves its DEK and has a secret stored under it, and
      the first overwrites its key file. */
  lemma OverwriteAfterLoss(s: State, p: Pid, q: Pid, d: DirId, payload: nat) returns (ls: seq<Label>)
    requires BothSettled(s, p, q, d) && (forall e :: DirOf(s, e).active != Some(s.next))
    ensures Run(s, ls) && Throughout(s, ls, Prudent)
    ensures var u := End(s, ls); AnyEncrypted(u.db.rows) && AllUnder(u.db.rows, s.next) && LostFor(u, s.next)
  {
    var ls1 := FirstLooks(s, p, q, d);
    var s1 := End(s, ls1);
    var ls2 := SecondServes(s1, q, payload);
    var s2 := End(s1, ls2);
    forall e | e != d ensures DirOf(s2, e).active != Some(s.next) {
      assert DirOf(s2, e) == DirOf(s1, e) == DirOf(s, e);
    }
    var ls3 := OverwriteLoses(s2, p, s.next, payload);
    RunAppend(s1, ls2, ls3, Prudent);
    RunAppend(s, ls1, ls2 + ls3, Prudent);
    ls := ls1 + (ls2 + ls3);
  }

  /** From every empty deployment, whatever the key provider: one lost key-init lock, before the look
      at dek.key, and otherwise prudent steps. The replica that lost the lock overwrites the key
      file a second one on the same directory has meanwhile generated, recorded and written a
      secret under, and that secret is lost. */
  lemma LostKeyLockOverwrites(s: State, p: Pid, q: Pid, d: DirId, payload: nat)
    returns (before: seq<Label>, after: seq<Label>)
    requires Empty(s, d) && p != q
    ensures Run(s, before) && Throughout(s, before, Prudent) && Enabled(End(s, before), LoseKeyLock(p))
    ensures var lost := After(End(s, before), LoseKeyLock(p));
            && Run(lost, after) && Throughout(lost, after, Prudent)
            && var u := End(lost, after);
               AnyEncrypted(u.db.rows) && AllUnder(u.db.rows, s.next) && LostFor(u, s.next)
  {
    before := SettleIn(s, p, d);
    var s1 := End(s, before);
    var s2 := After(s1, LoseKeyLock(p));
    assert KeyInitLock !in s2.locks;
    assert forall e :: DirOf(s2, e) == DirOf(s1, e);
    var ls := SettleIn(s2, q, d);
    var s3 := End(s2, ls);
    forall e ensures DirOf(s3, e).active != Some(s3.next) {
      assert KnownDir(DirOf(s, e), s.next) && DirOf(s3, e) == DirOf(s2, e) == DirOf(s1, e) == DirOf(s, e);
    }
    var rest := OverwriteAfterLoss(s3, p, q, d, payload);
    RunAppend(s2, ls, rest, Prudent);
    after := ls + rest;
  }

  // ---------------------------------------------------------------------------
  // A lost presence lock during recovery

  /** A database-mode deployment at rest with its key set in directory `d`. */
  ghost predicate RestsOn(s: State, d: DirId) {
    && Safe(s) && AtRest(s) && s.presence == {} && s.mode.Database?
    && s.db.epoch.Current? && !s.db.marker && Whole(s.kekFiles, DirOf(s, d))
    && DirOf(s, d).active == Some(s.db.epoch.dek) && DirOf(s, d).pending.None?
  }

  /** The rotation fences, commits and dies: it does not look at its pending file again before. */
  lemma CommitBlind(s: State, k: Dek) returns (ls: seq<Label>)
    requires s.admin.PendingWritten? && s.admin.from == k && s.db.epoch == Current(k) && AllUnder(s.db.rows, k)
    ensures Run(s, ls) && Throughout(s, ls, Prudent)
    ensures var t := End(s, ls);
            && OnlyByAdmin(s, t) && t.admin.NoAdmin? && t.db == SweptTo(s.db, s.admin.into) && t.next == s.next
            && (forall d :: DirOf(t, d) == DirOf(s, d))
  {
    var v := AdminLocalOf(s);
    var sts := [];
    RotationLeadsOn(v, sts, v, RotateFence);
    var w := Rotate(v, RotateFence);
    sts := sts + [RotateFence];
    RotationLeadsOn(v, sts, w, RotateCommit);
    w, sts := Rotate(w, RotateCommit), sts + [RotateCommit];
    RotationLeadsOn(v, sts, w, RotateCrash);
    w, sts := Rotate(w, RotateCrash), sts + [RotateCrash];
    SoloRotation(s, sts, w);
    ls := AdminLabels(sts);
    var t := End(s, ls);
    assert AdminLocalOf(t) == w;
    assert DirOf(t, s.adminDir) == w.home;
  }

  /** From every database-mode deployment at rest: a server that loses its presence lock before its
      crash recovery, and otherwise prudent steps. A rotation in the same directory writes its
      pending file, the server's recovery finds no marker and discards it, and the rotation
      commits: the DEK every row is under is then nowhere. */
  lemma LostPresenceLosesDek(s: State, d: DirId, p: Pid)
    returns (before: seq<Label>, after: seq<Label>)
    requires RestsOn(s, d) && p !in s.procs
    ensures Run(s, before) && Throughout(s, before, Prudent) && Enabled(End(s, before), LosePresence(p))
    ensures var lost := After(End(s, before), LosePresence(p));
            && Run(lost, after) && Throughout(lost, after, Prudent)
            && var u := End(lost, after);
               AllUnder(u.db.rows, s.next) && |u.db.rows| == |s.db.rows| && LostFor(u, s.next)
  {
    var v := LocalOf(Arrived(s, p, d), p);
    var sts := CheckAlone(v);
    before := ServeIn(s, p, d, sts, Checked(v));
    var s1 := End(s, before);
    assert LocalOf(s1, p) == Checked(v);
    assert s1.db == Checked(v).db && s1.next == Checked(v).next && DirOf(s1, d) == Checked(v).home;
    assert Checked(v).present;
    var s2 := After(s1, LosePresence(p));
    assert s2.presence == {};
    assert forall e :: DirOf(s2, e) == DirOf(s, e);
    forall e ensures DirOf(s2, e).active != Some(s.next) && DirOf(s2, e).pending != Some(s.next) {
      assert KnownDir(DirOf(s, e), s.next);
    }
    after := RotateUnder(s2, d, p, s.db.epoch.dek);
  }

  /** The recovery of a server the rotation does not know of discards the pending file. */
  lemma DiscardPending(s: State, p: Pid) returns (ls: seq<Label>)
    requires p in s.procs && s.procs[p].phase.Consistent? && !s.db.marker
    ensures Run(s, ls) && Throughout(s, ls, Prudent)
    ensures var t := End(s, ls);
            && OnlyBy(s, p, t) && t.db == s.db && t.next == s.next && t.procs[p].phase.Settled?
            && HomeOf(t, p) == HomeOf(s, p).(pending := None)
  {
    var v := LocalOf(s, p);
    LeadsOn(v, [], v, Recover);
    var sts := [] + [Recover];
    SoloRun(s, p, sts, Serve(v, Recover));
    ls := Labels(p, sts);
    var t := End(s, ls);
    assert LocalOf(t, p).db == t.db && LocalOf(t, p).next == t.next;
  }

  /** No directory holds `k`. */
  ghost predicate Nowhere(s: State, k: Dek) {
    forall e :: DirOf(s, e).active != Some(k) && DirOf(s, e).pending != Some(k)
  }

  lemma CommitLoses(s: State, p: Pid, k: Dek, into: Dek) returns (ls: seq<Label>)
    requires s.admin == PendingWritten(k, into) && s.db.epoch == Current(k) && AllUnder(s.db.rows, k) && into < s.next
    requires p in s.procs && s.procs[p].phase.Settled?
    requires forall q :: q in s.procs && q != p ==> !Live(s.procs[q].phase)
    requires Nowhere(s, into)
    ensures Run(s, ls) && Throughout(s, ls, Prudent)
    ensures var u := End(s, ls); AllUnder(u.db.rows, into) && |u.db.rows| == |s.db.rows| && LostFor(u, into)
  {
    ls := CommitBlind(s, k);
    var u := End(s, ls);
    assert Nowhere(u, into);
  }

  lemma RotateUnder(s: State, d: DirId, p: Pid, k: Dek) returns (ls: seq<Label>)
    requires s.admin.NoAdmin? && s.presence == {} && p in s.procs && s.procs[p].dir == d && s.procs[p].phase.Consistent?
    requires forall q :: q in s.procs && q != p ==> !Live(s.procs[q].phase)
    requires Fit(OpenedIn(s, d), k) && AllUnder(s.db.rows, k) && Nowhere(s, s.next)
    ensures Run(s, ls) && Throughout(s, ls, Prudent)
    ensures var u := End(s, ls);
            AllUnder(u.db.rows, s.next) && |u.db.rows| == |s.db.rows| && LostFor(u, s.next)
  {
    var sts := StageAlone(OpenedIn(s, d), k);
    var ls1 := RotateIn(s, d, sts, StagedBy(OpenedIn(s, d), PendingWritten(k, s.next)));
    var s1 := End(s, ls1);
    var ls2 := DiscardPending(s1, p);
    var s2 := End(s1, ls2);
    forall e ensures DirOf(s2, e).active != Some(s.next) && DirOf(s2, e).pending != Some(s.next) {
      assert DirOf(s, e).active != Some(s.next) && DirOf(s, e).pending != Some(s.next);
      assert e != d ==> DirOf(s2, e) == DirOf(s1, e) == DirOf(s, e);
    }
    var ls3 := CommitLoses(s2, p, k, s.next);
    RunAppend(s1, ls2, ls3, Prudent);
    RunAppend(s, ls1, ls2 + ls3, Prudent);
    ls := ls1 + (ls2 + ls3);
  }
}
