/** No run loses the DEK the rows are under, provided no lock is lost and crash recovery
    promotes only the DEK the epoch names. */
module KeyDurability {
  import opened Options
  import opened KeyState
  import opened KeySteps
  import opened KeyGeneration

  ghost predicate HasActive(s: State, k: Dek) {
    exists d :: DirOf(s, d).active == Some(k)
  }

  ghost predicate HasPending(s: State, k: Dek) {
    exists d :: DirOf(s, d).pending == Some(k)
  }

  /** The DEK `k` is on disk where crash recovery keeps it: active in some directory, or
      pending in one while the redo marker says so. */
  ghost predicate OnDisk(s: State, k: Dek) {
    HasActive(s, k) || (s.db.marker && HasPending(s, k))
  }

  /** Every encrypted row is under one DEK, and that DEK is on disk. */
  ghost predicate Recoverable(s: State) {
    AnyEncrypted(s.db.rows) ==> exists k :: AllUnder(s.db.rows, k) && OnDisk(s, k)
  }

  /** The probe window reaches an encrypted row, if there is any. */
  predicate ProbeTells(rows: seq<Row>) {
    AnyEncrypted(rows) ==> NewestEncrypted(SecretVersions(rows), PROBE_LIMIT).Some?
  }

  /** Recovery in directory `k` would promote a pending DEK that the epoch does not name. */
  predicate Mispromotes(db: Db, k: KeyDir) {
    db.marker && k.pending.Some? && db.epoch != Current(k.pending.value)
  }

  /** The conditions on a step: no lock is lost, recovery promotes the DEK of the epoch, and
      a rotation that finds no epoch row rotates the DEK the rows are under. */
  predicate Prudent(s: State, l: Label) {
    && KeepsLocks(s, l)
    && (l.Server? && l.step.Recover? && l.p in s.procs ==> !Mispromotes(s.db, HomeOf(s, l.p)))
    && (l.AdminTakes? ==> PrudentRotation(AdminLocalOf(s), l.rotation))
  }

  predicate PrudentRotation(v: AdminLocal, st: AdminStep) {
    && (st.RotateRecover? ==> !Mispromotes(v.db, v.home))
    && (st.RotateFence? && v.admin.PendingWritten? && v.db.epoch.Absent? ==> AllUnder(v.db.rows, v.admin.from))
  }

  // ---------------------------------------------------------------------------
  // The invariant

  predicate Below(o: Option<Dek>, n: Dek) {
    o.Some? ==> o.value < n
  }

  predicate KnownDir(k: KeyDir, n: Dek) {
    Below(k.active, n) && Below(k.pending, n)
  }

  predicate KnownEpoch(db: Db, n: Dek) {
    !db.epoch.Absent? ==> db.epoch.dek < n
  }

  predicate KnownPhase(ph: Phase, n: Dek) {
    CachesDek(ph) ==> ph.dek < n
  }

  predicate KnownAdmin(a: Admin, n: Dek) {
    && (a.HoldsKey? || a.MarkerChecked? || a.PendingWritten? || a.Fenced? ==> a.from < n)
    && (a.PendingWritten? || a.Fenced? || a.Committed? || a.Renamed? ==> a.into < n)
  }

  /** Every DEK in use came from the random source, which does not repeat itself. */
  ghost predicate Known(s: State) {
    && (forall d :: KnownDir(DirOf(s, d), s.next))
    && KnownEpoch(s.db, s.next)
    && (forall p :: p in s.procs ==> KnownPhase(s.procs[p].phase, s.next))
    && KnownAdmin(s.admin, s.next)
  }

  /** While `x` is, or could still become, the DEK of the epoch, it is an active key file. */
  ghost predicate Backed(s: State, x: Dek) {
    s.db.epoch.Absent? || s.db.epoch.dek == x ==> HasActive(s, x)
  }

  ghost predicate EpochOnDisk(s: State) {
    && (s.db.marker ==> s.db.epoch.Current?)
    && (!s.db.epoch.Absent? ==> OnDisk(s, s.db.epoch.dek))
  }

  ghost predicate RowsUnderEpoch(s: State) {
    && (!s.db.epoch.Absent? ==> AllUnder(s.db.rows, s.db.epoch.dek))
    && (s.db.epoch.Absent? ==> ProbeTells(s.db.rows))
    && (s.db.epoch.Absent? && AnyEncrypted(s.db.rows) ==> exists k :: AllUnder(s.db.rows, k) && HasActive(s, k))
  }

  /** The phases in which recovery has left no pending file. */
  predicate Emptied(ph: Phase) {
    ph.Promoted? || ph.Settled? || ph.Derived? || ph.Missing?
  }

  ghost predicate ProcBacked(s: State, p: Pid)
    requires p in s.procs
  {
    var ph := s.procs[p].phase;
    && (CachesDek(ph) ==> Backed(s, ph.dek))
    && (ph.Promoted? ==> !s.db.epoch.Absent? && HasActive(s, s.db.epoch.dek))
    && (Emptied(ph) ==> HomeOf(s, p).pending.None?)
  }

  ghost predicate AdminBacked(s: State) {
    var k := DirOf(s, s.adminDir);
    match s.admin
    case NoAdmin => true
    case Opened => true
    case Examined => true
    case Promoting => k.pending.None? && !s.db.epoch.Absent? && HasActive(s, s.db.epoch.dek)
    case Recovered => k.pending.None?
    case HoldsKey(from) => k.pending.None? && Backed(s, from)
    case MarkerChecked(from) => k.pending.None? && Backed(s, from) && (s.db.epoch == Current(from) ==> !s.db.marker)
    case PendingWritten(from, into) =>
      k.pending == Some(into) && Backed(s, from) && (s.db.epoch == Current(from) ==> !s.db.marker) &&
      (s.db.epoch.Absent? || s.db.epoch.dek != into)
    case Fenced(from, into, hadEpoch) =>
      k.pending == Some(into) && s.db.epoch == Rotating(from) && HasActive(s, from) &&
      (!hadEpoch ==> ProbeTells(s.db.rows))
    case Committed(into) => k.pending == Some(into) && s.db.epoch == Current(into)
    case Renamed(into) => s.db.epoch == Current(into) && HasActive(s, into)
  }

  ghost predicate Safe(s: State) {
    && Exclusive(s) && Known(s) && EpochOnDisk(s) && RowsUnderEpoch(s) && AdminBacked(s)
    && (forall p :: p in s.procs ==> ProcBacked(s, p))
  }

  // ---------------------------------------------------------------------------
  // Server steps

  /** What a server step does to its key files. */
  predicate FilesStep(v: Local, w: Local) {
    && (v.home.active.None? || w.home.active == v.home.active
        || (v.db.epoch.Current? && w.home.active == Some(v.db.epoch.dek)))
    && (v.db.marker && v.home.pending.Some? ==> w.home.pending == v.home.pending || w.home.active == v.home.pending)
    && (Emptied(w.phase) ==> w.home.pending.None?)
    && (w.phase.Promoted? ==> v.phase.Promoted? || (v.db.epoch.Current? && w.home.active == Some(v.db.epoch.dek)))
  }

  /** What a server step does to the database and to the DEK it caches. */
  predicate DbStep(v: Local, w: Local) {
    && (w.db.marker ==> v.db.marker)
    && (v.db.marker && !w.db.marker ==> v.phase.Promoted? || (v.phase.Verified? && v.db.epoch == Current(v.phase.dek)))
    && (w.db.epoch == v.db.epoch || 
        (v.db.epoch.Absent? && v.phase.Loaded? && w.db.epoch == Current(v.phase.dek)
         && Probe(v.db.rows, v.phase.dek)) ||
        (v.phase.Seeded? && v.db.epoch == Rotating(v.phase.dek) && w.db.epoch == Current(v.phase.dek)))
    && (w.db.rows == v.db.rows ||
        (v.phase.Ready? && (AllUnder(v.db.rows, v.phase.dek) ==> AllUnder(w.db.rows, v.phase.dek))))
    && (CachesDek(w.phase) ==>
          (CachesDek(v.phase) && w.phase.dek == v.phase.dek)
              || (w.home == v.home && w.home.active == Some(w.phase.dek)))
  }

  predicate NextStep(v: Local, w: Local) {
    && v.next <= w.next
    && (KnownDir(v.home, v.next) ==> KnownDir(w.home, w.next))
  }

  lemma KeyStepsKeepFiles(v: Local, st: ServerStep)
    requires CanServe(v, st) && KeyStep(st) && (st.Recover? ==> !Mispromotes(v.db, v.home))
    requires v.phase.Staged? ==> v.home.active.None?
    requires Emptied(v.phase) ==> v.home.pending.None?
    ensures FilesStep(v, Serve(v, st)) && NextStep(v, Serve(v, st))
  {
  }

  lemma OtherStepsKeepFiles(v: Local, st: ServerStep)
    requires CanServe(v, st) && !KeyStep(st)
    ensures var w := Serve(v, st); w.home == v.home && w.next == v.next && !Emptied(w.phase)
  {
  }

  lemma ServersKeepFiles(v: Local, st: ServerStep)
    requires CanServe(v, st) && (st.Recover? ==> !Mispromotes(v.db, v.home))
    requires v.phase.Staged? ==> v.home.active.None?
    requires Emptied(v.phase) ==> v.home.pending.None?
    ensures FilesStep(v, Serve(v, st)) && NextStep(v, Serve(v, st))
  {
    if KeyStep(st) {
      KeyStepsKeepFiles(v, st);
    } else {
      OtherStepsKeepFiles(v, st);
    }
  }

  lemma ServersKeepDb(v: Local, st: ServerStep)
    requires CanServe(v, st)
    ensures DbStep(v, Serve(v, st))
  {
    if st.Write? {
      ChangeIsUnder(v.db.rows, st.change, v.phase.dek);
    }
  }

  /** A change made under the DEK of the rows leaves them under it. */
  lemma ChangeIsUnder(rows: seq<Row>, c: Change, k: Dek)
    requires Applies(c, |rows|)
    ensures AllUnder(rows, k) ==> AllUnder(Changed(rows, c, k), k)
  {
  }

  /** An active file that is the epoch's DEK, or could become it, stays. */
  lemma PutKeepsActive(s: State, p: Pid, w: Local, k: Dek)
    requires p in s.procs && FilesStep(LocalOf(s, p), w)
    requires HasActive(s, k) && (s.db.epoch.Absent? || s.db.epoch.dek == k)
    ensures HasActive(Put(s, p, w), k)
  {
    var d :| DirOf(s, d).active == Some(k);
    assert DirOf(Put(s, p, w), d).active == Some(k);
  }

  lemma PutKeepsBacked(s: State, p: Pid, w: Local, x: Dek)
    requires p in s.procs && FilesStep(LocalOf(s, p), w) && DbStep(LocalOf(s, p), w) && Backed(s, x)
    ensures Backed(Put(s, p, w), x)
  {
    if s.db.epoch.Absent? || s.db.epoch.dek == x {
      PutKeepsActive(s, p, w, x);
    }
  }

  lemma PutKeepsEpochOnDisk(s: State, p: Pid, w: Local)
    requires p in s.procs && Safe(s) && FilesStep(LocalOf(s, p), w) && DbStep(LocalOf(s, p), w)
    ensures EpochOnDisk(Put(s, p, w))
  {
    var t := Put(s, p, w);
    assert ProcBacked(s, p);
    if !t.db.epoch.Absent? {
      var k := t.db.epoch.dek;
      if HasActive(s, k) {
        PutKeepsActive(s, p, w, k);
      } else {
        var d :| DirOf(s, d).pending == Some(k);
        assert DirOf(t, d).pending == Some(k) || DirOf(t, d).active == Some(k);
      }
    }
  }

  lemma PutKeepsRows(s: State, p: Pid, w: Local)
    requires p in s.procs && Safe(s) && FilesStep(LocalOf(s, p), w) && DbStep(LocalOf(s, p), w)
    ensures RowsUnderEpoch(Put(s, p, w))
  {
    var t := Put(s, p, w);
    if s.db.epoch.Absent? && AnyEncrypted(s.db.rows) {
      var k: Dek :| AllUnder(s.db.rows, k) && HasActive(s, k);
      PutKeepsActive(s, p, w, k);
      ProbeIsRight(s.db.rows, k);
    }
  }

  /** When the probe window reaches an encrypted row, only the DEK of the rows passes. */
  lemma ProbeIsRight(rows: seq<Row>, k: Dek)
    requires AllUnder(rows, k) && ProbeTells(rows) && AnyEncrypted(rows)
    ensures NewestEncrypted(SecretVersions(rows), PROBE_LIMIT) == Some(k)
  {
    SecretVersionsUnder(rows, k);
    NewestUnder(SecretVersions(rows), PROBE_LIMIT, k);
  }

  lemma {:induction false} SecretVersionsUnder(rows: seq<Row>, k: Dek)
    requires AllUnder(rows, k)
    ensures AllUnder(SecretVersions(rows), k)
  {
    if rows != [] {
      SecretVersionsUnder(rows[..|rows| - 1], k);
    }
  }

  lemma {:induction false} NewestUnder(rows: seq<Row>, limit: nat, k: Dek)
    requires AllUnder(rows, k)
    ensures NewestEncrypted(rows, limit).Some? ==> NewestEncrypted(rows, limit).value == k
    decreases |rows|
  {
    if rows != [] && limit > 0 && rows[|rows| - 1].under.None? {
      NewestUnder(rows[..|rows| - 1], limit - 1, k);
    }
  }

  lemma PutKeepsOthersBacked(s: State, p: Pid, w: Local, q: Pid)
    requires p in s.procs && q in s.procs && q != p && Safe(s)
    requires FilesStep(LocalOf(s, p), w) && DbStep(LocalOf(s, p), w) && OrderlyStep(LocalOf(s, p), w)
    ensures ProcBacked(Put(s, p, w), q)
  {
    assert ProcBacked(s, q);
    var ph := s.procs[q].phase;
    if CachesDek(ph) {
      PutKeepsBacked(s, p, w, ph.dek);
    }
    if ph.Promoted? {
      PutKeepsActive(s, p, w, s.db.epoch.dek);
    }
    assert Critical(ph) ==> HoldsKeyLock(s, q);
    assert Critical(s.procs[p].phase) ==> HoldsKeyLock(s, p);
  }

  lemma PutKeepsSelfBacked(s: State, p: Pid, w: Local)
    requires p in s.procs && Safe(s) && FilesStep(LocalOf(s, p), w) && DbStep(LocalOf(s, p), w)
    ensures ProcBacked(Put(s, p, w), p)
  {
    assert ProcBacked(s, p);
    var t := Put(s, p, w);
    var d := s.procs[p].dir;
    assert DirOf(t, d) == w.home;
    if CachesDek(w.phase) && CachesDek(s.procs[p].phase) && w.phase.dek == s.procs[p].phase.dek {
      PutKeepsBacked(s, p, w, w.phase.dek);
    }
    if s.procs[p].phase.Promoted? {
      PutKeepsActive(s, p, w, s.db.epoch.dek);
    }
  }

  lemma PutKeepsKnown(s: State, p: Pid, w: Local)
    requires p in s.procs && Known(s) && DbStep(LocalOf(s, p), w) && NextStep(LocalOf(s, p), w)
    ensures Known(Put(s, p, w))
  {
    var t := Put(s, p, w);
    forall d ensures KnownDir(DirOf(t, d), t.next) {
      assert KnownDir(DirOf(s, d), s.next);
    }
    assert KnownPhase(s.procs[p].phase, s.next) && KnownDir(LocalOf(s, p).home, s.next);
  }

  /** A server step keeps the invariant, whatever it is, if it does this much and no more. */
  lemma PutIsSafe(s: State, p: Pid, w: Local)
    requires p in s.procs && Safe(s) && Live(s.procs[p].phase) && Exclusive(Put(s, p, w))
    requires var v := LocalOf(s, p); FilesStep(v, w) && NextStep(v, w) && DbStep(v, w) && OrderlyStep(v, w)
    ensures Safe(Put(s, p, w))
  {
    assert s.admin.NoAdmin?;
    PutKeepsKnown(s, p, w);
    PutKeepsEpochOnDisk(s, p, w);
    PutKeepsRows(s, p, w);
    PutKeepsSelfBacked(s, p, w);
    forall q | q in Put(s, p, w).procs && q != p ensures ProcBacked(Put(s, p, w), q) {
      PutKeepsOthersBacked(s, p, w, q);
    }
  }

  lemma ServersKeepAll(v: Local, st: ServerStep)
    requires CanServe(v, st) && (st.Recover? ==> !Mispromotes(v.db, v.home))
    requires v.phase.Staged? ==> v.home.active.None?
    requires Emptied(v.phase) ==> v.home.pending.None?
    ensures var w := Serve(v, st); FilesStep(v, w) && NextStep(v, w) && DbStep(v, w) && OrderlyStep(v, w)
    ensures Live(v.phase)
  {
    ServersKeepFiles(v, st);
    ServersKeepDb(v, st);
    ServersAreOrderly(v, st);
  }

  lemma ServerStepIsSafe(s: State, p: Pid, st: ServerStep)
    requires Safe(s) && Enabled(s, Server(p, st)) && Prudent(s, Server(p, st))
    ensures Safe(After(s, Server(p, st)))
  {
    assert ProcBacked(s, p);
    ServersKeepAll(LocalOf(s, p), st);
    StepKeepsExclusive(s, Server(p, st));
    PutIsSafe(s, p, Serve(LocalOf(s, p), st));
  }

  // ---------------------------------------------------------------------------
  // Rotation steps

  /** Where the pending file of a rotation comes from. */
  predicate StagesOwn(v: AdminLocal) {
    match v.admin
    case PendingWritten(_, into) => v.home.pending == Some(into) && (v.db.epoch.Absent? || v.db.epoch.dek != into)
    case Fenced(from, into, _) => v.home.pending == Some(into) && v.db.epoch == Rotating(from)
    case Committed(into) => v.home.pending == Some(into) && v.db.epoch == Current(into)
    case Renamed(into) => v.db.epoch == Current(into)
    case Opened => true
    case Examined => true
    case NoAdmin => true
    case _ => v.home.pending.None?
  }

  predicate RotationFiles(v: AdminLocal, w: AdminLocal) {
    && v.next <= w.next && (KnownDir(v.home, v.next) ==> KnownDir(w.home, w.next))
    && (v.home.active.None? || w.home.active == v.home.active
        || (v.db.epoch.Current? && w.home.active == Some(v.db.epoch.dek)))
    && (v.db.marker && v.db.epoch.Current? && v.home.pending == Some(v.db.epoch.dek) ==>
          w.home.pending == v.home.pending || w.home.active == v.home.pending)
  }

  lemma RotationKeepsFiles(v: AdminLocal, st: AdminStep)
    requires CanRotate(v, st) && PrudentRotation(v, st) && StagesOwn(v)
    ensures RotationFiles(v, Rotate(v, st))
  {
  }

  lemma RotationKeepsKnown(s: State, st: AdminStep)
    requires Known(s) && Enabled(s, AdminTakes(st)) && PrudentRotation(AdminLocalOf(s), st)
             && StagesOwn(AdminLocalOf(s))
    ensures Known(After(s, AdminTakes(st)))
  {
    RotationKeepsFiles(AdminLocalOf(s), st);
    var t := After(s, AdminTakes(st));
    forall d ensures KnownDir(DirOf(t, d), t.next) {
      assert KnownDir(DirOf(s, d), s.next);
    }
    assert KnownDir(DirOf(s, s.adminDir), s.next);
  }

  lemma RotationKeepsActive(s: State, st: AdminStep, k: Dek)
    requires Enabled(s, AdminTakes(st)) && PrudentRotation(AdminLocalOf(s), st) && StagesOwn(AdminLocalOf(s))
    requires HasActive(s, k) && (s.db.epoch.Absent? || s.db.epoch.dek == k)
    ensures HasActive(After(s, AdminTakes(st)), k)
  {
    RotationKeepsFiles(AdminLocalOf(s), st);
    var d :| DirOf(s, d).active == Some(k);
    assert DirOf(After(s, AdminTakes(st)), d).active == Some(k);
  }

  lemma RotationKeepsEpochOnDisk(s: State, st: AdminStep)
    requires Safe(s) && Enabled(s, AdminTakes(st)) && PrudentRotation(AdminLocalOf(s), st)
    ensures EpochOnDisk(After(s, AdminTakes(st)))
  {
    var t := After(s, AdminTakes(st));
    RotationKeepsFiles(AdminLocalOf(s), st);
    if st.RotateCommit? {
      assert DirOf(t, s.adminDir).pending == Some(t.db.epoch.dek);
    } else if !t.db.epoch.Absent? {
      var k := t.db.epoch.dek;
      if HasActive(s, k) {
        RotationKeepsActive(s, st, k);
      } else {
        var d :| DirOf(s, d).pending == Some(k);
        assert DirOf(t, d).pending == Some(k) || DirOf(t, d).active == Some(k);
      }
    }
  }

  lemma RotationKeepsRows(s: State, st: AdminStep)
    requires Safe(s) && Enabled(s, AdminTakes(st)) && PrudentRotation(AdminLocalOf(s), st)
    ensures RowsUnderEpoch(After(s, AdminTakes(st)))
  {
    if s.db.epoch.Absent? && AnyEncrypted(s.db.rows) {
      var k: Dek :| AllUnder(s.db.rows, k) && HasActive(s, k);
      RotationKeepsActive(s, st, k);
    }
    if s.admin.Fenced? && HasActive(s, s.admin.from) && !st.RotateCommit? {
      RotationKeepsActive(s, st, s.admin.from);
    }
  }

  lemma RotationKeepsBacked(s: State, st: AdminStep)
    requires Safe(s) && Enabled(s, AdminTakes(st)) && PrudentRotation(AdminLocalOf(s), st)
    ensures AdminBacked(After(s, AdminTakes(st)))
  {
    var t := After(s, AdminTakes(st));
    if !s.db.epoch.Absent? && HasActive(s, s.db.epoch.dek) {
      RotationKeepsActive(s, st, s.db.epoch.dek);
    }
    match st {
      case RotateRecover => assert DirOf(t, s.adminDir).active == AdminLocalOf(t).home.active;
      case RotateLoad =>
        assert DirOf(s, s.adminDir) == DirOf(t, t.adminDir);
      case RotateClearCompleted =>
        if s.db.epoch.Absent? && HasActive(s, s.admin.from) { RotationKeepsActive(s, st, s.admin.from); }
      case RotateStage =>
        if s.db.epoch.Absent? && HasActive(s, s.admin.from) { RotationKeepsActive(s, st, s.admin.from); }
      case RotateFence =>
        if s.db.epoch.Absent? && HasActive(s, s.admin.from) { RotationKeepsActive(s, st, s.admin.from); }
      case RotateRename => assert DirOf(t, s.adminDir).active == Some(s.admin.into);
      case _ =>
    }
  }

  lemma NobodyLive(s: State, t: State)
    requires Exclusive(s) && !s.admin.NoAdmin? && t.procs == s.procs
    ensures forall p :: p in t.procs ==> ProcBacked(t, p)
  {
    assert forall p :: p in s.procs ==> !Live(s.procs[p].phase);
  }

  lemma RotationStepIsSafe(s: State, st: AdminStep)
    requires Safe(s) && Enabled(s, AdminTakes(st)) && Prudent(s, AdminTakes(st))
    ensures Safe(After(s, AdminTakes(st)))
  {
    StepKeepsExclusive(s, AdminTakes(st));
    RotationKeepsKnown(s, st);
    RotationKeepsEpochOnDisk(s, st);
    RotationKeepsRows(s, st);
    RotationKeepsBacked(s, st);
    NobodyLive(s, After(s, AdminTakes(st)));
  }

  // ---------------------------------------------------------------------------
  // Every step, every run

  lemma CopyKeepsActive(s: State, src: DirId, dst: DirId, k: Dek)
    requires Enabled(s, CopyKeys(src, dst))
    requires HasActive(s, k) && (s.db.epoch.Absent? || s.db.epoch.dek == k)
    ensures HasActive(After(s, CopyKeys(src, dst)), k)
  {
    var d :| DirOf(s, d).active == Some(k);
    assert DirOf(After(s, CopyKeys(src, dst)), d).active == Some(k);
  }

  lemma CopyIsSafe(s: State, src: DirId, dst: DirId)
    requires Safe(s) && Enabled(s, CopyKeys(src, dst))
    ensures Safe(After(s, CopyKeys(src, dst)))
  {
    var t := After(s, CopyKeys(src, dst));
    StepKeepsExclusive(s, CopyKeys(src, dst));
    var k := s.db.epoch.dek;
    assert DirOf(s, src).active == Some(k);
    CopyKeepsActive(s, src, dst, k);
    forall d ensures KnownDir(DirOf(t, d), t.next) {
      assert KnownDir(DirOf(s, d), s.next) && KnownDir(DirOf(s, src), s.next);
    }
    forall p | p in t.procs ensures ProcBacked(t, p) {
      assert ProcBacked(s, p);
    }
  }

  /** A step that changes no key file and nothing in the database. */
  ghost predicate SameDisk(s: State, t: State) {
    t.db == s.db && t.next == s.next && forall d :: DirOf(t, d) == DirOf(s, d)
  }

  lemma SameDiskIsSafe(s: State, t: State)
    requires Safe(s) && SameDisk(s, t) && Exclusive(t) && Known(t) && AdminBacked(t)
    requires forall p :: p in t.procs ==>
               Quiescent(t.procs[p].phase) || (p in s.procs && SameProc(s.procs[p], t.procs[p]))
    ensures Safe(t)
  {
    assert forall k :: HasActive(s, k) <==> HasActive(t, k);
    assert forall k :: HasPending(s, k) <==> HasPending(t, k);
    forall p | p in t.procs ensures ProcBacked(t, p) {
      if p in s.procs && SameProc(s.procs[p], t.procs[p]) { assert ProcBacked(s, p); }
    }
  }

  predicate Quiescent(ph: Phase) {
    ph.Looked? || ph.Present?
  }

  predicate SameProc(a: Proc, b: Proc) {
    a.dir == b.dir && a.phase == b.phase
  }

  lemma StartIsSafe(s: State, p: Pid, d: DirId)
    requires Safe(s) && Enabled(s, Start(p, d))
    ensures Safe(After(s, Start(p, d)))
  {
    StepKeepsExclusive(s, Start(p, d));
    SameDiskIsSafe(s, After(s, Start(p, d)));
  }

  lemma AttachIsSafe(s: State, p: Pid)
    requires Safe(s) && Enabled(s, Attach(p))
    ensures Safe(After(s, Attach(p)))
  {
    StepKeepsExclusive(s, Attach(p));
    SameDiskIsSafe(s, After(s, Attach(p)));
  }

  lemma AdminStartIsSafe(s: State, d: DirId)
    requires Safe(s) && Enabled(s, AdminStart(d))
    ensures Safe(After(s, AdminStart(d)))
  {
    StepKeepsExclusive(s, AdminStart(d));
    SameDiskIsSafe(s, After(s, AdminStart(d)));
  }

  lemma WriterLossIsSafe(s: State, p: Pid)
    requires Safe(s) && Enabled(s, LoseWriter(p))
    ensures Safe(After(s, LoseWriter(p)))
  {
    var t := After(s, LoseWriter(p));
    StepKeepsExclusive(s, LoseWriter(p));
    assert forall d :: DirOf(t, d) == DirOf(s, d);
    assert forall k :: HasActive(s, k) <==> HasActive(t, k);
    assert forall k {:trigger Backed(t, k)} :: Backed(s, k) ==> Backed(t, k);
    SameDiskIsSafe(s, t);
  }

  lemma StepIsSafe(s: State, l: Label)
    requires Safe(s) && Enabled(s, l) && Prudent(s, l)
    ensures Safe(After(s, l))
  {
    match l {
      case Server(p, st) => ServerStepIsSafe(s, p, st);
      case AdminTakes(st) => RotationStepIsSafe(s, st);
      case CopyKeys(src, dst) => CopyIsSafe(s, src, dst);
      case Start(p, d) => StartIsSafe(s, p, d);
      case Attach(p) => AttachIsSafe(s, p);
      case AdminStart(d) => AdminStartIsSafe(s, d);
      case LoseWriter(p) => WriterLossIsSafe(s, p);
    }
  }

  lemma {:induction false} RunIsSafe(s: State, ls: seq<Label>)
    requires Safe(s) && Run(s, ls) && Throughout(s, ls, Prudent)
    ensures Safe(End(s, ls))
    decreases |ls|
  {
    if ls != [] {
      StepIsSafe(s, ls[0]);
      RunIsSafe(After(s, ls[0]), ls[1..]);
    }
  }

  /** A deployment at rest whose rows, epoch and key files belong together: a fresh one, one
      that predates the epoch, or one left by an earlier run. */
  ghost predicate SoundStart(s: State) {
    Quiet(s) && Known(s) && EpochOnDisk(s) && RowsUnderEpoch(s)
  }

  /** Over every run of servers, rotations, crashes and key copies, in either lock mode: the
      rows are under one DEK, the one of the epoch, and it is still on disk. */
  lemma NothingIsLost(s: State, ls: seq<Label>)
    requires SoundStart(s) && Run(s, ls) && Throughout(s, ls, Prudent)
    ensures var t := End(s, ls);
            && Recoverable(t)
            && (!t.db.epoch.Absent? ==> AllUnder(t.db.rows, t.db.epoch.dek) && OnDisk(t, t.db.epoch.dek))
  {
    RunIsSafe(s, ls);
  }
}
