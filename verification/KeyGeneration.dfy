/** First-boot generation: it never writes over a key file, never happens beside a recorded
    epoch or a secret version, and happens at most once. */
module KeyGeneration {
  import opened KeyState
  import opened KeySteps
  import opened KeyAgreement

  predicate HoldsKeyLock(s: State, p: Pid) {
    p in s.procs && LocalOf(s, p).lock.Mine?
  }

  function HomeOf(s: State, p: Pid): KeyDir
    requires p in s.procs
  {
    DirOf(s, s.procs[p].dir)
  }

  /** A key file being generated replaces nothing. */
  predicate StagedOverNothing(s: State) {
    forall p :: p in s.procs && (s.procs[p].phase.Missing? || s.procs[p].phase.Staged?) ==>
                  HomeOf(s, p).active.None? && (s.procs[p].phase.Staged? ==> HomeOf(s, p).pending.Some?)
  }

  /** What the locks give when none is lost. */
  predicate Exclusive(s: State) {
    && Agrees(s) && ModeRecordedFirst(s)
    && (forall p :: p in s.procs && Live(s.procs[p].phase) ==> p in s.presence)
    && (forall p :: p in s.procs && Critical(s.procs[p].phase) ==> HoldsKeyLock(s, p))
    && StagedOverNothing(s)
  }

  /** A database-mode process that will have to generate does so on an empty deployment. */
  predicate GeneratesOnEmpty(s: State) {
    s.mode.Database? ==>
      forall p :: p in s.procs && Preparing(s.procs[p].phase) && HomeOf(s, p).active.None? ==>
                    s.db.epoch.Absent? && !HasSecretVersion(s.db.rows)
  }

  /** What a server step does to its locks and its key files. */
  predicate OrderlyStep(v: Local, w: Local) {
    && w.mode == v.mode
    && (Live(w.phase) ==> Live(v.phase) && w.present == v.present)
    && (w.lock.Mine? ==> !v.lock.Theirs?)
    && (Critical(w.phase) ==> w.lock.Mine? || (Critical(v.phase) && !v.lock.Mine?))
    && (w.phase.Missing? || w.phase.Staged? ==>
          w.home.active.None? || (v.phase.Missing? && w.home.active == v.home.active))
    && (w.phase.Staged? ==> w.home.pending.Some?)
    && (w.home != v.home ==> Critical(v.phase))
    && (v.home.active.Some? ==> w.home.active.Some?)
  }

  lemma KeyStepsAreOrderly(v: Local, st: ServerStep)
    requires CanServe(v, st) && KeyStep(st)
    ensures OrderlyStep(v, Serve(v, st))
  {
  }

  lemma OtherStepsAreOrderly(v: Local, st: ServerStep)
    requires CanServe(v, st) && !KeyStep(st)
    ensures OrderlyStep(v, Serve(v, st))
  {
  }

  lemma ServersAreOrderly(v: Local, st: ServerStep)
    requires CanServe(v, st)
    ensures OrderlyStep(v, Serve(v, st))
  {
    if KeyStep(st) {
      KeyStepsAreOrderly(v, st);
    } else {
      OtherStepsAreOrderly(v, st);
    }
  }

  lemma PutKeepsLocked(s: State, p: Pid, w: Local)
    requires p in s.procs && Exclusive(s) && OrderlyStep(LocalOf(s, p), w)
    ensures var t := Put(s, p, w);
            forall q :: q in t.procs && Critical(t.procs[q].phase) ==> HoldsKeyLock(t, q)
  {
    var t := Put(s, p, w);
    forall q | q in t.procs && Critical(t.procs[q].phase) ensures HoldsKeyLock(t, q) {
      if q != p {
        assert HoldsKeyLock(s, q);
      }
    }
  }

  lemma PutKeepsExclusive(s: State, p: Pid, w: Local)
    requires p in s.procs && Exclusive(s)
    requires OrderlyStep(LocalOf(s, p), w) && HonestStep(LocalOf(s, p), w)
    ensures Exclusive(Put(s, p, w))
  {
    PutKeepsAgreement(s, p, w);
    PutKeepsLocked(s, p, w);
  }

  lemma PutAdminKeepsExclusive(s: State, w: AdminLocal)
    requires Exclusive(s) && !s.admin.NoAdmin? && w.db.modeRecorded == s.db.modeRecorded
    ensures Exclusive(PutAdmin(s, w))
  {
    PutAdminKeepsAgreement(s, w);
  }

  lemma ArrivalKeepsExclusive(s: State, l: Label)
    requires Enabled(s, l) && Exclusive(s) && (l.Start? || l.Attach? || l.LoseWriter?)
    ensures Exclusive(After(s, l))
  {
    StepKeepsAgreement(s, l);
  }

  lemma OperatorKeepsExclusive(s: State, l: Label)
    requires Enabled(s, l) && Exclusive(s) && (l.AdminStart? || l.CopyKeys?)
    ensures Exclusive(After(s, l))
  {
    StepKeepsAgreement(s, l);
  }

  lemma StepKeepsExclusive(s: State, l: Label)
    requires Enabled(s, l) && Exclusive(s) && KeepsLocks(s, l)
    ensures Exclusive(After(s, l))
  {
    match l {
      case Server(p, st) =>
        ServersAreHonest(LocalOf(s, p), st);
        ServersAreOrderly(LocalOf(s, p), st);
        PutKeepsExclusive(s, p, Serve(LocalOf(s, p), st));
      case AdminTakes(st) =>
        RotationKeepsModeRow(AdminLocalOf(s), st);
        PutAdminKeepsExclusive(s, Rotate(AdminLocalOf(s), st));
      case Start(_, _) => ArrivalKeepsExclusive(s, l);
      case Attach(_) => ArrivalKeepsExclusive(s, l);
      case LoseWriter(_) => ArrivalKeepsExclusive(s, l);
      case AdminStart(_) => OperatorKeepsExclusive(s, l);
      case CopyKeys(_, _) => OperatorKeepsExclusive(s, l);
    }
  }

  /** What a server step does to the facts that forbid generation. */
  predicate EmptyStep(v: Local, w: Local) {
    && (v.mode.Database? && Preparing(w.phase) && w.home.active.None? ==>
          (Preparing(v.phase) && v.home.active.None? && w.db.epoch == v.db.epoch && w.db.rows == v.db.rows) ||
          (w.db.epoch.Absent? && !HasSecretVersion(w.db.rows)))
    && (w.db.epoch != v.db.epoch ==> Critical(v.phase))
    && (w.db.rows != v.db.rows ==> v.phase.Ready?)
  }

  lemma KeyStepsStartEmpty(v: Local, st: ServerStep)
    requires CanServe(v, st) && KeyStep(st)
    ensures EmptyStep(v, Serve(v, st))
  {
  }

  lemma ServersStartEmpty(v: Local, st: ServerStep)
    requires CanServe(v, st)
    ensures EmptyStep(v, Serve(v, st))
  {
    if KeyStep(st) {
      KeyStepsStartEmpty(v, st);
    }
  }

  lemma PutKeepsGeneratesOnEmpty(s: State, p: Pid, w: Local)
    requires p in s.procs && Exclusive(s) && GeneratesOnEmpty(s)
    requires OrderlyStep(LocalOf(s, p), w) && EmptyStep(LocalOf(s, p), w)
    ensures GeneratesOnEmpty(Put(s, p, w))
  {
    var t := Put(s, p, w);
    forall q | s.mode.Database? && q in t.procs && q != p && Preparing(t.procs[q].phase) && HomeOf(t, q).active.None?
      ensures t.db.epoch.Absent? && !HasSecretVersion(t.db.rows)
    {
      assert HoldsKeyLock(s, q);
      assert Critical(s.procs[p].phase) ==> HoldsKeyLock(s, p);
    }
  }

  lemma StepKeepsGeneratesOnEmpty(s: State, l: Label)
    requires Enabled(s, l) && Exclusive(s) && GeneratesOnEmpty(s) && KeepsLocks(s, l)
    ensures GeneratesOnEmpty(After(s, l))
  {
    match l {
      case Server(p, st) =>
        ServersAreOrderly(LocalOf(s, p), st);
        ServersStartEmpty(LocalOf(s, p), st);
        PutKeepsGeneratesOnEmpty(s, p, Serve(LocalOf(s, p), st));
      case AdminTakes(st) => RotationKeepsModeRow(AdminLocalOf(s), st);
      case _ =>
    }
  }

  lemma {:induction false} RunKeepsExclusive(s: State, ls: seq<Label>)
    requires Run(s, ls) && Exclusive(s) && GeneratesOnEmpty(s) && Throughout(s, ls, KeepsLocks)
    ensures Exclusive(End(s, ls)) && GeneratesOnEmpty(End(s, ls))
    decreases |ls|
  {
    if ls != [] {
      StepKeepsExclusive(s, ls[0]);
      StepKeepsGeneratesOnEmpty(s, ls[0]);
      RunKeepsExclusive(After(s, ls[0]), ls[1..]);
    }
  }

  /** In either lock mode, the rename that ends first-boot generation never replaces an
      existing wrapped DEK. */
  lemma GenerationNeverOverwrites(s: State, ls: seq<Label>, p: Pid)
    requires Quiet(s) && Run(s, ls) && Throughout(s, ls, KeepsLocks)
    requires Enabled(End(s, ls), Server(p, Install))
    ensures HomeOf(End(s, ls), p).active.None?
  {
    RunKeepsExclusive(s, ls);
  }

  /** In database mode a step generates a DEK only while no epoch is recorded and no secret
      version exists. */
  lemma GenerationNeverBesideData(s: State, ls: seq<Label>, p: Pid)
    requires Quiet(s) && s.mode.Database? && Run(s, ls) && Throughout(s, ls, KeepsLocks)
    requires var t := End(s, ls);
             Enabled(t, Server(p, Generate))
    ensures End(s, ls).db.epoch.Absent? && !HasSecretVersion(End(s, ls).db.rows)
  {
    RunKeepsExclusive(s, ls);
    RunKeepsMode(s, ls);
  }

  // ---------------------------------------------------------------------------
  // At most one DEK

  /** The process has generated a DEK that no epoch records yet. */
  predicate InWindow(s: State, p: Pid) {
    p in s.procs && s.procs[p].generated && s.db.epoch.Absent? && !s.procs[p].phase.Exited?
  }

  /** The step loses no lock and no process dies between generating and seeding. */
  predicate KeepsWindow(s: State, l: Label) {
    KeepsLocks(s, l) && (l.Server? && l.step.Crash? ==> !InWindow(s, l.p))
  }

  /** A generator whose DEK is not recorded yet, about to record it. */
  predicate AboutToSeed(v: Local) {
    && v.generated && v.db.epoch.Absent? && !HasSecretVersion(v.db.rows)
    && (v.phase.Staged? || v.phase.Loaded? || (v.phase.Derived? && v.home.active.Some?))
  }

  /** `base` DEKs had been generated before the run. Once one more is, either the epoch is
      recorded for good, or its generator is on its way to record it. */
  predicate OneMore(s: State, base: nat) {
    && base <= s.firstBoot <= base + 1
    && (s.firstBoot == base + 1 && s.db.epoch.Absent? ==> exists p :: p in s.procs && AboutToSeed(LocalOf(s, p)))
    && (s.firstBoot == base + 1 && s.admin.Fenced? ==> s.admin.hadEpoch)
  }

  lemma {:induction false} NothingToProbe(rows: seq<Row>, own: Dek)
    requires !HasSecretVersion(rows)
    ensures SecretVersions(rows) == [] && Probe(rows, own)
  {
    if rows != [] {
      NothingToProbe(rows[..|rows| - 1], own);
    }
  }

  /** The step by which an unrecorded generator goes on, or records its DEK. */
  lemma GeneratorStep(v: Local, st: ServerStep)
    requires CanServe(v, st) && !st.Crash? && AboutToSeed(v)
    ensures var w := Serve(v, st);
            && w.firstBoot == v.firstBoot
            && (w.db.epoch.Absent? ==> AboutToSeed(w))
  {
    if v.phase.Loaded? {
      NothingToProbe(v.db.rows, v.phase.dek);
    }
  }

  /** What a server step adds to the number of generated DEKs. */
  lemma GenerationCounts(v: Local, st: ServerStep)
    requires CanServe(v, st)
    ensures var w := Serve(v, st);
            && (v.db.epoch.Absent? || !w.db.epoch.Absent?)
            && (w.firstBoot == v.firstBoot ||
                (v.phase.Missing? && w.firstBoot == v.firstBoot + 1 && w.phase.Staged? && w.generated && w.db == v.db))
  {
  }

  lemma OtherServerStep(s: State, p: Pid, st: ServerStep, q: Pid)
    requires p in s.procs && q in s.procs && p != q && CanServe(LocalOf(s, q), st)
    requires s.mode.Database? && Exclusive(s) && AboutToSeed(LocalOf(s, p))
    ensures var t := Put(s, q, Serve(LocalOf(s, q), st));
            t.db.epoch.Absent? && t.firstBoot == s.firstBoot && AboutToSeed(LocalOf(t, p))
  {
    assert HoldsKeyLock(s, p);
    assert Critical(s.procs[q].phase) ==> HoldsKeyLock(s, q);
    ServersAreOrderly(LocalOf(s, q), st);
    ServersStartEmpty(LocalOf(s, q), st);
    GenerationCounts(LocalOf(s, q), st);
  }

  lemma UnrecordedKeepsOneMore(s: State, l: Label, base: nat, p: Pid)
    requires Enabled(s, l) && s.mode.Database? && Exclusive(s) && OneMore(s, base) && KeepsWindow(s, l)
    requires s.firstBoot == base + 1 && s.db.epoch.Absent? && p in s.procs && AboutToSeed(LocalOf(s, p))
    ensures OneMore(After(s, l), base)
  {
    match l {
      case Server(q, st) =>
        if q == p { GeneratorStep(LocalOf(s, p), st); } else { OtherServerStep(s, p, st, q); }
      case AdminTakes(st) => RotationKeepsModeRow(AdminLocalOf(s), st);
      case _ =>
    }
    assert After(s, l).db.epoch.Absent? ==> AboutToSeed(LocalOf(After(s, l), p));
  }

  lemma StepKeepsOneMore(s: State, l: Label, base: nat)
    requires Enabled(s, l) && s.mode.Database? && Exclusive(s) && GeneratesOnEmpty(s)
    requires OneMore(s, base) && KeepsWindow(s, l)
    ensures OneMore(After(s, l), base)
  {
    if s.firstBoot == base + 1 && s.db.epoch.Absent? {
      var p :| p in s.procs && AboutToSeed(LocalOf(s, p));
      UnrecordedKeepsOneMore(s, l, base, p);
    } else {
      match l {
        case Server(q, st) =>
          GenerationCounts(LocalOf(s, q), st);
          var t := After(s, l);
          if t.firstBoot > s.firstBoot { assert AboutToSeed(LocalOf(t, q)); }
        case _ =>
      }
    }
  }

  lemma {:induction false} RunKeepsOneMore(s: State, ls: seq<Label>, base: nat)
    requires Run(s, ls) && s.mode.Database? && Exclusive(s) && GeneratesOnEmpty(s)
    requires OneMore(s, base) && Throughout(s, ls, KeepsWindow)
    ensures OneMore(End(s, ls), base)
    decreases |ls|
  {
    if ls != [] {
      StepKeepsOneMore(s, ls[0], base);
      StepKeepsExclusive(s, ls[0]);
      StepKeepsGeneratesOnEmpty(s, ls[0]);
      RunKeepsOneMore(After(s, ls[0]), ls[1..], base);
    }
  }

  /** In database mode, whatever the number of replicas and key directories, first-boot
      generation produces at most one DEK, provided no replica dies between generating it and
      seeding the epoch. */
  lemma AtMostOneDekGenerated(s: State, ls: seq<Label>)
    requires Quiet(s) && s.mode.Database? && Run(s, ls) && Throughout(s, ls, KeepsWindow)
    ensures End(s, ls).firstBoot <= s.firstBoot + 1
  {
    RunKeepsOneMore(s, ls, s.firstBoot);
  }

  // ---------------------------------------------------------------------------
  // A replica with its own empty key directory, next to a recorded epoch

  /** It did not get past the generation check. */
  predicate Outside(ph: Phase) {
    ph.Looked? || ph.Present? || ph.Recorded? || ph.InLock? || ph.Exited?
  }

  /** Directory `d` holds no key file, nobody on it got past the generation check, and the
      epoch row is there to stay. */
  predicate ShutOut(s: State, d: DirId) {
    && s.mode.Database?
    && DirOf(s, d) == EMPTY_DIR
    && !s.db.epoch.Absent?
    && (s.admin.Fenced? ==> s.admin.hadEpoch)
    && (s.adminDir == d ==> s.admin.NoAdmin? || s.admin.Opened?)
    && (forall p :: p in s.procs && s.procs[p].dir == d ==> Outside(s.procs[p].phase))
  }

  lemma EpochStays(v: Local, st: ServerStep)
    requires CanServe(v, st) && !v.db.epoch.Absent?
    ensures !Serve(v, st).db.epoch.Absent?
  {
  }

  lemma ServerShutOut(v: Local, st: ServerStep)
    requires CanServe(v, st) && v.mode.Database? && !v.db.epoch.Absent? && v.home == EMPTY_DIR && Outside(v.phase)
    ensures Serve(v, st).home == EMPTY_DIR && Outside(Serve(v, st).phase)
  {
  }

  lemma AdminShutOut(v: AdminLocal, st: AdminStep)
    requires CanRotate(v, st) && !v.db.epoch.Absent? && (v.admin.Fenced? ==> v.admin.hadEpoch)
    ensures var w := Rotate(v, st);
            && !w.db.epoch.Absent? && (w.admin.Fenced? ==> w.admin.hadEpoch)
            && (v.home == EMPTY_DIR && v.admin.Opened? ==> w.home == EMPTY_DIR && w.admin.NoAdmin?)
  {
  }

  lemma StepKeepsShutOut(s: State, l: Label, d: DirId)
    requires Enabled(s, l) && ShutOut(s, d) && (l.CopyKeys? ==> l.dst != d)
    ensures ShutOut(After(s, l), d)
  {
    match l {
      case Server(p, st) =>
        EpochStays(LocalOf(s, p), st);
        if s.procs[p].dir == d {
          ServerShutOut(LocalOf(s, p), st);
        }
      case AdminTakes(st) => AdminShutOut(AdminLocalOf(s), st);
      case _ =>
    }
  }

  /** The operator does not copy a key set into `d`. */
  predicate NoCopyInto(ls: seq<Label>, d: DirId) {
    forall i :: 0 <= i < |ls| && ls[i].CopyKeys? ==> ls[i].dst != d
  }

  /** Whatever else happens, lost locks and crashes included, such a replica never writes a
      key file and never caches a DEK: it is refused. */
  lemma {:induction false} EmptyDirectoryIsRefused(s: State, ls: seq<Label>, d: DirId)
    requires Run(s, ls) && ShutOut(s, d) && NoCopyInto(ls, d)
    ensures var t := End(s, ls);
            && DirOf(t, d) == EMPTY_DIR
            && (forall p :: p in t.procs && t.procs[p].dir == d ==> !CachesDek(t.procs[p].phase))
    decreases |ls|
  {
    if ls != [] {
      StepKeepsShutOut(s, ls[0], d);
      EmptyDirectoryIsRefused(After(s, ls[0]), ls[1..], d);
    }
  }
}
