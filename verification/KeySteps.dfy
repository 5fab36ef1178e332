/** Every step a server process, the admin rotation or the operator can take: one atomic
    action (one database statement or transaction, one file rename) each. A crash is possible
    between any two of them. */
module KeySteps {
  import opened Options
  import opened KeyState

  // ---------------------------------------------------------------------------
  // A server process

  /** What one process sees and changes: itself, its key directory, the database, its locks. */
  datatype Local = Local(
    mode: Mode, kekFiles: bool, phase: Phase, generated: bool, home: KeyDir, db: Db,
    lock: LockView, present: bool, writerLost: bool, next: Dek, firstBoot: nat)

  /** The key lock as one process sees it. */
  datatype LockView = Free | Mine | Theirs

  datatype ServerStep =
    | RecordMode
    | LockKeys
    | CheckGenerate
    | CheckKeySet
    | Recover
    | ClearPromoted
    | DeriveKek
    | Initialize
    | Generate
    | Install
    | SeedEpoch
    | VerifyEpoch
    | ClearCompleted(cleared: bool)
    | ReleaseKeys
    | Write(change: Change)
    | Signal
    | ObserveLoss
    | Exit
    | Crash

  /** The steps up to an active key file; the others load, guard, serve and end. */
  predicate KeyStep(st: ServerStep) {
    || st.RecordMode? || st.LockKeys? || st.CheckGenerate? || st.CheckKeySet? || st.Recover? || st.ClearPromoted?
    || st.DeriveKek? || st.Initialize? || st.Generate? || st.Install?
  }

  predicate CanServe(v: Local, st: ServerStep) {
    match st
    case RecordMode => v.phase.Present?
    case LockKeys => v.phase.Recorded? && v.lock.Free?
    case CheckGenerate => v.phase.InLock?
    case CheckKeySet => v.phase.Allowed?
    case Recover => v.phase.Consistent?
    case ClearPromoted => v.phase.Promoted?
    case DeriveKek => v.phase.Settled?
    case Initialize => v.phase.Derived?
    case Generate => v.phase.Missing?
    case Install => v.phase.Staged? && v.home.pending.Some?
    case SeedEpoch => v.phase.Loaded?
    case VerifyEpoch => v.phase.Seeded?
    case ClearCompleted(_) => v.phase.Verified?
    case ReleaseKeys => v.phase.Guarded?
    case Write(c) => v.phase.Ready? && Applies(c, |v.db.rows|)
    case Signal => v.phase.Ready?
    case ObserveLoss => v.phase.Ready? && (!v.present || v.writerLost)
    case Exit => v.phase.Stopping?
    case Crash => !v.phase.Exited? && !v.phase.Looked?
  }

  function Serve(v: Local, st: ServerStep): Local
    requires CanServe(v, st)
  {
    match st
    case RecordMode => v.(phase := Recorded, db := v.db.(modeRecorded := v.db.modeRecorded || v.mode.Database?))
    case LockKeys => v.(phase := InLock, lock := Mine)
    case CheckGenerate => if v.home.active.Some? || MayGenerate(v) then v.(phase := Allowed) else Gone(v, 1)
    case CheckKeySet => if Whole(v.kekFiles, v.home) then v.(phase := Consistent) else Gone(v, 1)
    case Recover => DoRecover(v)
    case ClearPromoted => v.(phase := Settled, db := v.db.(marker := false))
    case DeriveKek => v.(phase := Derived, home := v.home.(kek := v.home.kek || v.kekFiles))
    case Initialize => v.(phase := if v.home.active.Some? then Loaded(v.home.active.value) else Missing)
    case Generate =>
      v.(phase := Staged, generated := true, home := v.home.(pending := Some(v.next)), next := v.next + 1,
         firstBoot := v.firstBoot + 1)
    case Install => v.(phase := Derived, home := Promote(v.home))
    case SeedEpoch => DoSeed(v)
    case VerifyEpoch => DoVerify(v)
    case ClearCompleted(cleared) => DoClearCompleted(v, cleared)
    case ReleaseKeys => DoRelease(v)
    case Write(c) => v.(db := v.db.(rows := Changed(v.db.rows, c, v.phase.dek)))
    case Signal => v.(phase := Stopping(false))
    case ObserveLoss => v.(phase := Stopping(true))
    case Exit => Gone(v, if v.phase.lockLost then 1 else 0)
    case Crash => Gone(v, 2)
  }

  /** The process ends: its connections, and with them its locks, go away. */
  function Gone(v: Local, code: nat): Local {
    v.(phase := Exited(code), lock := Drop(v.lock), present := false)
  }

  function Drop(l: LockView): LockView {
    if l.Mine? then Free else l
  }

  /** Database mode refuses to generate a DEK over a recorded epoch or a secret version;
      flock mode has no such check. */
  predicate MayGenerate(v: Local) {
    v.mode.Flock? || (v.db.epoch.Absent? && !HasSecretVersion(v.db.rows))
  }

  /** RecoverInterruptedRotation: without a redo marker the pending file is discarded; with
      one it is promoted, and a directory that has none leaves the marker alone. */
  function DoRecover(v: Local): Local {
    if !v.db.marker then v.(phase := Settled, home := v.home.(pending := None))
    else if v.home.pending.None? then v.(phase := Settled)
    else v.(phase := Promoted, home := Promote(v.home))
  }

  /** dek.key.pending renamed to dek.key. */
  function Promote(k: KeyDir): KeyDir {
    k.(active := k.pending, pending := None)
  }

  function DoSeed(v: Local): Local
    requires v.phase.Loaded?
  {
    var own := v.phase.dek;
    if !v.db.epoch.Absent? then v.(phase := Seeded(own))
    else if Probe(v.db.rows, own) then v.(phase := Seeded(own), db := v.db.(epoch := Current(own)))
    else Gone(v, 1)
  }

  /** A fence left by an interrupted rotation of this very DEK is lifted and the epoch is
      read again; any other epoch refuses the boot. */
  function DoVerify(v: Local): Local
    requires v.phase.Seeded?
  {
    var own := v.phase.dek;
    if v.db.epoch == Current(own) then v.(phase := Verified(own))
    else if v.db.epoch == Rotating(own) then v.(db := v.db.(epoch := Current(own)))
    else Gone(v, 1)
  }

  /** clearCompletedRotationMarker; a failure only logs. */
  function DoClearCompleted(v: Local, cleared: bool): Local
    requires v.phase.Verified?
  {
    var done := cleared && v.home.pending.None? && v.db.epoch == Current(v.phase.dek);
    v.(phase := Guarded(v.phase.dek), db := v.db.(marker := v.db.marker && !done))
  }

  /** The advisory lock is released, unless it was lost meanwhile, which refuses the boot.
      The flock is kept for the life of the process. */
  function DoRelease(v: Local): Local
    requires v.phase.Guarded?
  {
    if !v.lock.Mine? then Gone(v, 1) else v.(phase := Ready(v.phase.dek), lock := if v.mode.Flock? then Mine else Free)
  }

  // ---------------------------------------------------------------------------
  // admin encryption rotate

  datatype AdminLocal = AdminLocal(admin: Admin, kekFiles: bool, home: KeyDir, db: Db, next: Dek)

  datatype AdminStep =
    | RotateCheck
    | RotateRecover
    | RotateClearPromoted
    | RotateLoad
    | RotateClearCompleted
    | RotateStage
    | RotateFence
    | RotateCommit
    | RotateAbort(keepPending: bool, lifted: bool)
    | RotateRename
    | RotateFinish(cleared: bool)
    | RotateCrash

  predicate CanRotate(v: AdminLocal, st: AdminStep) {
    match st
    case RotateCheck => v.admin.Opened?
    case RotateRecover => v.admin.Examined?
    case RotateClearPromoted => v.admin.Promoting?
    case RotateLoad => v.admin.Recovered?
    case RotateClearCompleted => v.admin.HoldsKey?
    case RotateStage => v.admin.MarkerChecked?
    case RotateFence => v.admin.PendingWritten?
    case RotateCommit => v.admin.Fenced? && v.db.epoch == Rotating(v.admin.from) && AllUnder(v.db.rows, v.admin.from)
    case RotateAbort(_, _) => v.admin.PendingWritten? || v.admin.Fenced?
    case RotateRename => v.admin.Committed? && v.home.pending.Some?
    case RotateFinish(_) => v.admin.Renamed?
    case RotateCrash => !v.admin.NoAdmin?
  }

  function Rotate(v: AdminLocal, st: AdminStep): AdminLocal
    requires CanRotate(v, st)
  {
    match st
    case RotateCheck =>
      // openKeyWriter: a partial key set, or a directory with no DEK at all, is refused
      var ok := Whole(v.kekFiles, v.home) && (v.home.active.Some? || v.home.pending.Some?);
      v.(admin := if ok then Examined else NoAdmin)
    case RotateRecover => DoRotateRecover(v)
    case RotateClearPromoted => v.(admin := Recovered, db := v.db.(marker := false))
    case RotateLoad => v.(admin := if v.home.active.Some? then HoldsKey(v.home.active.value) else NoAdmin)
    case RotateClearCompleted =>
      var done := v.home.pending.None? && v.db.epoch == Current(v.admin.from);
      v.(admin := MarkerChecked(v.admin.from), db := v.db.(marker := v.db.marker && !done))
    case RotateStage =>
      // the new DEK is written to dek.key.pending before the epoch is looked at
      v.(admin := PendingWritten(v.admin.from, v.next), home := v.home.(pending := Some(v.next)), next := v.next + 1)
    case RotateFence => DoRotateFence(v)
    case RotateCommit =>
      // one transaction: the sweep, the new epoch and the redo marker
      v.(admin := Committed(v.admin.into),
         db := v.db.(rows := Sweep(v.db.rows, v.admin.into), epoch := Current(v.admin.into), marker := true))
    case RotateAbort(keep, lifted) => DoRotateAbort(v, keep, lifted)
    case RotateRename => v.(admin := Renamed(v.admin.into), home := Promote(v.home))
    case RotateFinish(cleared) => v.(admin := NoAdmin, db := v.db.(marker := v.db.marker && !cleared))
    case RotateCrash => v.(admin := NoAdmin)
  }

  /** The same crash recovery as a server's. */
  function DoRotateRecover(v: AdminLocal): AdminLocal {
    if !v.db.marker then v.(admin := Recovered, home := v.home.(pending := None))
    else if v.home.pending.None? then v.(admin := Recovered)
    else v.(admin := Promoting, home := Promote(v.home))
  }

  /** fenceDEKEpochForRotation; a refusal removes the pending file. */
  function DoRotateFence(v: AdminLocal): AdminLocal
    requires v.admin.PendingWritten?
  {
    var from := v.admin.from;
    if v.db.epoch.Absent? || v.db.epoch.dek == from then
      v.(admin := Fenced(from, v.admin.into, !v.db.epoch.Absent?), db := v.db.(epoch := Rotating(from)))
    else
      v.(admin := NoAdmin, home := v.home.(pending := None))
  }

  /** A failure before the commit: the fence is lifted if it is still there, unless that fails too,
      which only logs; and the pending file is removed unless the outcome of the commit is unknown. */
  function DoRotateAbort(v: AdminLocal, keep: bool, lifted: bool): AdminLocal
    requires v.admin.PendingWritten? || v.admin.Fenced?
  {
    var epoch := if lifted && v.admin.Fenced? && v.db.epoch == Rotating(v.admin.from)
                 then (if v.admin.hadEpoch then Current(v.admin.from) else Absent)
                 else v.db.epoch;
    v.(admin := NoAdmin, home := if keep then v.home else v.home.(pending := None), db := v.db.(epoch := epoch))
  }

  // ---------------------------------------------------------------------------
  // The deployment

  datatype Label =
    | Start(p: Pid, d: DirId)
    | Attach(p: Pid)
    | Server(p: Pid, step: ServerStep)
    | LoseKeyLock(p: Pid)
    | LosePresence(p: Pid)
    | LoseWriter(p: Pid)
    | AdminStart(d: DirId)
    | AdminTakes(rotation: AdminStep)
    | CopyKeys(src: DirId, dst: DirId)

  function LocalOf(s: State, p: Pid): Local
    requires p in s.procs
  {
    var d := s.procs[p].dir;
    var l := LockFor(s.mode, d);
    Local(s.mode, s.kekFiles, s.procs[p].phase, s.procs[p].generated, DirOf(s, d), s.db,
          if l !in s.locks then Free else if s.locks[l] == p then Mine else Theirs,
          p in s.presence, s.procs[p].writerLost, s.next, s.firstBoot)
  }

  function Put(s: State, p: Pid, v: Local): State
    requires p in s.procs
  {
    var d := s.procs[p].dir;
    s.(db := v.db,
       dirs := s.dirs[d := v.home],
       procs := s.procs[p := Proc(d, v.phase, v.generated, v.writerLost)],
       presence := if v.present then s.presence else s.presence - {p},
       locks := if v.lock.Mine? then s.locks[LockFor(s.mode, d) := p] else Unlock(s.locks, p),
       next := v.next, firstBoot := v.firstBoot)
  }

  function AdminLocalOf(s: State): AdminLocal {
    AdminLocal(s.admin, s.kekFiles, DirOf(s, s.adminDir), s.db, s.next)
  }

  function PutAdmin(s: State, v: AdminLocal): State {
    s.(db := v.db, dirs := s.dirs[s.adminDir := v.home], admin := v.admin, next := v.next)
  }

  predicate Enabled(s: State, l: Label) {
    match l
    case Start(p, d) =>
      // the boot refusals; a process that ends before its presence lock is one that never attaches
      p !in s.procs && Whole(s.kekFiles, DirOf(s, d))
    case Attach(p) => p in s.procs && s.procs[p].phase.Looked? && s.admin.NoAdmin?
    case Server(p, st) => p in s.procs && CanServe(LocalOf(s, p), st)
    case LoseKeyLock(p) => KeyInitLock in s.locks && s.locks[KeyInitLock] == p
    case LosePresence(p) => p in s.presence
    case LoseWriter(p) => p in s.procs && !s.procs[p].writerLost
    case AdminStart(d) => s.admin.NoAdmin? && s.presence == {}
    case AdminTakes(st) => CanRotate(AdminLocalOf(s), st)
    case CopyKeys(src, dst) =>
      // the operator copies the current key set, never over a pending file, under a rotation
      // or under a process that is preparing its key
      && s.db.epoch.Current? && DirOf(s, src).active == Some(s.db.epoch.dek)
      && DirOf(s, dst).pending.None? && (s.admin.NoAdmin? || s.adminDir != dst)
      && (forall p :: p in s.procs && s.procs[p].dir == dst ==> !Preparing(s.procs[p].phase))
  }

  function After(s: State, l: Label): State
    requires Enabled(s, l)
  {
    match l
    case Start(p, d) => s.(procs := s.procs[p := Proc(d, Looked, false, false)])
    case Attach(p) => s.(procs := s.procs[p := s.procs[p].(phase := Present)], presence := s.presence + {p})
    case Server(p, st) => Put(s, p, Serve(LocalOf(s, p), st))
    case LoseKeyLock(p) => s.(locks := s.locks - {KeyInitLock})
    case LosePresence(p) => s.(presence := s.presence - {p})
    case LoseWriter(p) => s.(procs := s.procs[p := s.procs[p].(writerLost := true)])
    case AdminStart(d) => s.(admin := Opened, adminDir := d)
    case AdminTakes(st) => PutAdmin(s, Rotate(AdminLocalOf(s), st))
    case CopyKeys(src, dst) =>
      var k := DirOf(s, dst);
      s.(dirs := s.dirs[dst := k.(active := DirOf(s, src).active, kek := k.kek || DirOf(s, src).kek)])
  }

  // ---------------------------------------------------------------------------
  // Runs

  /** `ls` can be taken from `s`, one step after the other. */
  predicate Run(s: State, ls: seq<Label>)
    decreases |ls|
  {
    ls == [] || (Enabled(s, ls[0]) && Run(After(s, ls[0]), ls[1..]))
  }

  function End(s: State, ls: seq<Label>): State
    requires Run(s, ls)
    decreases |ls|
  {
    if ls == [] then s else End(After(s, ls[0]), ls[1..])
  }

  /** Every step of the run satisfies `ok` in the state it is taken from. */
  predicate Throughout(s: State, ls: seq<Label>, ok: (State, Label) -> bool)
    requires Run(s, ls)
    decreases |ls|
  {
    ls == [] || (ok(s, ls[0]) && Throughout(After(s, ls[0]), ls[1..], ok))
  }

  /** The step is not the loss of a lock while it is held. */
  predicate KeepsLocks(s: State, l: Label) {
    !l.LoseKeyLock? && !l.LosePresence?
  }

  /** Nothing is running and no lock is held; the database and the key files are arbitrary. */
  predicate Quiet(s: State) {
    s.procs == map[] && s.presence == {} && s.locks == map[] && s.admin.NoAdmin?
  }

  /** A run goes on with another one. */
  lemma {:induction false} RunConcat(s: State, a: seq<Label>, b: seq<Label>)
    requires Run(s, a) && Run(End(s, a), b)
    ensures Run(s, a + b) && End(s, a + b) == End(End(s, a), b)
    decreases |a|
  {
    if a == [] {
      assert a + b == b;
    } else {
      assert (a + b)[0] == a[0] && (a + b)[1..] == a[1..] + b;
      RunConcat(After(s, a[0]), a[1..], b);
    }
  }

  lemma {:induction false} RunAppend(s: State, a: seq<Label>, b: seq<Label>, ok: (State, Label) -> bool)
    requires Run(s, a) && Throughout(s, a, ok) && Run(End(s, a), b) && Throughout(End(s, a), b, ok)
    ensures Run(s, a + b) && Throughout(s, a + b, ok) && End(s, a + b) == End(End(s, a), b)
    decreases |a|
  {
    RunConcat(s, a, b);
    if a == [] {
      assert a + b == b;
    } else {
      assert (a + b)[0] == a[0] && (a + b)[1..] == a[1..] + b;
      RunAppend(After(s, a[0]), a[1..], b, ok);
    }
  }
}
