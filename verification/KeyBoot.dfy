/** The boot of one replica as the program text has it, statement by statement on key files and
    database rows, and proof that it is a path of the step relation: what holds of every run
    of the steps holds of this code. */
module KeyBoot {
  import opened Options
  import opened KeyState
  import opened KeySteps
  import opened KeyProbe
  import opened KeySolo

  // ---------------------------------------------------------------------------
  // The parts of a boot

  function Locked(v: Local): Local {
    v.(phase := InLock, lock := Mine, db := v.db.(modeRecorded := v.db.modeRecorded || v.mode.Database?))
  }

  function GenerationChecked(v: Local): Local {
    if v.home.active.Some? || MayGenerate(v) then v.(phase := Allowed) else Gone(v, 1)
  }

  function KeySetChecked(v: Local): Local {
    if Whole(v.kekFiles, v.home) then v.(phase := Consistent) else Gone(v, 1)
  }

  /** Past the checks that come before recovery. */
  function Admitted(v: Local): Local {
    var a := GenerationChecked(Locked(v));
    if a.phase.Exited? then a else KeySetChecked(a)
  }

  function AfterCrashRecovery(v: Local): Local {
    v.(phase := Settled, home := RecoveredHome(v.db, v.home),
       db := v.db.(marker := v.db.marker && v.home.pending.None?))
  }

  function Initialized(v: Local): Local {
    var k := v.home.(kek := v.home.kek || v.kekFiles);
    if k.active.Some? then v.(phase := Loaded(k.active.value), home := k)
    else v.(phase := Loaded(v.next), generated := true, home := KeyDir(Some(v.next), None, k.kek),
            next := v.next + 1, firstBoot := v.firstBoot + 1)
  }

  /** The epoch guard accepts `own`. */
  predicate Accepts(db: Db, own: Dek) {
    if db.epoch.Absent? then Probe(db.rows, own) else db.epoch.dek == own
  }

  function EpochChecked(v: Local): Local
    requires v.phase.Loaded?
  {
    var own := v.phase.dek;
    if Accepts(v.db, own) then v.(phase := Verified(own), db := v.db.(epoch := Current(own))) else Gone(v, 1)
  }

  function MarkerCleared(v: Local, cleared: bool): Local
    requires v.phase.Verified?
  {
    var own := v.phase.dek;
    var done := cleared && v.home.pending.None? && v.db.epoch == Current(own);
    v.(phase := Guarded(own), db := v.db.(marker := v.db.marker && !done))
  }

  /** From the checks to the guarded DEK. */
  function Keyed(v: Local, cleared: bool): Local {
    var b := EpochChecked(Initialized(AfterCrashRecovery(v)));
    if b.phase.Verified? then MarkerCleared(b, cleared) else b
  }

  /** The boot up to the release of the key lock. */
  function Guarding(v: Local, cleared: bool): Local {
    var a := Admitted(v);
    if a.phase.Exited? then a else Keyed(a, cleared)
  }

  /** `held`: the key-init lock was still held when the boot was done with the keys. One that
      was lost meanwhile refuses the boot. The flock is kept. */
  function Released(v: Local, held: bool): Local
    requires v.phase.Guarded?
  {
    if v.mode.Flock? then v.(phase := Ready(v.phase.dek), lock := Mine)
    else if held then v.(phase := Ready(v.phase.dek), lock := Free)
    else Gone(v, 1)
  }

  function Outcome(v: Local, cleared: bool, held: bool): Local {
    var g := Guarding(v, cleared);
    if g.phase.Guarded? then Released(g, held) else g
  }

  /** The steps of the boot, in order, up to the release. */
  lemma GuardPath(v: Local, cleared: bool) returns (sts: seq<ServerStep>)
    requires v.phase.Present? && v.lock.Free?
    ensures Leads(v, sts, Guarding(v, cleared), false)
  {
    sts := CheckPath(v);
    if Admitted(v).phase.Consistent? {
      sts := KeyedPath(v, sts, Admitted(v), cleared);
    }
  }

  lemma KeyedPath(o: Local, before: seq<ServerStep>, v: Local, cleared: bool) returns (sts: seq<ServerStep>)
    requires Leads(o, before, v, false) && v.phase.Consistent?
    ensures Leads(o, sts, Keyed(v, cleared), false)
  {
    sts := RecoverPath(o, before, v);
    var w := AfterCrashRecovery(v);
    sts := InitializePath(o, sts, w);
    w := Initialized(w);
    sts := EpochPath(o, sts, w);
    w := EpochChecked(w);
    if w.phase.Verified? {
      LeadsOn(o, sts, w, ClearCompleted(cleared), false);
      sts := sts + [ClearCompleted(cleared)];
    }
  }

  lemma CheckPath(v: Local) returns (sts: seq<ServerStep>)
    requires v.phase.Present? && v.lock.Free?
    ensures Leads(v, sts, Admitted(v), false)
  {
    var w := v;
    sts := [];
    LeadsOn(v, sts, w, RecordMode, false);
    w, sts := Serve(w, RecordMode), sts + [RecordMode];
    LeadsOn(v, sts, w, LockKeys, false);
    w, sts := Serve(w, LockKeys), sts + [LockKeys];
    LeadsOn(v, sts, w, CheckGenerate, false);
    w, sts := Serve(w, CheckGenerate), sts + [CheckGenerate];
    if w.phase.Allowed? {
      LeadsOn(v, sts, w, CheckKeySet, false);
      sts := sts + [CheckKeySet];
    }
  }

  lemma RecoverPath(o: Local, before: seq<ServerStep>, v: Local) returns (sts: seq<ServerStep>)
    requires Leads(o, before, v, false) && v.phase.Consistent?
    ensures Leads(o, sts, AfterCrashRecovery(v), false)
  {
    var w := v;
    sts := before;
    LeadsOn(o, sts, w, Recover, false);
    w, sts := Serve(w, Recover), sts + [Recover];
    if w.phase.Promoted? {
      LeadsOn(o, sts, w, ClearPromoted, false);
      sts := sts + [ClearPromoted];
    }
  }

  lemma InitializePath(o: Local, before: seq<ServerStep>, v: Local) returns (sts: seq<ServerStep>)
    requires Leads(o, before, v, false) && v.phase.Settled?
    ensures Leads(o, sts, Initialized(v), false)
  {
    var w := v;
    sts := before;
    LeadsOn(o, sts, w, DeriveKek, false);
    w, sts := Serve(w, DeriveKek), sts + [DeriveKek];
    LeadsOn(o, sts, w, Initialize, false);
    w, sts := Serve(w, Initialize), sts + [Initialize];
    if w.phase.Missing? {
      LeadsOn(o, sts, w, Generate, false);
      w, sts := Serve(w, Generate), sts + [Generate];
      LeadsOn(o, sts, w, Install, false);
      w, sts := Serve(w, Install), sts + [Install];
      LeadsOn(o, sts, w, Initialize, false);
      sts := sts + [Initialize];
    }
  }

  lemma EpochPath(o: Local, before: seq<ServerStep>, v: Local) returns (sts: seq<ServerStep>)
    requires Leads(o, before, v, false) && v.phase.Loaded?
    ensures Leads(o, sts, EpochChecked(v), false)
  {
    LeadsOn(o, before, v, SeedEpoch, false);
    sts := before + [SeedEpoch];
    var w := Serve(v, SeedEpoch);
    if w.phase.Seeded? {
      sts := VerifyPath(o, sts, w);
    }
  }

  lemma VerifyPath(o: Local, before: seq<ServerStep>, v: Local) returns (sts: seq<ServerStep>)
    requires Leads(o, before, v, false) && v.phase.Seeded? && !v.db.epoch.Absent?
    ensures var own := v.phase.dek;
            Leads(o, sts, if v.db.epoch.dek == own then v.(phase := Verified(own), db := v.db.(epoch := Current(own)))
                          else Gone(v, 1), false)
  {
    LeadsOn(o, before, v, VerifyEpoch, false);
    var w := Serve(v, VerifyEpoch);
    sts := before + [VerifyEpoch];
    if w.phase.Seeded? {
      LeadsOn(o, sts, w, VerifyEpoch, false);
      sts := sts + [VerifyEpoch];
    }
  }

  // ---------------------------------------------------------------------------
  // What a boot comes to

  /** The DEK the boot ends up with: what recovery leaves, or a new one. */
  function Own(v: Local): Dek {
    var k := RecoveredHome(v.db, v.home);
    if k.active.Some? then k.active.value else v.next
  }

  /** The checks before recovery let the boot through. */
  predicate Admissible(v: Local) {
    (v.home.active.Some? || MayGenerate(v)) && Whole(v.kekFiles, v.home)
  }

  /** The key files of a boot that served: its own DEK, nothing pending, the KEK's files. */
  predicate Served(v: Local, k: KeyDir) {
    k.active == Some(Own(v)) && k.pending.None? && (v.kekFiles ==> k.kek)
  }

  /** The boot gets past the generation check, the key-set check and the epoch guard. */
  predicate CanBoot(v: Local) {
    Admissible(v) && Accepts(v.db, Own(v))
  }

  /** A boot from `v` to `w` serves exactly when CanBoot says so and its key lock was not lost,
      and then the active key file, the cached DEK and the recorded epoch are one. A boot that
      CanBoot refuses exits with the epoch as it was; one that lost its lock exits too, with
      its DEK recorded. The redo marker goes exactly when recovery promoted or the boot cleared a
      completed rotation's. No row changes, and a boot refused before recovery, for want of a key or
      for a partial key set, leaves the key files alone. */
  predicate BootResult(v: Local, w: Local, cleared: bool, held: bool) {
    && (w.phase.Ready? <==> CanBoot(v) && (held || v.mode.Flock?))
    && (w.phase.Ready? ==> w.phase == Ready(Own(v)))
    && (!w.phase.Ready? ==> w.phase == Exited(1) && !w.lock.Mine?)
    && (CanBoot(v) ==> w.db.epoch == Current(Own(v)) && Served(v, w.home))
    && (!CanBoot(v) ==> w.db.epoch == v.db.epoch)
    && w.db.rows == v.db.rows
    && (!Admissible(v) ==> w.home == v.home)
    && w.db.marker == (v.db.marker && !(Admissible(v) && v.home.pending.Some?) && !(CanBoot(v) && cleared))
    && (w.home.active != v.home.active ==> v.home.active.None? || (v.db.marker && w.home.active == v.home.pending))
  }

  /** The same of the boot up to the release. */
  predicate GuardResult(v: Local, g: Local, cleared: bool) {
    && (if CanBoot(v) then g.phase == Guarded(Own(v)) && g.lock.Mine? else g.phase == Exited(1) && !g.lock.Mine?)
    && (CanBoot(v) ==> g.db.epoch == Current(Own(v)) && Served(v, g.home))
    && (!CanBoot(v) ==> g.db.epoch == v.db.epoch)
    && g.mode == v.mode && g.db.rows == v.db.rows
    && (!Admissible(v) ==> g.home == v.home)
    && g.db.marker == (v.db.marker && !(Admissible(v) && v.home.pending.Some?) && !(CanBoot(v) && cleared))
    && (g.home.active != v.home.active ==> v.home.active.None? || (v.db.marker && g.home.active == v.home.pending))
  }

  lemma AdmitOutcome(v: Local)
    requires v.phase.Present? && v.lock.Free?
    ensures Admitted(v) == if Admissible(v) then Checked(v) else Gone(Locked(v), 1)
  {
  }

  /** The DEK is loaded: what recovery left, or a new one. */
  predicate LoadedFrom(v: Local, c: Local) {
    && c.phase == Loaded(Own(v)) && Served(v, c.home) && c.lock.Mine? && c.mode == v.mode
    && c.db.epoch == v.db.epoch && c.db.rows == v.db.rows
    && c.db.marker == (v.db.marker && v.home.pending.None?)
    && (c.home.active != v.home.active ==> v.home.active.None? || (v.db.marker && c.home.active == v.home.pending))
  }

  lemma LoadOutcome(v: Local)
    requires Admissible(v)
    ensures LoadedFrom(v, Initialized(AfterCrashRecovery(Checked(v))))
  {
    var b := AfterCrashRecovery(Checked(v));
    assert b.home == RecoveredHome(v.db, v.home);
  }

  lemma EpochOutcome(v: Local, c: Local, cleared: bool)
    requires Admissible(v) && LoadedFrom(v, c)
    ensures var b := EpochChecked(c);
            GuardResult(v, if b.phase.Verified? then MarkerCleared(b, cleared) else b, cleared)
  {
    assert CanBoot(v) <==> Accepts(c.db, Own(v));
  }

  lemma GuardOutcome(v: Local, cleared: bool)
    requires v.phase.Present? && v.lock.Free?
    ensures GuardResult(v, Guarding(v, cleared), cleared)
  {
    AdmitOutcome(v);
    if Admissible(v) {
      LoadOutcome(v);
      EpochOutcome(v, Initialized(AfterCrashRecovery(Checked(v))), cleared);
    }
  }

  lemma ReleaseOutcome(v: Local, g: Local, cleared: bool, held: bool)
    requires GuardResult(v, g, cleared)
    ensures BootResult(v, if g.phase.Guarded? then Released(g, held) else g, cleared, held)
  {
  }

  lemma BootOutcome(v: Local, cleared: bool, held: bool)
    requires v.phase.Present? && v.lock.Free?
    ensures BootResult(v, Outcome(v, cleared, held), cleared, held)
  {
    GuardOutcome(v, cleared);
    ReleaseOutcome(v, Guarding(v, cleared), cleared, held);
  }

  /** The last step, after the loss of the key-init lock when it is not `held`. */
  lemma ReleaseIsARun(s: State, p: Pid, held: bool) returns (ls: seq<Label>)
    requires p in s.procs && LocalOf(s, p).phase.Guarded? && LocalOf(s, p).lock.Mine?
    ensures Run(s, ls) && OnlyBy(s, p, End(s, ls)) && LocalOf(End(s, ls), p) == Released(LocalOf(s, p), held)
  {
    var v := LocalOf(s, p);
    var sts := [ReleaseKeys];
    if held || s.mode.Flock? {
      LeadsOn(v, [], v, ReleaseKeys, false);
      assert [] + sts == sts;
      SoloRun(s, p, sts, Released(v, held), false);
      ls := Labels(p, sts);
    } else {
      var t := After(s, LoseKeyLock(p));
      var w := LocalOf(t, p);
      assert w == v.(lock := Free);
      LeadsOn(w, [], w, ReleaseKeys, false);
      assert [] + sts == sts;
      SoloRun(t, p, sts, Released(v, held), false);
      ls := [LoseKeyLock(p)] + Labels(p, sts);
      assert ls[1..] == Labels(p, sts);
    }
  }

  lemma GoOn(s: State, p: Pid, before: seq<Label>, g: Local, held: bool) returns (ls: seq<Label>)
    requires Run(s, before) && OnlyBy(s, p, End(s, before)) && LocalOf(End(s, before), p) == g
    requires g.phase.Guarded? && g.lock.Mine?
    ensures Run(s, ls) && OnlyBy(s, p, End(s, ls)) && LocalOf(End(s, ls), p) == Released(g, held)
  {
    var more := ReleaseIsARun(End(s, before), p, held);
    RunConcat(s, before, more);
    ls := before + more;
  }

  /** In any deployment, a replica that starts while its key lock is free has a run that takes
      it, and nobody else, exactly where Boot leaves it. */
  lemma BootIsARun(s: State, p: Pid, cleared: bool, held: bool) returns (ls: seq<Label>)
    requires p in s.procs && LocalOf(s, p).phase.Present? && LocalOf(s, p).lock.Free?
    ensures Run(s, ls) && OnlyBy(s, p, End(s, ls))
    ensures LocalOf(End(s, ls), p) == Outcome(LocalOf(s, p), cleared, held)
    ensures BootResult(LocalOf(s, p), LocalOf(End(s, ls), p), cleared, held)
  {
    var v := LocalOf(s, p);
    var g := Guarding(v, cleared);
    var sts := GuardPath(v, cleared);
    SoloRun(s, p, sts, g, false);
    GuardOutcome(v, cleared);
    ReleaseOutcome(v, g, cleared, held);
    if g.phase.Guarded? {
      ls := GoOn(s, p, Labels(p, sts), g, held);
    } else {
      ls := Labels(p, sts);
    }
  }

  // ---------------------------------------------------------------------------
  // The code

  /** A key directory: dek.key, dek.key.pending and the files of the KEK. */
  class KeyDirectory {
    var active: Option<Dek>
    var pending: Option<Dek>
    var kek: bool

    function Files(): KeyDir reads this { KeyDir(active, pending, kek) }
  }

  /** The rows of system_metadata and secret_versions the boot reads and writes. */
  class Database {
    var epoch: Epoch
    var marker: bool
    var rows: seq<Row>
    var modeRecorded: bool

    function Tables(): Db reads this { Db(epoch, marker, rows, modeRecorded) }
  }

  /** The newest 50 secret versions are read, newest first, and the first encrypted one decides. */
  method ProbeNewest(rows: seq<Row>, own: Dek) returns (ok: bool)
    ensures ok == Probe(rows, own)
    ensures ok <==> forall i: nat :: Decides(rows, i, 50) ==> rows[i].under == Some(own)
  {
    ProbeRefusesExactly(rows, own);
    var versions := SecretVersions(rows);
    var n, seen := |versions|, 0;
    assert versions[..n] == versions;
    while n > 0 && seen < PROBE_LIMIT
      invariant 0 <= n <= |versions| && seen <= PROBE_LIMIT
      invariant NewestEncrypted(versions, PROBE_LIMIT) == NewestEncrypted(versions[..n], PROBE_LIMIT - seen)
      decreases n
    {
      var r := versions[n - 1];
      assert versions[..n][n - 1] == r && versions[..n][..n - 1] == versions[..n - 1];
      if r.under.Some? {
        return r.under.value == own;
      }
      n, seen := n - 1, seen + 1;
    }
    ok := true;
  }

  /** A server process from its presence lock to serving. */
  class Replica {
    const mode: Mode
    const kekFiles: bool
    const dir: KeyDirectory
    const database: Database
    var lock: LockView
    var present: bool
    var cached: Option<Dek>
    var generated: bool
    var random: Dek
    ghost var phase: Phase
    ghost var firstBoot: nat

    ghost function View(): Local reads this, dir, database {
      Local(mode, kekFiles, phase, generated, dir.Files(), database.Tables(), lock, present, false, random, firstBoot)
    }

    ghost predicate Valid() reads this {
      CachesDek(phase) ==> cached == Some(phase.dek)
    }

    constructor (mode: Mode, kekFiles: bool, dir: KeyDirectory, database: Database, random: Dek)
      ensures this.mode == mode && this.kekFiles == kekFiles && this.dir == dir && this.database == database && Valid()
      ensures View() == Local(mode, kekFiles, Present, false, dir.Files(), database.Tables(), Free, true, false,
                              random, 0)
    {
      this.mode, this.kekFiles, this.dir, this.database, this.random := mode, kekFiles, dir, database, random;
      lock, present, cached, generated := Free, true, None, false;
      phase, firstBoot := Present, 0;
    }

    /** The boot is refused: the process ends and its locks go with it. */
    method Refuse()
      modifies this`lock, this`present, this`phase, this`cached
      ensures View() == Gone(old(View()), 1) && Valid() && cached == None
    {
      lock, present, cached := Drop(lock), false, None;
      phase := Exited(1);
    }

    /** recordKeyDirLockMode, then the key lock. */
    method TakeKeyLock()
      requires phase.Present? && lock.Free?
      modifies this`phase, this`lock, database`modeRecorded
      ensures View() == Locked(old(View())) && Valid()
    {
      if mode.Database? {
        database.modeRecorded := true;
      }
      lock := Mine;
      phase := InLock;
    }

    /** A missing wrapped DEK may be generated only over an empty deployment. */
    method CheckGeneration() returns (ok: bool)
      requires phase.InLock?
      modifies this`lock, this`present, this`phase, this`cached
      ensures View() == GenerationChecked(old(View())) && Valid() && ok == !phase.Exited?
    {
      if dir.active.None? && mode.Database? {
        if !database.epoch.Absent? || HasSecretVersion(database.rows) {
          Refuse();
          return false;
        }
      }
      phase := Allowed;
      ok := true;
    }

    /** Some of the required key files without the others refuse the boot. */
    method ReconcileKeySet() returns (ok: bool)
      requires phase.Allowed?
      modifies this`lock, this`present, this`phase, this`cached
      ensures View() == KeySetChecked(old(View())) && Valid() && ok == !phase.Exited?
    {
      if kekFiles && dir.active.Some? != dir.kek {
        Refuse();
        return false;
      }
      phase := Consistent;
      ok := true;
    }

    /** Without a redo marker the pending file is a leftover; with one it is promoted, unless
        this directory has none. */
    method RecoverInterruptedRotation()
      requires phase.Consistent?
      modifies this`phase, dir, database`marker
      ensures View() == AfterCrashRecovery(old(View())) && Valid()
    {
      if !database.marker {
        dir.pending := None;
      } else if dir.pending.Some? {
        dir.active, dir.pending := dir.pending, None;
        database.marker := false;
      }
      phase := Settled;
    }

    /** Derives the KEK, writing its files if missing, and loads the wrapped DEK, generating it first
        when there is none. */
    method InitializeKeys()
      requires phase.Settled?
      modifies this`phase, this`cached, this`generated, this`random, this`firstBoot, dir
      ensures View() == Initialized(old(View())) && Valid()
    {
      if kekFiles {
        dir.kek := true;
      }
      if dir.active.None? {
        dir.pending, random, generated := Some(random), random + 1, true;
        firstBoot := firstBoot + 1;
        dir.active, dir.pending := dir.pending, None;
      }
      cached := dir.active;
      phase := Loaded(dir.active.value);
    }

    /** Seeds an absent epoch after the probe, lifts a fence left on this very DEK, and
        otherwise insists that the epoch is this DEK. */
    method VerifyOrSeedEpoch() returns (ok: bool)
      requires phase.Loaded? && Valid()
      modifies this`lock, this`present, this`phase, this`cached, database`epoch
      ensures View() == EpochChecked(old(View())) && Valid() && ok == !phase.Exited?
    {
      var own := cached.value;
      if database.epoch.Absent? {
        var decrypts := ProbeNewest(database.rows, own);
        if !decrypts {
          Refuse();
          return false;
        }
        database.epoch := Current(own);
      }
      if database.epoch == Rotating(own) {
        database.epoch := Current(own);
      }
      if database.epoch != Current(own) {
        Refuse();
        return false;
      }
      phase := Verified(own);
      ok := true;
    }

    /** Clears the marker of a completed rotation (`cleared` false: the delete failed, which is
        only logged). */
    method ClearCompletedMarker(cleared: bool)
      requires phase.Verified? && Valid()
      modifies this`phase, database`marker
      ensures View() == MarkerCleared(old(View()), cleared) && Valid()
    {
      if cleared && dir.pending.None? && database.epoch == Current(cached.value) {
        database.marker := false;
      }
      phase := Guarded(cached.value);
    }

    /** Releases the key-init lock, after a last look whether it is still held. */
    method ReleaseKeyLock(held: bool) returns (ok: bool)
      requires phase.Guarded? && lock.Mine? && Valid()
      modifies this`lock, this`present, this`phase, this`cached
      ensures View() == Released(old(View()), held) && Valid() && ok == phase.Ready?
    {
      if mode.Database? && !held {
        Refuse();
        return false;
      }
      if mode.Database? {
        lock := Free;
      }
      phase := Ready(cached.value);
      ok := true;
    }

    /** The key lock and the checks before recovery. */
    method Admit() returns (ok: bool)
      requires phase.Present? && lock.Free?
      modifies this`lock, this`present, this`phase, this`cached, database`modeRecorded
      ensures View() == Admitted(old(View())) && Valid() && ok == phase.Consistent? && (!ok ==> phase.Exited?)
    {
      TakeKeyLock();
      ok := CheckGeneration();
      if ok {
        ok := ReconcileKeySet();
      }
    }

    /** Recovery, the DEK and its epoch. */
    method SetUpKeys(cleared: bool) returns (ok: bool)
      requires phase.Consistent? && lock.Mine?
      modifies this, dir, database
      ensures View() == Keyed(old(View()), cleared) && Valid() && ok == phase.Guarded? && (ok ==> lock.Mine?)
    {
      RecoverInterruptedRotation();
      InitializeKeys();
      ok := VerifyOrSeedEpoch();
      if ok {
        ClearCompletedMarker(cleared);
      }
    }

    /** The whole boot under the key lock. */
    method Boot(cleared: bool, held: bool) returns (ok: bool)
      requires phase.Present? && lock.Free?
      modifies this, dir, database
      ensures View() == Outcome(old(View()), cleared, held) && Valid()
      ensures ok <==> CanBoot(old(View())) && (held || mode.Flock?)
      ensures ok ==> cached == Some(Own(old(View()))) && database.epoch == Current(cached.value)
    {
      ghost var v := View();
      ok := Admit();
      if ok {
        ok := SetUpKeys(cleared);
        if ok {
          ok := ReleaseKeyLock(held);
        }
      }
      assert View() == Outcome(v, cleared, held) && ok == phase.Ready?;
      BootOutcome(v, cleared, held);
    }
  }
}
