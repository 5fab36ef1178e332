/** Why the other conditions on runs are there: what happens without each of them. */
module KeyLimits {
  import opened Options
  import opened KeyState
  import opened KeySteps
  import opened KeyGeneration
  import opened KeyDurability
  import opened KeyProbe
  import opened KeySets
  import opened KeySolo
  import opened KeyRestart

  // ---------------------------------------------------------------------------
  // The epoch must be seeded before the key-init lock is released

  /** Nothing in the database, and no held lock, keeps a new replica from generating. */
  predicate Unguarded(s: State) {
    && s.mode.Database? && KeyInitLock !in s.locks && s.admin.NoAdmin?
    && s.db.epoch.Absent? && !s.db.marker && !HasSecretVersion(s.db.rows)
  }

  /** A replica started on its own empty directory generates another DEK, beside whatever is
      there. */
  lemma GeneratesAgain(s: State, q: Pid, e: DirId) returns (ls: seq<Label>)
    requires Unguarded(s) && q !in s.procs && DirOf(s, e) == EMPTY_DIR
    ensures Run(s, ls) && Throughout(s, ls, Prudent)
    ensures var t := End(s, ls);
            && t.firstBoot == s.firstBoot + 1 && q in t.procs && t.procs[q].phase == Loaded(s.next)
            && DirOf(t, e).active == Some(s.next)
            && (forall p :: p in s.procs ==> p in t.procs && t.procs[p] == s.procs[p])
            && (forall d :: d != e ==> DirOf(t, d) == DirOf(s, d))
  {
    var v := LocalOf(Arrived(s, q, e), q);
    var sts := GenerateAlone(v);
    ls := ServeIn(s, q, e, sts, Generated(Checked(v)));
    assert LocalOf(End(s, ls), q).home == DirOf(End(s, ls), e);
  }

  /** The order the boot keeps, broken: the key-init lock is released with the epoch unseeded. */
  function ReleasedEarly(s: State, p: Pid): State {
    s.(locks := Unlock(s.locks, p))
  }

  /** A replica that has generated and cached its DEK, on a deployment that was empty. */
  ghost predicate JustGenerated(s: State, p: Pid) {
    && Exclusive(s) && Known(s) && s.mode.Database? && s.admin.NoAdmin?
    && p in s.procs && s.procs[p].generated && s.procs[p].phase.Loaded?
    && HomeOf(s, p).active == Some(s.procs[p].phase.dek)
    && s.db.epoch.Absent? && !s.db.marker && !HasSecretVersion(s.db.rows)
  }

  /** One process caches `own`, another a different DEK. */
  predicate TwoCached(s: State, p: Pid, own: Dek, q: Pid) {
    && p in s.procs && s.procs[p].phase == Loaded(own)
    && q in s.procs && s.procs[q].phase.Loaded? && s.procs[q].phase.dek != own
  }

  /** One directory holds `own`, another a different DEK. */
  predicate TwoKeyFiles(s: State, d: DirId, own: Dek, e: DirId) {
    DirOf(s, d).active == Some(own) && DirOf(s, e).active.Some? && DirOf(s, e).active.value != own
  }

  /** Seeding after the release would let a second replica generate while the first still caches
      its own, different DEK. */
  lemma SeedingMustPrecedeRelease(s: State, p: Pid, q: Pid, e: DirId) returns (ls: seq<Label>)
    requires JustGenerated(s, p) && q !in s.procs && DirOf(s, e) == EMPTY_DIR && e != s.procs[p].dir
    ensures Run(ReleasedEarly(s, p), ls) && End(ReleasedEarly(s, p), ls).firstBoot == s.firstBoot + 1
    ensures TwoCached(End(ReleasedEarly(s, p), ls), p, s.procs[p].phase.dek, q)
  {
    assert HoldsKeyLock(s, p);
    assert KnownPhase(s.procs[p].phase, s.next);
    ls := GeneratesAgain(ReleasedEarly(s, p), q, e);
  }

  /** And, as the order of the code stands, a death between generating and seeding still leaves two
      key files with different DEKs. */
  lemma DeathBeforeSeedingLeavesTwo(s: State, p: Pid, q: Pid, e: DirId) returns (ls: seq<Label>)
    requires JustGenerated(s, p) && q !in s.procs && DirOf(s, e) == EMPTY_DIR && e != s.procs[p].dir
    ensures Run(After(s, Server(p, Crash)), ls)
    ensures End(After(s, Server(p, Crash)), ls).firstBoot == s.firstBoot + 1
    ensures TwoKeyFiles(End(After(s, Server(p, Crash)), ls), s.procs[p].dir, s.procs[p].phase.dek, e)
  {
    assert HoldsKeyLock(s, p);
    assert KnownPhase(s.procs[p].phase, s.next);
    ls := GeneratesAgain(After(s, Server(p, Crash)), q, e);
  }

  // ---------------------------------------------------------------------------
  // A first boot that dies before its DEK is in place

  /** A first boot that dies once it has the KEK's files leaves a key set that is refused from then
      on, by servers and rotations alike, until a whole one is copied in. */
  lemma FirstBootDeathSticks(s: State, d: DirId, p: Pid) returns (ls: seq<Label>)
    requires Quiet(s) && s.kekFiles && DirOf(s, d) == EMPTY_DIR && !s.db.marker
    requires s.mode.Database? ==> s.db.epoch.Absent? && !HasSecretVersion(s.db.rows)
    ensures Run(s, ls) && Throughout(s, ls, Prudent) && Partial(End(s, ls), d)
    ensures forall more :: Run(End(s, ls), more) && NoCopyInto(more, d) ==>
              var t := End(End(s, ls), more);
              forall q :: q in t.procs && t.procs[q].dir == d ==> !CachesDek(t.procs[q].phase)
  {
    var v := LocalOf(Arrived(s, p, d), p);
    var sts := CheckAlone(v);
    sts := DieOn(v, sts, Checked(v));
    ls := ServeIn(s, p, d, sts, DiedDerived(Checked(v)));
    var t := End(s, ls);
    assert LocalOf(t, p).home == DirOf(t, d);
    forall more | Run(t, more) && NoCopyInto(more, d)
      ensures var u := End(t, more); forall q :: q in u.procs && u.procs[q].dir == d ==> !CachesDek(u.procs[q].phase)
    {
      PartialSetIsStuck(t, more, d);
    }
  }

  function DiedDerived(v: Local): Local {
    v.(phase := Exited(2), present := false, lock := Free, home := v.home.(kek := v.home.kek || v.kekFiles))
  }

  lemma DieOn(o: Local, before: seq<ServerStep>, v: Local) returns (sts: seq<ServerStep>)
    requires Leads(o, before, v) && v.phase.Consistent? && v.lock.Mine? && v.home == EMPTY_DIR && !v.db.marker
    ensures Leads(o, sts, DiedDerived(v))
  {
    var w := v;
    sts := before;
    LeadsOn(o, sts, w, Recover);
    w, sts := Serve(w, Recover), sts + [Recover];
    LeadsOn(o, sts, w, DeriveKek);
    w, sts := Serve(w, DeriveKek), sts + [DeriveKek];
    LeadsOn(o, sts, w, Crash);
    sts := sts + [Crash];
  }

  // ---------------------------------------------------------------------------
  // A rotation that fences a database with no epoch

  /** Some prudent run ends with a server that holds the presence lock and serves a DEK some
      encrypted row is not under. */
  ghost predicate CanMislead(s: State) {
    exists ls, p :: Run(s, ls) && Throughout(s, ls, Prudent) && Misled(End(s, ls), p)
  }

  predicate Misled(s: State, p: Pid) {
    p in s.procs && p in s.presence && s.procs[p].phase.Ready? && !AllUnder(s.db.rows, s.procs[p].phase.dek)
  }

  /** A rotation on a database with no recorded epoch fences it for its own DEK without any
      probe. That step lets a server come to serve the wrong DEK if and only if the rows are
      not all under the DEK of the directory the rotation runs in. */
  lemma UnseededFenceExactlyMisleads(s: State, p: Pid)
    requires Safe(s) && Tidy(s) && KekFirst(s) && s.locks == map[] && p !in s.procs
    requires s.admin.PendingWritten? && s.db.epoch.Absent?
    ensures CanMislead(After(s, AdminTakes(RotateFence))) <==> !AllUnder(s.db.rows, s.admin.from)
  {
    var l := AdminTakes(RotateFence);
    var t := After(s, l);
    if AllUnder(s.db.rows, s.admin.from) {
      StepIsSafe(s, l);
      forall ls, q | Run(t, ls) && Throughout(t, ls, Prudent) ensures !Misled(End(t, ls), q) {
        RunIsSafe(t, ls);
      }
    } else {
      MisleadAfterCrash(s, p);
    }
  }

  lemma MisleadAfterCrash(s: State, p: Pid)
    requires Safe(s) && Tidy(s) && KekFirst(s) && s.locks == map[] && p !in s.procs
    requires s.admin.PendingWritten? && s.db.epoch.Absent? && !AllUnder(s.db.rows, s.admin.from)
    ensures CanMislead(After(s, AdminTakes(RotateFence)))
  {
    var t := After(s, AdminTakes(RotateFence));
    var l := AdminTakes(RotateCrash);
    var u := After(t, l);
    assert DirOf(u, s.adminDir) == DirOf(s, s.adminDir);
    var more := BootFrom(u, s.adminDir, p);
    var ls := [l] + more;
    assert ls[1..] == more;
    assert Run(t, ls) && Throughout(t, ls, Prudent) && End(t, ls) == End(u, more);
    assert Misled(End(t, ls), p);
  }

  /** A rotation on a database with no epoch, up to the state before its fence. */
  lemma StageUnseeded(v: AdminLocal, x: Dek) returns (sts: seq<AdminStep>)
    requires v.admin.Opened? && Whole(v.kekFiles, v.home) && v.home.active == Some(x)
    requires v.db.epoch.Absent? && !v.db.marker
    ensures RotationLeads(v, sts, StagedBy(v, PendingWritten(x, v.next)))
  {
    var w := v;
    sts := [];
    RotationLeadsOn(v, sts, w, RotateCheck);
    w, sts := Rotate(w, RotateCheck), sts + [RotateCheck];
    RotationLeadsOn(v, sts, w, RotateRecover);
    w, sts := Rotate(w, RotateRecover), sts + [RotateRecover];
    RotationLeadsOn(v, sts, w, RotateLoad);
    w, sts := Rotate(w, RotateLoad), sts + [RotateLoad];
    RotationLeadsOn(v, sts, w, RotateClearCompleted);
    w, sts := Rotate(w, RotateClearCompleted), sts + [RotateClearCompleted];
    RotationLeadsOn(v, sts, w, RotateStage);
    w, sts := Rotate(w, RotateStage), sts + [RotateStage];
  }

  /** And it is reached: from every sound deployment at rest that predates the epoch, a rotation
      in any directory with a DEK takes prudent steps up to its fence, and from there misleads
      exactly when that DEK is not the one the rows are under. */
  lemma StaleRotationMisleads(s: State, d: DirId, x: Dek, p: Pid) returns (ls: seq<Label>)
    requires SoundStart(s) && KekFirst(s) && s.db.epoch.Absent? && DirOf(s, d).active == Some(x)
    ensures Run(s, ls) && Throughout(s, ls, Prudent)
    ensures var t := End(s, ls);
            && Enabled(t, AdminTakes(RotateFence)) && t.admin.from == x && t.adminDir == d && t.db == s.db
            && (CanMislead(After(t, AdminTakes(RotateFence))) <==> !AllUnder(s.db.rows, x))
  {
    var v := OpenedIn(s, d);
    var sts := StageUnseeded(v, x);
    ls := RotateIn(s, d, sts, StagedBy(v, PendingWritten(x, v.next)));
    KekPrecedesDek(s, ls);
    RunIsTidy(s, ls);
    UnseededFenceExactlyMisleads(End(s, ls), p);
  }

  // ---------------------------------------------------------------------------
  // The probe looks at the newest 50 secret versions only

  /** The probe window reaches an encrypted row exactly when some encrypted secret version has fewer
      than 50 secret versions after it. */
  lemma ProbeTellsExactly(rows: seq<Row>)
    ensures ProbeTells(rows) <==> (AnyEncrypted(rows) ==> exists i: nat :: Decides(rows, i, 50))
  {
    NewestDecides(rows, PROBE_LIMIT);
  }

  /** Only the DEK of the rows passes the probe, if and only if the probe window reaches an
      encrypted row or there is none. */
  lemma ProbeExact(rows: seq<Row>, k: Dek)
    requires AllUnder(rows, k)
    ensures (forall own: Dek :: Probe(rows, own) ==> AllUnder(rows, own)) <==> ProbeTells(rows)
    ensures ProbeTells(rows) <==> (AnyEncrypted(rows) ==> exists i: nat :: Decides(rows, i, 50))
  {
    ProbeTellsExactly(rows);
    if ProbeTells(rows) {
      if AnyEncrypted(rows) {
        ProbeIsRight(rows, k);
      }
    } else {
      assert Probe(rows, k + 1) && !AllUnder(rows, k + 1);
    }
  }

  /** A deployment at rest that predates the epoch, with its rows under `k`, the key file of `k`
      in one directory and that of another DEK `x` in directory `d`. */
  ghost predicate BesideStale(s: State, k: Dek, d: DirId, x: Dek) {
    && Quiet(s) && Known(s) && s.db.epoch.Absent? && !s.db.marker
    && AnyEncrypted(s.db.rows) && AllUnder(s.db.rows, k) && HasActive(s, k)
    && DirOf(s, d).active == Some(x) && Whole(s.kekFiles, DirOf(s, d)) && x != k
  }

  /** From there a replica on the stale directory can claim the epoch and serve, through prudent
      steps, if and only if the probe window does not reach an encrypted row. */
  lemma StaleReplicaClaimsExactly(s: State, k: Dek, d: DirId, x: Dek, p: Pid)
    requires BesideStale(s, k, d, x)
    ensures CanMislead(s) <==> !ProbeTells(s.db.rows)
  {
    if ProbeTells(s.db.rows) {
      assert SoundStart(s);
      forall ls, q | Run(s, ls) && Throughout(s, ls, Prudent) ensures !Misled(End(s, ls), q) {
        RunIsSafe(s, ls);
      }
    } else {
      var ls := BootFrom(s, d, p);
      assert Misled(End(s, ls), p);
    }
  }

  /** One encrypted secret version, then `n` written while encryption was disabled. */
  function LaterPlain(k: Dek, n: nat): seq<Row> {
    [Row(0, Some(k), true)] + seq(n, _ => Row(0, None, true))
  }

  lemma {:induction false} AllAreVersions(rows: seq<Row>)
    requires forall i :: 0 <= i < |rows| ==> rows[i].secretVersion
    ensures SecretVersions(rows) == rows
  {
    if rows != [] {
      AllAreVersions(rows[..|rows| - 1]);
    }
  }

  lemma {:induction false} NewestBehindPlain(k: Dek, n: nat, limit: nat)
    ensures NewestEncrypted(LaterPlain(k, n), limit) == if n < limit then Some(k) else None
  {
    if n > 0 && limit > 0 {
      assert LaterPlain(k, n)[..n] == LaterPlain(k, n - 1);
      NewestBehindPlain(k, n - 1, limit - 1);
    }
  }

  /** Such rows exist: the window stops telling at 50 later rows without encryption. */
  lemma ProbeTellsUpToLimit(k: Dek, n: nat)
    ensures ProbeTells(LaterPlain(k, n)) <==> n < 50
  {
    AllAreVersions(LaterPlain(k, n));
    NewestBehindPlain(k, n, PROBE_LIMIT);
    assert LaterPlain(k, n)[0].under.Some?;
  }
}
