/** A server process that runs alone: its local steps are a run of the deployment. */
module KeySolo {
  import opened Options
  import opened KeyState
  import opened KeySteps
  import opened KeyDurability

  /** The process takes `sts` from `v`, arriving at `w`; when `prudent`, recovery promotes only
      the epoch's DEK. */
  predicate Leads(v: Local, sts: seq<ServerStep>, w: Local, prudent: bool := true)
    decreases |sts|
  {
    if sts == [] then v == w
    else
      && CanServe(v, sts[0]) && (prudent && sts[0].Recover? ==> !Mispromotes(v.db, v.home))
      && Leads(Serve(v, sts[0]), sts[1..], w, prudent)
  }

  lemma {:induction false} LeadsOn(v: Local, sts: seq<ServerStep>, w: Local, st: ServerStep, prudent: bool := true)
    requires Leads(v, sts, w, prudent) && CanServe(w, st) && (prudent && st.Recover? ==> !Mispromotes(w.db, w.home))
    ensures Leads(v, sts + [st], Serve(w, st), prudent)
    decreases |sts|
  {
    if sts == [] {
      assert (sts + [st])[1..] == [];
    } else {
      assert (sts + [st])[1..] == sts[1..] + [st];
      LeadsOn(Serve(v, sts[0]), sts[1..], w, st, prudent);
    }
  }

  function Labels(p: Pid, sts: seq<ServerStep>): seq<Label> {
    seq(|sts|, i requires 0 <= i < |sts| => Server(p, sts[i]))
  }

  predicate SameWorld(v: Local, w: Local) {
    w.mode == v.mode && w.kekFiles == v.kekFiles && (w.present ==> v.present) && (w.lock.Theirs? <==> v.lock.Theirs?)
  }

  lemma ServeKeepsWorld(v: Local, st: ServerStep)
    requires CanServe(v, st)
    ensures SameWorld(v, Serve(v, st))
  {
  }

  lemma LocalOfPut(s: State, p: Pid, w: Local)
    requires p in s.procs && SameWorld(LocalOf(s, p), w)
    ensures LocalOf(Put(s, p, w), p) == w
  {
  }

  /** Nothing but `p` and its key directory changed. */
  ghost predicate OnlyBy(s: State, p: Pid, t: State) {
    && p in s.procs && t.procs.Keys == s.procs.Keys && t.procs[p].dir == s.procs[p].dir
    && t.mode == s.mode && t.kekFiles == s.kekFiles && t.admin == s.admin && t.adminDir == s.adminDir
    && (forall q :: q in s.procs && q != p ==> t.procs[q] == s.procs[q])
    && (forall q :: q != p ==> (q in t.presence <==> q in s.presence))
    && (forall d :: d != s.procs[p].dir ==> DirOf(t, d) == DirOf(s, d))
  }

  lemma {:induction false} SoloRun(s: State, p: Pid, sts: seq<ServerStep>, w: Local, prudent: bool := true)
    requires p in s.procs && Leads(LocalOf(s, p), sts, w, prudent)
    ensures Run(s, Labels(p, sts)) && (prudent ==> Throughout(s, Labels(p, sts), Prudent))
    ensures var t := End(s, Labels(p, sts)); OnlyBy(s, p, t) && LocalOf(t, p) == w
    decreases |sts|
  {
    if sts != [] {
      var v := LocalOf(s, p);
      var l := Server(p, sts[0]);
      ServeKeepsWorld(v, sts[0]);
      LocalOfPut(s, p, Serve(v, sts[0]));
      assert Labels(p, sts)[0] == l && Labels(p, sts)[1..] == Labels(p, sts[1..]);
      SoloRun(After(s, l), p, sts[1..], w, prudent);
    }
  }

  // ---------------------------------------------------------------------------
  // One uninterrupted boot

  /** The key files crash recovery leaves. */
  function RecoveredHome(db: Db, k: KeyDir): KeyDir {
    if !db.marker then k.(pending := None)
    else if k.pending.None? then k
    else Promote(k)
  }

  /** The directory boots: its key set is whole with a wrapped DEK, what recovery leaves active is
      the DEK of the epoch (or passes the probe when there is none), and nothing is mispromoted. */
  predicate Boots(kekFiles: bool, db: Db, k: KeyDir) {
    && k.active.Some? && Whole(kekFiles, k) && !Mispromotes(db, k)
    && RecoveredHome(db, k).active.Some?
    && var own := RecoveredHome(db, k).active.value;
       if db.epoch.Absent? then Probe(db.rows, own) else db.epoch.dek == own
  }

  /** Where an uninterrupted boot ends: serving the DEK recovery left, under a current epoch,
      with no marker and no pending file. */
  function Booted(v: Local): Local
    requires RecoveredHome(v.db, v.home).active.Some?
  {
    var k := RecoveredHome(v.db, v.home);
    v.(phase := Ready(k.active.value), home := k, lock := if v.mode.Flock? then Mine else Free,
       db := v.db.(epoch := Current(k.active.value), marker := false,
                   modeRecorded := v.db.modeRecorded || v.mode.Database?))
  }

  /** The key lock is taken and the key set is whole. */
  function Checked(v: Local): Local {
    v.(phase := Consistent, lock := Mine, db := v.db.(modeRecorded := v.db.modeRecorded || v.mode.Database?))
  }

  lemma CheckAlone(v: Local) returns (sts: seq<ServerStep>)
    requires v.phase.Present? && v.lock.Free? && (v.home.active.Some? || MayGenerate(v)) && Whole(v.kekFiles, v.home)
    ensures Leads(v, sts, Checked(v))
  {
    var w := v;
    sts := [];
    LeadsOn(v, sts, w, RecordMode);
    w, sts := Serve(w, RecordMode), sts + [RecordMode];
    LeadsOn(v, sts, w, LockKeys);
    w, sts := Serve(w, LockKeys), sts + [LockKeys];
    LeadsOn(v, sts, w, CheckGenerate);
    w, sts := Serve(w, CheckGenerate), sts + [CheckGenerate];
    LeadsOn(v, sts, w, CheckKeySet);
    sts := sts + [CheckKeySet];
  }

  /** Crash recovery is done: a promotion has cleared the marker. */
  function AfterRecovery(v: Local): Local {
    v.(phase := Settled, home := RecoveredHome(v.db, v.home), lock := Mine,
       db := v.db.(marker := v.db.marker && v.home.pending.None?,
                   modeRecorded := v.db.modeRecorded || v.mode.Database?))
  }

  lemma RecoverAlone(v: Local) returns (sts: seq<ServerStep>)
    requires v.phase.Present? && v.lock.Free? && v.home.active.Some? && Whole(v.kekFiles, v.home)
    requires !Mispromotes(v.db, v.home)
    ensures Leads(v, sts, AfterRecovery(v))
  {
    sts := CheckAlone(v);
    var w := Checked(v);
    LeadsOn(v, sts, w, Recover);
    w, sts := Serve(w, Recover), sts + [Recover];
    if w.phase.Promoted? {
      LeadsOn(v, sts, w, ClearPromoted);
      w, sts := Serve(w, ClearPromoted), sts + [ClearPromoted];
    }
  }

  lemma LoadAlone(v: Local) returns (sts: seq<ServerStep>, w: Local)
    requires v.phase.Settled? && v.home.active.Some? && Whole(v.kekFiles, v.home)
    requires if v.db.epoch.Absent? then Probe(v.db.rows, v.home.active.value) else v.db.epoch.dek == v.home.active.value
    ensures Leads(v, sts, w)
    ensures w == v.(phase := Verified(v.home.active.value), db := v.db.(epoch := Current(v.home.active.value)))
  {
    w := v;
    sts := [];
    LeadsOn(v, sts, w, DeriveKek);
    w, sts := Serve(w, DeriveKek), sts + [DeriveKek];
    LeadsOn(v, sts, w, Initialize);
    w, sts := Serve(w, Initialize), sts + [Initialize];
    LeadsOn(v, sts, w, SeedEpoch);
    w, sts := Serve(w, SeedEpoch), sts + [SeedEpoch];
    if w.db.epoch.Rotating? {
      LeadsOn(v, sts, w, VerifyEpoch);
      w, sts := Serve(w, VerifyEpoch), sts + [VerifyEpoch];
    }
    LeadsOn(v, sts, w, VerifyEpoch);
    w, sts := Serve(w, VerifyEpoch), sts + [VerifyEpoch];
  }

  lemma {:induction false} LeadsFurther(v: Local, a: seq<ServerStep>, w: Local, b: seq<ServerStep>, x: Local)
    requires Leads(v, a, w) && Leads(w, b, x)
    ensures Leads(v, a + b, x)
    decreases |a|
  {
    if a == [] {
      assert a + b == b;
    } else {
      assert (a + b)[1..] == a[1..] + b;
      LeadsFurther(Serve(v, a[0]), a[1..], w, b, x);
    }
  }

  lemma BootAlone(v: Local) returns (sts: seq<ServerStep>)
    requires v.phase.Present? && v.lock.Free? && Boots(v.kekFiles, v.db, v.home)
    requires v.db.marker && v.home.pending.None? ==> v.db.epoch.Current?
    ensures Leads(v, sts, Booted(v))
  {
    var first := RecoverAlone(v);
    var second, w := LoadAlone(AfterRecovery(v));
    LeadsFurther(v, first, AfterRecovery(v), second, w);
    sts := first + second;
    LeadsOn(v, sts, w, ClearCompleted(true));
    w, sts := Serve(w, ClearCompleted(true)), sts + [ClearCompleted(true)];
    LeadsOn(v, sts, w, ReleaseKeys);
    w, sts := Serve(w, ReleaseKeys), sts + [ReleaseKeys];
  }

  /** A first boot has generated and loaded its DEK. */
  function Generated(v: Local): Local {
    v.(phase := Loaded(v.next), generated := true, home := KeyDir(Some(v.next), None, v.kekFiles),
       next := v.next + 1, firstBoot := v.firstBoot + 1)
  }

  /** First boot on an empty directory of an empty deployment, up to the cached DEK. */
  lemma GenerateAlone(v: Local) returns (sts: seq<ServerStep>)
    requires v.phase.Present? && v.lock.Free? && v.home == EMPTY_DIR
    requires v.db.epoch.Absent? && !v.db.marker && !HasSecretVersion(v.db.rows)
    ensures Leads(v, sts, Generated(Checked(v)))
  {
    sts := CheckAlone(v);
    sts := GenerateOn(v, sts, Checked(v));
  }

  lemma GenerateOn(o: Local, before: seq<ServerStep>, v: Local) returns (sts: seq<ServerStep>)
    requires Leads(o, before, v) && v.phase.Consistent? && v.home == EMPTY_DIR && !v.db.marker
    ensures Leads(o, sts, Generated(v))
  {
    var w := v;
    sts := before;
    LeadsOn(o, sts, w, Recover);
    w, sts := Serve(w, Recover), sts + [Recover];
    LeadsOn(o, sts, w, DeriveKek);
    w, sts := Serve(w, DeriveKek), sts + [DeriveKek];
    sts := InstallOn(o, sts, w);
  }

  lemma InstallOn(o: Local, before: seq<ServerStep>, v: Local) returns (sts: seq<ServerStep>)
    requires Leads(o, before, v) && v.phase.Derived? && v.home == KeyDir(None, None, v.kekFiles)
    ensures Leads(o, sts, Generated(v))
  {
    var w := v;
    sts := before;
    LeadsOn(o, sts, w, Initialize);
    w, sts := Serve(w, Initialize), sts + [Initialize];
    LeadsOn(o, sts, w, Generate);
    w, sts := Serve(w, Generate), sts + [Generate];
    LeadsOn(o, sts, w, Install);
    w, sts := Serve(w, Install), sts + [Install];
    LeadsOn(o, sts, w, Initialize);
    sts := sts + [Initialize];
  }

  // ---------------------------------------------------------------------------
  // A rotation that runs alone

  predicate RotationLeads(v: AdminLocal, sts: seq<AdminStep>, w: AdminLocal, prudent: bool := true)
    decreases |sts|
  {
    if sts == [] then v == w
    else
      && CanRotate(v, sts[0]) && (prudent ==> PrudentRotation(v, sts[0]))
      && RotationLeads(Rotate(v, sts[0]), sts[1..], w, prudent)
  }

  lemma {:induction false} RotationLeadsOn(v: AdminLocal, sts: seq<AdminStep>, w: AdminLocal, st: AdminStep,
                                           prudent: bool := true)
    requires RotationLeads(v, sts, w, prudent) && CanRotate(w, st) && (prudent ==> PrudentRotation(w, st))
    ensures RotationLeads(v, sts + [st], Rotate(w, st), prudent)
    decreases |sts|
  {
    if sts == [] {
      assert (sts + [st])[1..] == [];
    } else {
      assert (sts + [st])[1..] == sts[1..] + [st];
      RotationLeadsOn(Rotate(v, sts[0]), sts[1..], w, st, prudent);
    }
  }

  function AdminLabels(sts: seq<AdminStep>): seq<Label> {
    seq(|sts|, i requires 0 <= i < |sts| => AdminTakes(sts[i]))
  }

  /** Nothing but the admin and its key directory changed. */
  ghost predicate OnlyByAdmin(s: State, t: State) {
    && t.procs == s.procs && t.presence == s.presence && t.locks == s.locks
    && t.mode == s.mode && t.kekFiles == s.kekFiles && t.adminDir == s.adminDir && t.firstBoot == s.firstBoot
    && (forall d :: d != s.adminDir ==> DirOf(t, d) == DirOf(s, d))
  }

  lemma {:induction false} SoloRotation(s: State, sts: seq<AdminStep>, w: AdminLocal, prudent: bool := true)
    requires RotationLeads(AdminLocalOf(s), sts, w, prudent)
    ensures Run(s, AdminLabels(sts)) && (prudent ==> Throughout(s, AdminLabels(sts), Prudent))
    ensures var t := End(s, AdminLabels(sts)); OnlyByAdmin(s, t) && AdminLocalOf(t) == w
    decreases |sts|
  {
    if sts != [] {
      var l := AdminTakes(sts[0]);
      assert AdminLabels(sts)[0] == l && AdminLabels(sts)[1..] == AdminLabels(sts[1..]);
      SoloRotation(After(s, l), sts[1..], w, prudent);
    }
  }

  /** A rotation that has just opened a directory with `k` and nothing pending, under epoch `k`. */
  predicate Fit(v: AdminLocal, k: Dek) {
    && v.admin.Opened? && Whole(v.kekFiles, v.home) && v.home.active == Some(k) && v.home.pending.None?
    && v.db.epoch == Current(k) && !v.db.marker
  }

  function StagedBy(v: AdminLocal, a: Admin): AdminLocal {
    v.(admin := a, home := v.home.(pending := Some(v.next)), next := v.next + 1)
  }

  /** A rotation of `k` up to its staged pending file. */
  lemma StageAlone(v: AdminLocal, k: Dek) returns (sts: seq<AdminStep>)
    requires Fit(v, k)
    ensures RotationLeads(v, sts, StagedBy(v, PendingWritten(k, v.next)))
  {
    var w := v;
    sts := [];
    RotationLeadsOn(v, sts, w, RotateCheck);
    w, sts := Rotate(w, RotateCheck), sts + [RotateCheck];
    RotationLeadsOn(v, sts, w, RotateRecover);
    w, sts := Rotate(w, RotateRecover), sts + [RotateRecover];
    RotationLeadsOn(v, sts, w, RotateLoad);
    w, sts := Rotate(w, RotateLoad), sts + [RotateLoad];
    RotationLeadsOn(v, sts, w, RotateClearCompleted);
    w, sts := Rotate(w, RotateClearCompleted), sts + [RotateClearCompleted];
    RotationLeadsOn(v, sts, w, RotateStage);
    w, sts := Rotate(w, RotateStage), sts + [RotateStage];
  }

  /** The rotation dies right after writing its pending file. */
  lemma StageAndCrash(v: AdminLocal, k: Dek) returns (sts: seq<AdminStep>)
    requires Fit(v, k)
    ensures RotationLeads(v, sts, StagedBy(v, NoAdmin))
  {
    sts := StageAlone(v, k);
    RotationLeadsOn(v, sts, StagedBy(v, PendingWritten(k, v.next)), RotateCrash);
    sts := sts + [RotateCrash];
  }

  /** The database after the sweep to `k` committed. */
  function SweptTo(db: Db, k: Dek): Db {
    db.(epoch := Current(k), marker := true, rows := Sweep(db.rows, k))
  }

  /** The rotation commits its sweep and dies before the rename. */
  lemma CommitAndCrash(v: AdminLocal, k: Dek) returns (sts: seq<AdminStep>)
    requires Fit(v, k) && AllUnder(v.db.rows, k)
    ensures RotationLeads(v, sts, StagedBy(v, NoAdmin).(db := SweptTo(v.db, v.next)))
  {
    sts := StageAlone(v, k);
    var w := StagedBy(v, PendingWritten(k, v.next));
    RotationLeadsOn(v, sts, w, RotateFence);
    w, sts := Rotate(w, RotateFence), sts + [RotateFence];
    RotationLeadsOn(v, sts, w, RotateCommit);
    w, sts := Rotate(w, RotateCommit), sts + [RotateCommit];
    RotationLeadsOn(v, sts, w, RotateCrash);
    sts := sts + [RotateCrash];
  }

  /** What a rotation that opens directory `d` starts from. */
  function OpenedIn(s: State, d: DirId): AdminLocal {
    AdminLocal(Opened, s.kekFiles, DirOf(s, d), s.db, s.next)
  }

  /** The labels of a rotation in directory `d`. */
  function Rotation(d: DirId, sts: seq<AdminStep>): seq<Label> {
    [AdminStart(d)] + AdminLabels(sts)
  }

  /** A rotation in directory `d`, from start to the state its own steps lead to. */
  lemma RotateIn(s: State, d: DirId, sts: seq<AdminStep>, w: AdminLocal, prudent: bool := true)
    returns (ls: seq<Label>)
    requires s.admin.NoAdmin? && s.presence == {}
    requires RotationLeads(OpenedIn(s, d), sts, w, prudent)
    ensures ls == Rotation(d, sts) && Run(s, ls) && (prudent ==> Throughout(s, ls, Prudent))
    ensures var t := End(s, ls);
            && t.procs == s.procs && t.presence == {} && t.locks == s.locks && t.mode == s.mode
            && t.kekFiles == s.kekFiles && t.adminDir == d
            && t.admin == w.admin && t.db == w.db && t.next == w.next && DirOf(t, d) == w.home
            && (forall e :: e != d ==> DirOf(t, e) == DirOf(s, e))
  {
    var s1 := After(s, AdminStart(d));
    assert AdminLocalOf(s1) == OpenedIn(s, d);
    SoloRotation(s1, sts, w, prudent);
    ls := Rotation(d, sts);
    assert ls[1..] == AdminLabels(sts);
    var t := End(s1, AdminLabels(sts));
    assert AdminLocalOf(t).home == DirOf(t, d);
    assert forall e :: DirOf(s1, e) == DirOf(s, e);
  }

  // ---------------------------------------------------------------------------
  // A server that starts

  /** A process has looked at directory `d` and taken its presence lock. */
  function Arrived(s: State, p: Pid, d: DirId): State {
    s.(procs := s.procs[p := Proc(d, Present, false, false)], presence := s.presence + {p})
  }

  lemma ArriveIn(s: State, p: Pid, d: DirId)
    requires s.admin.NoAdmin? && p !in s.procs && Whole(s.kekFiles, DirOf(s, d))
    ensures var ls := [Start(p, d), Attach(p)];
            Run(s, ls) && Throughout(s, ls, Prudent) && End(s, ls) == Arrived(s, p, d)
  {
    var ls := [Start(p, d), Attach(p)];
    var s1 := After(s, Start(p, d));
    var s2 := After(s1, Attach(p));
    assert ls[1..] == [Attach(p)] && [Attach(p)][1..] == [];
    assert Run(s2, []) && Throughout(s2, [], Prudent) && End(s2, []) == s2;
    assert Run(s1, [Attach(p)]) && Throughout(s1, [Attach(p)], Prudent) && End(s1, [Attach(p)]) == s2;
    assert s2.procs == Arrived(s, p, d).procs;
  }

  /** A server started in directory `d`, up to the state its own steps lead to. */
  lemma ServeIn(s: State, p: Pid, d: DirId, sts: seq<ServerStep>, w: Local) returns (ls: seq<Label>)
    requires s.admin.NoAdmin? && p !in s.procs && Whole(s.kekFiles, DirOf(s, d))
    requires Leads(LocalOf(Arrived(s, p, d), p), sts, w)
    ensures Run(s, ls) && Throughout(s, ls, Prudent)
    ensures var t := End(s, ls);
            && p in t.procs && t.procs[p].dir == d && LocalOf(t, p) == w && t.mode == s.mode && t.admin.NoAdmin?
            && t.kekFiles == s.kekFiles
            && (forall e :: e != d ==> DirOf(t, e) == DirOf(s, e))
            && (forall q :: q in s.procs ==> q in t.procs && t.procs[q] == s.procs[q])
            && t.procs.Keys == s.procs.Keys + {p}
            && (forall q :: q != p ==> (q in t.presence <==> q in s.presence))
  {
    var s1 := Arrived(s, p, d);
    ArriveIn(s, p, d);
    SoloRun(s1, p, sts, w);
    ls := [Start(p, d), Attach(p)] + Labels(p, sts);
    RunAppend(s, [Start(p, d), Attach(p)], Labels(p, sts), Prudent);
    assert forall e :: DirOf(s1, e) == DirOf(s, e);
  }
}
