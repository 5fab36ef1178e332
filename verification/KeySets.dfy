/** The other required key files: they are on disk before any DEK is, and a boot that finds only
    some of the set is refused before it recovers anything. */
module KeySets {
  import opened KeyState
  import opened KeySteps
  import opened KeyAgreement
  import opened KeyGeneration

  predicate HoldsDek(k: KeyDir) {
    k.active.Some? || k.pending.Some?
  }

  /** The process has derived the KEK and not loaded the DEK yet. */
  predicate HasKek(ph: Phase) {
    ph.Derived? || ph.Missing? || ph.Staged?
  }

  /** The rotation has loaded the DEK of its directory. */
  predicate AdminHasKek(a: Admin) {
    a.HoldsKey? || a.MarkerChecked? || a.PendingWritten? || a.Fenced? || a.Committed? || a.Renamed?
  }

  /** A DEK is wrapped by a KEK, so what the KEK comes from is on disk wherever a DEK is. */
  ghost predicate KekFirst(s: State) {
    s.kekFiles ==>
      && (forall d :: HoldsDek(DirOf(s, d)) ==> DirOf(s, d).kek)
      && (forall p :: p in s.procs && HasKek(s.procs[p].phase) ==> HomeOf(s, p).kek)
      && (AdminHasKek(s.admin) ==> DirOf(s, s.adminDir).kek)
  }

  // ---------------------------------------------------------------------------
  // In every run

  predicate KekStep(v: Local, w: Local) {
    && (v.home.kek ==> w.home.kek)
    && (v.kekFiles && HasKek(w.phase) ==> w.home.kek || HasKek(v.phase))
    && (HoldsDek(w.home) ==> HoldsDek(v.home) || HasKek(v.phase))
  }

  lemma ServersDeriveFirst(v: Local, st: ServerStep)
    requires CanServe(v, st)
    ensures KekStep(v, Serve(v, st))
  {
  }

  lemma RotationDerivesFirst(v: AdminLocal, st: AdminStep)
    requires CanRotate(v, st)
    ensures var w := Rotate(v, st);
            && (v.home.kek ==> w.home.kek)
            && (AdminHasKek(w.admin) ==> AdminHasKek(v.admin) || HoldsDek(v.home))
            && (HoldsDek(w.home) ==> HoldsDek(v.home) || AdminHasKek(v.admin))
  {
  }

  lemma PutKeepsKekFirst(s: State, p: Pid, w: Local)
    requires p in s.procs && KekFirst(s) && KekStep(LocalOf(s, p), w)
    ensures KekFirst(Put(s, p, w))
  {
    var t := Put(s, p, w);
    assert forall d :: DirOf(t, d) == if d == s.procs[p].dir then w.home else DirOf(s, d);
  }

  lemma PutAdminKeepsKekFirst(s: State, w: AdminLocal)
    requires KekFirst(s)
    requires var v := AdminLocalOf(s);
             && (v.home.kek ==> w.home.kek)
             && (AdminHasKek(w.admin) ==> AdminHasKek(v.admin) || HoldsDek(v.home))
             && (HoldsDek(w.home) ==> HoldsDek(v.home) || AdminHasKek(v.admin))
    ensures KekFirst(PutAdmin(s, w))
  {
    var t := PutAdmin(s, w);
    assert forall d :: DirOf(t, d) == if d == s.adminDir then w.home else DirOf(s, d);
  }

  lemma StepKeepsKekFirst(s: State, l: Label)
    requires Enabled(s, l) && KekFirst(s)
    ensures KekFirst(After(s, l))
  {
    var t := After(s, l);
    match l {
      case Server(p, st) =>
        ServersDeriveFirst(LocalOf(s, p), st);
        PutKeepsKekFirst(s, p, Serve(LocalOf(s, p), st));
      case AdminTakes(st) =>
        RotationDerivesFirst(AdminLocalOf(s), st);
        PutAdminKeepsKekFirst(s, Rotate(AdminLocalOf(s), st));
      case CopyKeys(src, dst) => assert forall d :: d != dst ==> DirOf(t, d) == DirOf(s, d);
      case _ => assert forall d :: DirOf(t, d) == DirOf(s, d);
    }
  }

  /** Over every run, lost locks included: no directory comes to hold a DEK, active or pending,
      without the files of its KEK. */
  lemma {:induction false} KekPrecedesDek(s: State, ls: seq<Label>)
    requires KekFirst(s) && Run(s, ls)
    ensures KekFirst(End(s, ls))
    decreases |ls|
  {
    if ls != [] {
      StepKeepsKekFirst(s, ls[0]);
      KekPrecedesDek(After(s, ls[0]), ls[1..]);
    }
  }

  // ---------------------------------------------------------------------------
  // While the locks are kept

  /** A set found whole stays whole until recovery has run. */
  predicate Inspected(s: State) {
    forall p :: p in s.procs && s.procs[p].phase.Consistent? ==> Whole(s.kekFiles, HomeOf(s, p))
  }

  lemma ServersInspect(v: Local, st: ServerStep)
    requires CanServe(v, st)
    ensures Serve(v, st).phase.Consistent? ==> Whole(v.kekFiles, Serve(v, st).home)
  {
  }

  lemma PutKeepsInspected(s: State, p: Pid, w: Local)
    requires p in s.procs && Exclusive(s) && Inspected(s) && OrderlyStep(LocalOf(s, p), w)
    requires w.phase.Consistent? ==> Whole(s.kekFiles, w.home)
    ensures Inspected(Put(s, p, w))
  {
    var t := Put(s, p, w);
    forall q | q in t.procs && t.procs[q].phase.Consistent? ensures Whole(t.kekFiles, HomeOf(t, q)) {
      if q != p {
        assert HoldsKeyLock(s, q);
        assert Critical(s.procs[p].phase) ==> HoldsKeyLock(s, p);
      }
    }
  }

  lemma StepKeepsInspected(s: State, l: Label)
    requires Enabled(s, l) && Exclusive(s) && Inspected(s) && KeepsLocks(s, l)
    ensures Inspected(After(s, l))
  {
    match l {
      case Server(p, st) =>
        ServersInspect(LocalOf(s, p), st);
        ServersAreOrderly(LocalOf(s, p), st);
        PutKeepsInspected(s, p, Serve(LocalOf(s, p), st));
      case AdminTakes(st) => RotationKeepsModeRow(AdminLocalOf(s), st);
      case _ =>
    }
  }

  /** Recovery then never meets a pending file that has no DEK beside it. */
  lemma NoLonePending(s: State, p: Pid)
    requires KekFirst(s) && Inspected(s) && s.kekFiles && Enabled(s, Server(p, Recover))
    ensures HomeOf(s, p).pending.Some? ==> HomeOf(s, p).active.Some?
  {
    assert HoldsDek(HomeOf(s, p)) ==> HomeOf(s, p).kek;
  }

  // ---------------------------------------------------------------------------
  // A partial set

  /** The process is not past the consistency check. */
  predicate Unchecked(ph: Phase) {
    ph.Looked? || ph.Present? || ph.Recorded? || ph.InLock? || ph.Allowed? || ph.Exited?
  }

  /** Directory `d` holds the KEK's files and no DEK, and nobody works on it. */
  predicate Partial(s: State, d: DirId) {
    && s.kekFiles && DirOf(s, d).kek && DirOf(s, d).active.None?
    && (s.adminDir == d ==> s.admin.NoAdmin? || s.admin.Opened?)
    && (forall p :: p in s.procs && s.procs[p].dir == d ==> Unchecked(s.procs[p].phase))
  }

  lemma ServerIsRefused(v: Local, st: ServerStep)
    requires CanServe(v, st) && Unchecked(v.phase) && !Whole(v.kekFiles, v.home)
    ensures Unchecked(Serve(v, st).phase) && Serve(v, st).home == v.home
  {
  }

  lemma RotationIsRefused(v: AdminLocal, st: AdminStep)
    requires CanRotate(v, st) && v.admin.Opened? && !Whole(v.kekFiles, v.home)
    ensures Rotate(v, st).admin.NoAdmin? && Rotate(v, st).home == v.home
  {
  }

  lemma StepKeepsPartial(s: State, l: Label, d: DirId)
    requires Enabled(s, l) && Partial(s, d) && (l.CopyKeys? ==> l.dst != d)
    ensures Partial(After(s, l), d) && DirOf(After(s, l), d) == DirOf(s, d)
  {
    match l {
      case Server(p, st) =>
        if s.procs[p].dir == d { ServerIsRefused(LocalOf(s, p), st); }
      case AdminTakes(st) =>
        if s.adminDir == d { RotationIsRefused(AdminLocalOf(s), st); }
      case _ =>
    }
  }

  /** Over every run, until a key set is copied in: such a directory stays as it is, no server starts
      on it, and none that had started and no rotation gets past its check. */
  lemma {:induction false} PartialSetIsStuck(s: State, ls: seq<Label>, d: DirId)
    requires Run(s, ls) && Partial(s, d) && NoCopyInto(ls, d)
    ensures var t := End(s, ls);
            && DirOf(t, d) == DirOf(s, d)
            && (forall p :: p in t.procs && t.procs[p].dir == d ==> !CachesDek(t.procs[p].phase))
            && (forall p :: !Enabled(t, Start(p, d)))
    decreases |ls|
  {
    if ls != [] {
      StepKeepsPartial(s, ls[0], d);
      PartialSetIsStuck(After(s, ls[0]), ls[1..], d);
    }
  }
}
