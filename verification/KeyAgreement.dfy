/** Safety of every run, whatever the interleaving, crashes, lost key-init locks and stray
    pending files: servers that hold the presence lock agree with the epoch, and so with each
    other. */
module KeyAgreement {
  import opened KeyState
  import opened KeySteps

  /** Each process that compared its DEK with the epoch, and still holds the presence lock,
      caches exactly the DEK the epoch records. */
  predicate Agrees(s: State) {
    && (!s.admin.NoAdmin? ==> s.presence == {})
    && (forall p :: p in s.procs && p in s.presence && Confirmed(s.procs[p].phase) ==>
                      s.db.epoch == Current(s.procs[p].phase.dek))
  }

  /** In database mode the mode row is there before any process reaches its key lock. */
  predicate ModeRecordedFirst(s: State) {
    s.mode.Database? ==>
      forall p :: p in s.procs && Live(s.procs[p].phase) && !s.procs[p].phase.Present? ==> s.db.modeRecorded
  }

  /** What a server step may do to the epoch and to its own claim on it. */
  predicate HonestStep(v: Local, w: Local) {
    && (v.db.epoch.Current? ==> w.db.epoch == v.db.epoch)
    && (w.present ==> v.present)
    && (w.present && Confirmed(w.phase) ==>
          w.db.epoch == Current(w.phase.dek) || (Confirmed(v.phase) && v.phase.dek == w.phase.dek))
    && (v.db.modeRecorded ==> w.db.modeRecorded)
    && (v.mode.Database? && Live(w.phase) && !w.phase.Present? ==>
          w.db.modeRecorded || (Live(v.phase) && !v.phase.Present?))
  }

  lemma ServersAreHonest(v: Local, st: ServerStep)
    requires CanServe(v, st)
    ensures HonestStep(v, Serve(v, st))
  {
  }

  lemma PutKeepsAgreement(s: State, p: Pid, w: Local)
    requires p in s.procs && Agrees(s) && ModeRecordedFirst(s) && HonestStep(LocalOf(s, p), w)
    ensures Agrees(Put(s, p, w)) && ModeRecordedFirst(Put(s, p, w))
  {
  }

  lemma RotationKeepsModeRow(v: AdminLocal, st: AdminStep)
    requires CanRotate(v, st)
    ensures !v.admin.NoAdmin? && Rotate(v, st).db.modeRecorded == v.db.modeRecorded
  {
  }

  lemma PutAdminKeepsAgreement(s: State, w: AdminLocal)
    requires Agrees(s) && ModeRecordedFirst(s) && !s.admin.NoAdmin? && w.db.modeRecorded == s.db.modeRecorded
    ensures Agrees(PutAdmin(s, w)) && ModeRecordedFirst(PutAdmin(s, w))
  {
  }

  lemma StepKeepsAgreement(s: State, l: Label)
    requires Enabled(s, l) && Agrees(s) && ModeRecordedFirst(s)
    ensures Agrees(After(s, l)) && ModeRecordedFirst(After(s, l))
  {
    match l {
      case Server(p, st) =>
        ServersAreHonest(LocalOf(s, p), st);
        PutKeepsAgreement(s, p, Serve(LocalOf(s, p), st));
      case AdminTakes(st) =>
        RotationKeepsModeRow(AdminLocalOf(s), st);
        PutAdminKeepsAgreement(s, Rotate(AdminLocalOf(s), st));
      case _ =>
    }
  }

  lemma {:induction false} RunKeepsAgreement(s: State, ls: seq<Label>)
    requires Run(s, ls) && Agrees(s) && ModeRecordedFirst(s)
    ensures Agrees(End(s, ls)) && ModeRecordedFirst(End(s, ls))
    decreases |ls|
  {
    if ls != [] {
      StepKeepsAgreement(s, ls[0]);
      RunKeepsAgreement(After(s, ls[0]), ls[1..]);
    }
  }

  /** No two serving replicas hold different DEKs: in every run from a quiet state, any two
      processes that finished boot and hold the presence lock cache the DEK of the epoch. */
  lemma ServingReplicasAgree(s: State, ls: seq<Label>, p: Pid, q: Pid)
    requires Quiet(s) && Run(s, ls)
    requires var t := End(s, ls);
             && p in t.procs && p in t.presence && t.procs[p].phase.Ready?
             && q in t.procs && q in t.presence && t.procs[q].phase.Ready?
    ensures var t := End(s, ls);
            t.procs[p].phase.dek == t.procs[q].phase.dek && t.db.epoch == Current(t.procs[p].phase.dek)
  {
    RunKeepsAgreement(s, ls);
  }

  /** The mode row is written before any replica initialises its keys. */
  lemma ModeIsRecordedBeforeKeys(s: State, ls: seq<Label>, p: Pid)
    requires Quiet(s) && s.mode.Database? && Run(s, ls)
    requires p in End(s, ls).procs && Critical(End(s, ls).procs[p].phase)
    ensures End(s, ls).db.modeRecorded
  {
    RunKeepsAgreement(s, ls);
    RunKeepsMode(s, ls);
  }

  lemma {:induction false} RunKeepsMode(s: State, ls: seq<Label>)
    requires Run(s, ls)
    ensures End(s, ls).mode == s.mode
    decreases |ls|
  {
    if ls != [] {
      RunKeepsMode(After(s, ls[0]), ls[1..]);
    }
  }

  /** A process that holds its presence lock, and a rotation, can die in every state, and its death
      changes nothing on disk and nothing in the database. */
  lemma DeathLeavesDisk(s: State, p: Pid)
    ensures p in s.procs && Live(s.procs[p].phase) ==>
              && Enabled(s, Server(p, Crash)) && var t := After(s, Server(p, Crash));
              t.db == s.db && t.next == s.next && forall d :: DirOf(t, d) == DirOf(s, d)
    ensures !s.admin.NoAdmin? ==>
              && Enabled(s, AdminTakes(RotateCrash)) && var t := After(s, AdminTakes(RotateCrash));
              t.db == s.db && t.next == s.next && t.admin.NoAdmin? && forall d :: DirOf(t, d) == DirOf(s, d)
  {
  }

  // ---------------------------------------------------------------------------
  // A lost process-wide lock

  /** The run holds that step of `p`. */
  predicate Took(ls: seq<Label>, p: Pid, st: ServerStep) {
    Server(p, st) in ls
  }

  /** Where a process that was in phase `ph` is at the end of a run, told by the steps it took. */
  predicate EndTells(ph: Phase, ls: seq<Label>, p: Pid, last: Phase) {
    match ph
    case Ready(_) =>
      && (last == Exited(0) <==> Took(ls, p, Signal) && Took(ls, p, Exit))
      && (last == Exited(1) <==> Took(ls, p, ObserveLoss) && Took(ls, p, Exit))
      && (last == Exited(2) <==> Took(ls, p, Crash))
      && (last == ph <==> !Took(ls, p, Signal) && !Took(ls, p, ObserveLoss) && !Took(ls, p, Crash))
      && (last.Ready? ==> last == ph)
    case Stopping(lost) =>
      && !Took(ls, p, Signal) && !Took(ls, p, ObserveLoss)
      && (last == Exited(if lost then 1 else 0) <==> Took(ls, p, Exit))
      && (last == Exited(2) <==> Took(ls, p, Crash))
      && (last == ph <==> !Took(ls, p, Exit) && !Took(ls, p, Crash))
      && (last == ph || last == Exited(2) || last == Exited(if lost then 1 else 0))
    case Exited(_) =>
      last == ph && !Took(ls, p, Signal) && !Took(ls, p, ObserveLoss) && !Took(ls, p, Exit) && !Took(ls, p, Crash)
    case _ => true
  }

  /** What one step does to a process that is serving, stopping or gone. */
  predicate EndStep(ph: Phase, l: Label, p: Pid, next: Phase) {
    match ph
    case Ready(_) =>
      if l == Server(p, Signal) then next == Stopping(false)
      else if l == Server(p, ObserveLoss) then next == Stopping(true)
      else if l == Server(p, Crash) then next == Exited(2)
      else next == ph && l != Server(p, Exit)
    case Stopping(lost) =>
      if l == Server(p, Exit) then next == Exited(if lost then 1 else 0)
      else if l == Server(p, Crash) then next == Exited(2)
      else next == ph && l != Server(p, Signal) && l != Server(p, ObserveLoss)
    case Exited(_) => next == ph && (l.Server? ==> l.p != p)
    case _ => true
  }

  lemma StepEnds(s: State, l: Label, p: Pid)
    requires Enabled(s, l) && p in s.procs
    ensures p in After(s, l).procs && EndStep(s.procs[p].phase, l, p, After(s, l).procs[p].phase)
  {
  }

  lemma EndTellsOn(ph: Phase, next: Phase, ls: seq<Label>, p: Pid, last: Phase)
    requires ls != [] && EndStep(ph, ls[0], p, next) && EndTells(next, ls[1..], p, last)
    ensures EndTells(ph, ls, p, last)
  {
    assert ls == [ls[0]] + ls[1..];
    assert forall st :: Took(ls, p, st) <==> ls[0] == Server(p, st) || Took(ls[1..], p, st);
  }

  lemma {:induction false} RunEnds(s: State, ls: seq<Label>, p: Pid)
    requires Run(s, ls) && p in s.procs
    ensures p in End(s, ls).procs && EndTells(s.procs[p].phase, ls, p, End(s, ls).procs[p].phase)
    decreases |ls|
  {
    if ls != [] {
      var t := After(s, ls[0]);
      StepEnds(s, ls[0], p);
      RunEnds(t, ls[1..], p);
      EndTellsOn(s.procs[p].phase, t.procs[p].phase, ls, p, End(t, ls[1..]).procs[p].phase);
    }
  }

  /** A replica that observes the loss of its presence lock or of its single_writer holder lock
      never serves again in that process, and never exits with status 0. */
  lemma LossIsFinal(s: State, p: Pid, ls: seq<Label>)
    requires Enabled(s, Server(p, ObserveLoss)) && Run(After(s, Server(p, ObserveLoss)), ls)
    ensures var t := End(After(s, Server(p, ObserveLoss)), ls);
            && p in t.procs && !t.procs[p].phase.Ready? && t.procs[p].phase != Exited(0)
  {
    StepEnds(s, Server(p, ObserveLoss), p);
    RunEnds(After(s, Server(p, ObserveLoss)), ls, p);
  }

  /** The exit status of a serving replica tells its supervisor what ended it, in every run: 0 exactly
      after a signal, 1 exactly after an observed loss of a lock, and it serves the DEK it
      served exactly until one of these or a crash. */
  lemma ExitStatusTells(s: State, ls: seq<Label>, p: Pid)
    requires Run(s, ls) && p in s.procs && s.procs[p].phase.Ready?
    ensures p in End(s, ls).procs
    ensures var last := End(s, ls).procs[p].phase;
            && (last == Exited(0) <==> Server(p, Signal) in ls && Server(p, Exit) in ls)
            && (last == Exited(1) <==> Server(p, ObserveLoss) in ls && Server(p, Exit) in ls)
            && (last == s.procs[p].phase <==>
                  Server(p, Signal) !in ls && Server(p, ObserveLoss) !in ls && Server(p, Crash) !in ls)
  {
    RunEnds(s, ls, p);
  }

  /** A process that has its presence lock holds it, and has its single_writer lock, until the loss. */
  predicate HoldsOn(s: State, ls: seq<Label>, p: Pid) {
    && (p in s.procs && Live(s.procs[p].phase) && p !in s.presence ==> LosePresence(p) in ls)
    && (p in s.procs && s.procs[p].writerLost ==> LoseWriter(p) in ls)
  }

  lemma ServersHoldOn(v: Local, st: ServerStep)
    requires CanServe(v, st)
    ensures var w := Serve(v, st);
            w.writerLost == v.writerLost && (Live(w.phase) ==> Live(v.phase) && w.present == v.present)
  {
  }

  lemma ServersGoOn(v: Local, st: ServerStep)
    requires CanServe(v, st)
    ensures Live(Serve(v, st).phase) || Serve(v, st).phase.Exited?
  {
  }

  lemma StepHoldsOn(s: State, ls: seq<Label>, l: Label, p: Pid)
    requires Enabled(s, l) && HoldsOn(s, ls, p)
    ensures HoldsOn(After(s, l), ls + [l], p)
  {
    match l {
      case Server(q, st) =>
        ServersHoldOn(LocalOf(s, q), st);
        PutHoldsOn(s, ls, q, Serve(LocalOf(s, q), st), p);
      case _ =>
    }
  }

  lemma PutHoldsOn(s: State, ls: seq<Label>, q: Pid, w: Local, p: Pid)
    requires q in s.procs && HoldsOn(s, ls, p) && w.writerLost == s.procs[q].writerLost
    requires Live(w.phase) ==> Live(s.procs[q].phase) && (w.present <==> q in s.presence)
    ensures HoldsOn(Put(s, q, w), ls, p)
  {
  }

  lemma {:induction false} RunHoldsOn(s: State, before: seq<Label>, ls: seq<Label>, p: Pid)
    requires Run(s, ls) && HoldsOn(s, before, p)
    ensures HoldsOn(End(s, ls), before + ls, p)
    decreases |ls|
  {
    if ls == [] {
      assert before + ls == before;
    } else {
      StepHoldsOn(s, before, ls[0], p);
      RunHoldsOn(After(s, ls[0]), before + [ls[0]], ls[1..], p);
      assert before + [ls[0]] + ls[1..] == before + ls;
    }
  }

  /** No false alarm: a replica can observe a loss only when it did lose one of the two locks. */
  lemma ObservedLossIsReal(s: State, ls: seq<Label>, p: Pid)
    requires Quiet(s) && Run(s, ls) && Enabled(End(s, ls), Server(p, ObserveLoss))
    ensures LosePresence(p) in ls || LoseWriter(p) in ls
  {
    RunHoldsOn(s, [], ls, p);
    assert [] + ls == ls;
  }

  /** The process has lost one of the two locks. */
  predicate HasLost(s: State, p: Pid) {
    p in s.procs && Live(s.procs[p].phase) && (p !in s.presence || s.procs[p].writerLost)
  }

  lemma StepKeepsLost(s: State, l: Label, p: Pid)
    requires Enabled(s, l) && HasLost(s, p)
    ensures p in After(s, l).procs && (HasLost(After(s, l), p) || After(s, l).procs[p].phase.Exited?)
  {
    match l {
      case Server(q, st) =>
        ServersHoldOn(LocalOf(s, q), st);
        ServersGoOn(LocalOf(s, q), st);
        PutKeepsLost(s, q, Serve(LocalOf(s, q), st), p);
      case _ =>
    }
  }

  lemma PutKeepsLost(s: State, q: Pid, w: Local, p: Pid)
    requires q in s.procs && HasLost(s, p) && w.writerLost == s.procs[q].writerLost
    requires w.phase.Exited? || (Live(w.phase) && (w.present <==> q in s.presence))
    ensures var t := Put(s, q, w); p in t.procs && (HasLost(t, p) || t.procs[p].phase.Exited?)
  {
  }

  lemma {:induction false} RunKeepsLost(s: State, ls: seq<Label>, p: Pid)
    requires Run(s, ls) && p in s.procs && (HasLost(s, p) || s.procs[p].phase.Exited?)
    ensures p in End(s, ls).procs && (HasLost(End(s, ls), p) || End(s, ls).procs[p].phase.Exited?)
    decreases |ls|
  {
    if ls != [] {
      if HasLost(s, p) {
        StepKeepsLost(s, ls[0], p);
      } else {
        StepEnds(s, ls[0], p);
      }
      RunKeepsLost(After(s, ls[0]), ls[1..], p);
    }
  }

  /** No loss is missed: a process that loses either lock, booting or serving, can observe the loss
      whenever it serves after that, in every run. */
  lemma LossCanBeObserved(s: State, l: Label, ls: seq<Label>, p: Pid)
    requires p in s.procs && Live(s.procs[p].phase)
    requires (l == LosePresence(p) && p in s.presence) || (l == LoseWriter(p) && !s.procs[p].writerLost)
    requires Run(After(s, l), ls)
    ensures var t := End(After(s, l), ls);
            p in t.procs && (t.procs[p].phase.Ready? ==> Enabled(t, Server(p, ObserveLoss)))
  {
    RunKeepsLost(After(s, l), ls, p);
  }

  // ---------------------------------------------------------------------------
  // The redo marker

  /** A server step that takes the redo marker away. */
  predicate ClearsMarker(v: Local, st: ServerStep) {
    || st.ClearPromoted?
    || (st == ClearCompleted(true) && v.phase.Verified? && v.home.pending.None? && v.db.epoch == Current(v.phase.dek))
  }

  /** A rotation step that does. */
  predicate RotationClearsMarker(v: AdminLocal, st: AdminStep) {
    || st.RotateClearPromoted? || st == RotateFinish(true)
    || (st.RotateClearCompleted? && v.admin.HoldsKey? && v.home.pending.None? && v.db.epoch == Current(v.admin.from))
  }

  lemma KeyStepsClearExactly(v: Local, st: ServerStep)
    requires CanServe(v, st) && KeyStep(st)
    ensures Serve(v, st).db.marker <==> v.db.marker && !st.ClearPromoted?
  {
  }

  lemma OtherStepsClearExactly(v: Local, st: ServerStep)
    requires CanServe(v, st) && !KeyStep(st)
    ensures Serve(v, st).db.marker <==> v.db.marker && !ClearsMarker(v, st)
  {
  }

  lemma RotationClearsExactly(v: AdminLocal, st: AdminStep)
    requires CanRotate(v, st)
    ensures Rotate(v, st).db.marker <==> st.RotateCommit? || (v.db.marker && !RotationClearsMarker(v, st))
  {
  }

  /** Over every step of every state, the redo marker is set by the commit of a rotation alone, and
      taken away exactly after a promotion, at the end of a rotation, or where no pending file is
      left and the epoch is the DEK in use. */
  lemma MarkerExactly(s: State, l: Label)
    requires Enabled(s, l)
    ensures After(s, l).db.marker <==>
              || (l.AdminTakes? && l.rotation.RotateCommit?)
              || (s.db.marker && !(l.Server? && l.p in s.procs && ClearsMarker(LocalOf(s, l.p), l.step))
                              && !(l.AdminTakes? && RotationClearsMarker(AdminLocalOf(s), l.rotation)))
  {
    match l {
      case Server(p, st) =>
        if KeyStep(st) {
          KeyStepsClearExactly(LocalOf(s, p), st);
        } else {
          OtherStepsClearExactly(LocalOf(s, p), st);
        }
      case AdminTakes(st) => RotationClearsExactly(AdminLocalOf(s), st);
      case _ =>
    }
  }

  // ---------------------------------------------------------------------------
  // Conservation

  function ChangedValues(vs: seq<Value>, c: Change): seq<Value> {
    match c
    case Insert(payload, sv) => vs + [Value(payload, true, sv)]
    case Replace(i, payload) => if i < |vs| then vs[i := Value(payload, true, vs[i].secretVersion)] else vs
    case Delete(i) => if i < |vs| then vs[..i] + vs[i + 1..] else vs
  }

  /** What the clients' requests of the run make of the stored values; every other step of the
      run counts for nothing. */
  function Requested(vs: seq<Value>, ls: seq<Label>): seq<Value>
    decreases |ls|
  {
    if ls == [] then vs
    else
      var l := ls[0];
      Requested(if l.Server? && l.step.Write? then ChangedValues(vs, l.step.change) else vs, ls[1..])
  }

  lemma ChangeIsOfValues(rows: seq<Row>, c: Change, k: Dek)
    requires Applies(c, |rows|)
    ensures Values(Changed(rows, c, k)) == ChangedValues(Values(rows), c)
  {
  }

  lemma RotationSweeps(v: AdminLocal, st: AdminStep)
    requires CanRotate(v, st)
    ensures Values(Rotate(v, st).db.rows) == Values(v.db.rows)
  {
  }

  lemma ServersKeepValues(v: Local, st: ServerStep)
    requires CanServe(v, st)
    ensures var vs := Values(v.db.rows);
            Values(Serve(v, st).db.rows) == if st.Write? then ChangedValues(vs, st.change) else vs
  {
    if st.Write? {
      ChangeIsOfValues(v.db.rows, st.change, v.phase.dek);
    }
  }

  lemma StepKeepsValues(s: State, l: Label)
    requires Enabled(s, l)
    ensures var vs := Values(s.db.rows);
            Values(After(s, l).db.rows) == if l.Server? && l.step.Write? then ChangedValues(vs, l.step.change) else vs
  {
    match l {
      case Server(p, st) => ServersKeepValues(LocalOf(s, p), st);
      case AdminTakes(st) => RotationSweeps(AdminLocalOf(s), st);
      case _ =>
    }
  }

  /** Over every run the stored values are exactly what the clients' insertions, replacements
      and deletions make of them: no boot, recovery, rotation, crash or lost lock changes,
      reorders, drops or repeats one, and none encrypts a value that was stored in the clear. */
  lemma {:induction false} ValuesAreAsRequested(s: State, ls: seq<Label>)
    requires Run(s, ls)
    ensures Values(End(s, ls).db.rows) == Requested(Values(s.db.rows), ls)
    decreases |ls|
  {
    if ls != [] {
      StepKeepsValues(s, ls[0]);
      ValuesAreAsRequested(After(s, ls[0]), ls[1..]);
    }
  }
}
