/** The running server's answers: each "the grace is running" rests on facts read at most
    RECHECK ago, and an ended grace stays ended. */
module GraceRuntime {
  import opened Options
  import opened Grace

  /** One question to the runtime, with the rows and facts of that moment; `rechecks` when an
      enrolment has just dropped the cached answer. */
  datatype Call = Call(meta: Meta, x: Facts, rechecks: bool)

  function Asked(r: Runtime, c: Call): Runtime {
    if c.rechecks then r.(checkedAt := None) else r
  }

  function Afterwards(r: Runtime, cs: seq<Call>): Runtime {
    if cs == [] then r
    else
      var n := |cs| - 1;
      Evaluated(cs[n].meta, Asked(Afterwards(r, cs[..n]), cs[n]), cs[n].x).1
  }

  predicate Answer(r: Runtime, cs: seq<Call>)
    requires cs != []
  {
    var n := |cs| - 1;
    Evaluated(cs[n].meta, Asked(Afterwards(r, cs[..n]), cs[n]), cs[n].x).2
  }

  /** The facts of this call let the grace run: read without a fault, before the deadline, no
      marker, no administrator with a second factor. */
  predicate Permits(r: Runtime, c: Call) {
    && GraceNow(r, c.x) < r.window.deadline && Enforced(RequireMfa) !in c.meta && !c.x.enrolled
    && !c.x.markerFails && !c.x.enrolledFails
  }

  /** Some call of the sequence, at that elapsed time, permitted it. */
  ghost predicate PermittedAt(r: Runtime, cs: seq<Call>, elapsed: int) {
    exists j :: 0 <= j < |cs| && Permits(r, cs[j]) && cs[j].x.elapsed == elapsed
  }

  lemma {:induction false} ActiveWasPermitted(w: Window, wall: int, cs: seq<Call>)
    ensures var r := Installed(w, wall);
            var q := Afterwards(r, cs);
            && q.window == r.window && q.base == r.base
            && (q.active && q.checkedAt.Some? ==> PermittedAt(r, cs, q.checkedAt.value))
  {
    if cs != [] {
      var r := Installed(w, wall);
      var n := |cs| - 1;
      ActiveWasPermitted(w, wall, cs[..n]);
      var before := Asked(Afterwards(r, cs[..n]), cs[n]);
      if !before.ended && Cached(before, cs[n].x) && before.active {
        var j :| 0 <= j < n && Permits(r, cs[..n][j]) && cs[..n][j].x.elapsed == before.checkedAt.value;
        assert cs[j] == cs[..n][j];
      } else if Afterwards(r, cs).active && !before.ended {
        assert Permits(r, cs[n]);
      } else if before.ended && before.active && before.checkedAt.Some? {
        var j :| 0 <= j < n && Permits(r, cs[..n][j]) && cs[..n][j].x.elapsed == before.checkedAt.value;
        assert cs[j] == cs[..n][j];
      }
    }
  }

  /** Whenever the runtime answers that the grace is running, some call less than RECHECK
      earlier (or this one) read facts that permit it. */
  lemma RunningIsRecent(w: Window, wall: int, cs: seq<Call>)
    requires cs != [] && Answer(Installed(w, wall), cs)
    ensures exists j ::
              && 0 <= j < |cs| && Permits(Installed(w, wall), cs[j])
              && cs[|cs| - 1].x.elapsed - cs[j].x.elapsed < 15 * SECOND
  {
    var r := Installed(w, wall);
    var n := |cs| - 1;
    ActiveWasPermitted(w, wall, cs[..n]);
    var before := Asked(Afterwards(r, cs[..n]), cs[n]);
    if Cached(before, cs[n].x) {
      var j :| 0 <= j < n && Permits(r, cs[..n][j]) && cs[..n][j].x.elapsed == before.checkedAt.value;
      assert cs[j] == cs[..n][j];
    } else {
      assert Permits(r, cs[n]);
    }
  }

  /** And the other way: after any sequence of calls, an evaluation that finds the grace neither ended
      nor cached says "running" exactly when its own facts permit it, ends the grace exactly at
      the deadline, at a marker it reads or at an administrator with a second factor, and writes
      the clock exactly when it runs, a minute or more after the last write, and can. */
  lemma AnswerExactly(w: Window, wall: int, cs: seq<Call>, c: Call)
    requires var q := Asked(Afterwards(Installed(w, wall), cs), c); !q.ended && !Cached(q, c.x)
    ensures var r := Installed(w, wall);
            var q := Asked(Afterwards(r, cs), c);
            var now := GraceNow(r, c.x);
            var (m, after, running) := Evaluated(c.meta, q, c.x);
            && (running <==> Permits(r, c)) && after.active == running && after.checkedAt == Some(c.x.elapsed)
            && (after.ended <==> || now >= r.window.deadline || (!c.x.markerFails && Enforced(RequireMfa) in c.meta)
                                 || (!c.x.markerFails && !c.x.enrolledFails && c.x.enrolled))
            && (!after.ended ==> m == if running && now >= q.persisted + MINUTE && !c.x.clockFails
                                      then c.meta[GraceClock := Stamp(Stored(now))] else c.meta)
  {
    ActiveWasPermitted(w, wall, cs);
  }

  /** The clock an evaluation goes by is the latest of the wall clock then, and of the wall clock at the
      start and the recorded floor with the running time added: setting the wall clock back,
      before the boot or after it, gains no time. */
  lemma ClockCannotBeSetBack(w: Window, wall: int, cs: seq<Call>, x: Facts)
    requires Proper(w)
    ensures var now := GraceNow(Afterwards(Installed(w, wall), cs), x);
            && now >= x.wall && now >= wall + x.elapsed && now >= w.floor + x.elapsed
            && (now == x.wall || now == wall + x.elapsed || now == w.floor + x.elapsed)
  {
    ActiveWasPermitted(w, wall, cs);
  }

  /** Once ended, ended for good, whatever the rows and the clock say afterwards. */
  lemma {:induction false} EndIsFinal(r: Runtime, cs: seq<Call>)
    requires r.ended
    ensures Afterwards(r, cs).ended && (cs != [] ==> !Answer(r, cs))
  {
    if cs != [] {
      EndIsFinal(r, cs[..|cs| - 1]);
    }
  }

  // ---------------------------------------------------------------------------
  // The days reported

  /** A window as a boot records it. */
  predicate Proper(w: Window) {
    w.start <= w.floor && w.deadline == w.start + GRACE_PERIOD
  }

  /** Over every sequence of calls, a report of a running grace gives 1 to 30 days, rounded up, if
      and only if the clock it reads has not reached the deadline, and 0 otherwise. An answer
      that is not a cached one was found before the deadline, and even a cached one is given
      less than RECHECK of running time after it. */
  lemma StatusReports(w: Window, wall: int, cs: seq<Call>, read: Facts)
    requires Proper(w) && cs != [] && Answer(Installed(w, wall), cs) && read.elapsed >= 0
    ensures var r := Installed(w, wall);
            var days := DaysLeft(GraceNow(r, read), w.deadline);
            && (1 <= days <= 30 <==> GraceNow(r, read) < w.deadline)
            && (days == 0 <==> GraceNow(r, read) >= w.deadline)
    ensures var r := Installed(w, wall);
            var last := cs[|cs| - 1];
            && (Cached(Asked(Afterwards(r, cs[..|cs| - 1]), last), last.x) || GraceNow(r, last.x) < w.deadline)
            && r.base + last.x.elapsed < w.deadline + RECHECK
  {
    var r := Installed(w, wall);
    var now := GraceNow(r, read);
    if now < w.deadline {
      DaysInRange(now, w.deadline);
    }
    ActiveWasPermitted(w, wall, cs[..|cs| - 1]);
    RunningIsRecent(w, wall, cs);
  }

  /** And the 0 does come: for every window that was open at install, an evaluation just before the
      deadline and a report a second later. */
  lemma CachedReportsZero(w: Window, m: Meta)
    requires Proper(w) && Open(w) && Enforced(RequireMfa) !in m
    ensures var r := Installed(w, w.floor);
            var e := w.deadline - w.floor - 1;
            var first := Facts(w.floor, e, false, false, false, false, false, false);
            var second := first.(elapsed := e + SECOND);
            var cs := [Call(m, first, false), Call(m, second, false)];
            Answer(r, cs) && Reported(m, Afterwards(r, cs[..1]), second, second) == Some(0)
  {
    var r := Installed(w, w.floor);
    var e := w.deadline - w.floor - 1;
    var first := Facts(w.floor, e, false, false, false, false, false, false);
    var cs := [Call(m, first, false), Call(m, first.(elapsed := e + SECOND), false)];
    assert cs[..1] == [cs[0]] && cs[..1][..0] == [];
    assert Afterwards(r, []) == r && Afterwards(r, cs[..1]) == Evaluated(m, r, first).1;
  }
}
