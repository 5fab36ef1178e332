/** The upgrade grace as the program text has it: rows inserted and upserted, package variables
    set, loops over markers, a runtime object with a latch; each proved to compute the functions
    of Grace, which the histories of GraceRuns are about. */
module GraceBoot {
  import opened Options
  import opened Grace
  import opened GraceRuns

  /** The database tables the grace reads and writes. */
  class Database {
    var userTable: bool
    var users: nat
    var metaTable: bool
    var meta: Meta

    function Tables(): Store reads this { Store(userTable, users, metaTable, meta) }

    /** The three markers are read in whatever order the map iteration gives. A read that fails and is
        needed leaves the question open; no user table or no users is a fresh install; anything
        else is an upgraded one, with the keys whose marker row is not empty. */
    method Inspect(f: ReadFaults, order: seq<Key>) returns (d: Deployment)
      requires forall k :: k in KEYS <==> k in order
      ensures d == Inspected(Tables(), f)
      ensures d == Undecidable <==>
                f.open || (userTable && (f.count || (users > 0 && metaTable && f.markers * KEYS != {})))
      ensures d == Fresh <==> !f.open && (!userTable || (!f.count && users == 0))
      ensures d.Upgraded? ==>
                forall k :: k in d.marked <==> metaTable && Enforced(k) in meta && meta[Enforced(k)] != Text(true)
    {
      if f.open {
        return Undecidable;
      }
      if !userTable {
        return Fresh;
      }
      if f.count {
        return Undecidable;
      }
      if users == 0 {
        return Fresh;
      }
      if !metaTable {
        return Upgraded({});
      }
      var marked := {};
      for i := 0 to |order|
        invariant forall k :: k in marked <==> k in order[..i] && Marked(meta, k)
        invariant forall k :: k in order[..i] ==> k !in f.markers
      {
        var k := order[i];
        if k in f.markers {
          assert k in f.markers * KEYS;
          return Undecidable;
        }
        if Enforced(k) in meta && meta[Enforced(k)] != Text(true) {
          marked := marked + {k};
        }
        assert order[..i + 1] == order[..i] + [k];
      }
      assert order[..|order|] == order;
      forall k: Key ensures k in KEYS {
        assert k.FilePermissions? || k.RequireMfa? || k.ScimToken?;
      }
      assert marked == MarkedKeys(meta);
      assert f.markers * KEYS == {};
      d := Upgraded(marked);
    }

    method Insert(r: Row, v: Value)
      modifies this`meta
      ensures meta == InsertIfAbsent(old(meta), r, v)
    {
      if r !in meta {
        meta := meta[r := v];
      }
    }

    /** recordADR112MFAGraceWindow: insert the start, read start and clock, raise the floor step
        by step, store it. */
    method RecordWindow(now: int, g: WindowFaults) returns (w: Option<Window>)
      modifies this`meta
      ensures (meta, w) == RecordedWindow(old(Tables()), now, g)
    {
      if g.open || !metaTable || g.insertStart {
        return None;
      }
      Insert(GraceStarted, Stamp(Stored(now)));
      if g.readStart || meta[GraceStarted].Text? {
        return None;
      }
      var start := Instant(meta[GraceStarted].sec);
      if g.readClock || (GraceClock in meta && meta[GraceClock].Text?) {
        return None;
      }
      var floor := start;
      if GraceClock in meta && Instant(meta[GraceClock].sec) > floor {
        floor := Instant(meta[GraceClock].sec);
      }
      if now >= floor {
        floor := now;
      }
      if g.writeClock {
        return None;
      }
      meta := meta[GraceClock := Stamp(Stored(floor))];
      w := Some(Window(start, start + GRACE_PERIOD, floor));
    }
  }

  /** mfaUpgradeGrace. */
  class MfaGrace {
    const window: Window
    const base: int
    var ended: bool
    var checked: bool
    var checkedAt: int
    var active: bool
    var persisted: int

    function State(): Runtime reads this {
      Runtime(window, base, ended, if checked then Some(checkedAt) else None, active, persisted)
    }

    constructor (w: Window, wall: int)
      ensures State() == Installed(w, wall)
    {
      var floor := Later(w.floor, w.start);
      window := w.(floor := floor);
      base, persisted := Later(wall, floor), floor;
      ended, checked, checkedAt, active := false, false, 0, false;
    }

    /** Latches the end; the marker is written unless it is already there. */
    method End(db: Database, now: int, x: Facts)
      modifies this`ended, db`meta
      ensures ended && db.meta == EndedRows(old(db.meta), now, x)
    {
      ended := true;
      if !x.endReadFails && Enforced(RequireMfa) in db.meta {
        return;
      }
      if !x.endFails {
        db.meta := db.meta[Enforced(RequireMfa) := Stamp(Stored(now))];
      }
    }

    method Evaluate(db: Database, x: Facts) returns (running: bool)
      modifies this, db`meta
      ensures (db.meta, State(), running) == Evaluated(old(db.meta), old(State()), x)
    {
      if ended {
        return false;
      }
      if checked && x.elapsed - checkedAt < RECHECK {
        return active;
      }
      checked, checkedAt, active := true, x.elapsed, false;
      var now := Later(x.wall, base + x.elapsed);
      if now >= window.deadline {
        End(db, now, x);
        return false;
      }
      if x.markerFails {
        return false;
      }
      if Enforced(RequireMfa) in db.meta {
        End(db, now, x);
        return false;
      }
      if x.enrolledFails {
        return false;
      }
      if x.enrolled {
        End(db, now, x);
        return false;
      }
      active := true;
      if now - persisted >= MINUTE && !x.clockFails {
        db.meta := db.meta[GraceClock := Stamp(Stored(now))];
        persisted := now;
      }
      running := true;
    }

    /** The grace as reported to clients: whether it runs, and the days left. */
    method Status(db: Database, x: Facts, read: Facts) returns (days: Option<int>)
      modifies this, db`meta
      ensures days == Reported(old(db.meta), old(State()), x, read)
      ensures db.meta == Evaluated(old(db.meta), old(State()), x).0
      ensures State() == Evaluated(old(db.meta), old(State()), x).1
    {
      var running := Evaluate(db, x);
      if !running {
        return None;
      }
      days := Some(DaysLeft(Later(read.wall, base + read.elapsed), window.deadline));
    }
  }

  lemma NoMarkers(m: Meta, failing: set<Key>, now: int)
    ensures WithMarkers(m, {}, failing, now) == m
  {
  }

  lemma OneMoreMarker(m: Meta, keys: set<Key>, k: Key, failing: set<Key>, now: int)
    ensures WithMarkers(m, keys + {k}, failing, now) ==
            if k in failing then WithMarkers(m, keys, failing, now)
            else InsertIfAbsent(WithMarkers(m, keys, failing, now), Enforced(k), Stamp(Stored(now)))
  {
  }

  /** One boot: its config and what its steps leave in the process. */
  class Boot {
    const cfg: Config
    const db: Database
    var fileGrace: bool
    var mfaGrace: bool
    var window: Option<Window>
    var fileSoftened: bool
    var scimSoftened: bool
    var runtime: MfaGrace?

    constructor (cfg: Config, db: Database)
      ensures this.cfg == cfg && this.db == db && Clean()
    {
      this.cfg, this.db := cfg, db;
      fileGrace, mfaGrace, window, fileSoftened, scimSoftened, runtime := false, false, None, false, false, null;
    }

    /** Nothing decided, softened or armed yet. */
    predicate Clean() reads this {
      !fileGrace && !mfaGrace && window.None? && !fileSoftened && !scimSoftened && runtime == null
    }

    /** applyADR112UpgradeGrace. */
    method Apply(now: int, f: ReadFaults, g: WindowFaults, order: seq<Key>)
      requires Clean() && forall k :: k in KEYS <==> k in order
      modifies this`fileGrace, this`mfaGrace, this`window, db`meta
      ensures (db.meta, Decision(fileGrace, window)) == Decided(old(db.Tables()), cfg, now, f, g)
      ensures mfaGrace == window.Some?
    {
      var fileImplicit, mfaImplicit := cfg.fileCheck && cfg.fileImplicit, cfg.mfa && cfg.mfaImplicit;
      if !fileImplicit && !mfaImplicit {
        return;
      }
      var d := db.Inspect(f, order);
      if fileImplicit {
        fileGrace := Graced(d, FilePermissions);
      }
      if mfaImplicit && Graced(d, RequireMfa) {
        var w := db.RecordWindow(now, g);
        if w.Some? && w.value.floor < w.value.deadline {
          window := w;
          mfaGrace := true;
        }
      }
    }

    /** The three file checks: false means the process stops. A failure inside the grace sets
        the softened flag and goes on. */
    method CheckFiles(c: Checks) returns (ok: bool)
      requires !fileSoftened
      modifies this`fileSoftened
      ensures ok == !FileVerdict(cfg, c, fileGrace).Refused?
      ensures ok ==> fileSoftened == FileVerdict(cfg, c, fileGrace).Softened?
    {
      if cfg.fileCheck && c.validation {
        if !fileGrace {
          return false;
        }
        fileSoftened := true;
      }
      if (c.keyFiles || c.tlsFiles) && cfg.fileCheck && !cfg.allowUnsafe {
        if c.keyFiles || !cfg.fileImplicit {
          if !fileGrace {
            return false;
          }
          fileSoftened := true;
        }
      }
      if c.secretFiles && cfg.fileCheck && !cfg.allowUnsafe {
        if !fileGrace {
          return false;
        }
        fileSoftened := true;
      }
      ok := true;
    }

    /** enforceSCIMTokenStrength, with its own look at the database. */
    method CheckScim(c: Checks, f: ReadFaults, order: seq<Key>) returns (ok: bool)
      requires !scimSoftened && forall k :: k in KEYS <==> k in order
      modifies this`scimSoftened
      ensures ok == !ScimVerdict(cfg, c, Inspected(db.Tables(), f)).Refused?
      ensures ok ==> scimSoftened == ScimVerdict(cfg, c, Inspected(db.Tables(), f)).Softened?
    {
      if !cfg.scim {
        return true;
      }
      if c.scimFloor {
        return false;
      }
      if !c.scimShape {
        return true;
      }
      var d := db.Inspect(f, order);
      if Graced(d, ScimToken) {
        scimSoftened := true;
        return true;
      }
      ok := false;
    }

    /** armADR112MFAGrace: install the window, evaluate once, and drop the flag if it ended. */
    method Arm(wall: int, x: Facts)
      requires mfaGrace == window.Some? && runtime == null
      modifies this`mfaGrace, this`runtime, db`meta
      ensures (db.meta, if runtime == null then None else Some(runtime.State())) == Armed(old(db.meta), window, wall, x)
      ensures mfaGrace == (runtime != null && !runtime.ended)
      ensures runtime != null ==> fresh(runtime)
    {
      if !mfaGrace {
        return;
      }
      var r := new MfaGrace(window.value, wall);
      var running := r.Evaluate(db, x);
      runtime := r;
      if r.ended {
        mfaGrace := false;
      }
    }

    /** recordADR112Markers: the keys this boot enforced, each marker inserted if absent; a
        failed write is only logged. */
    method RecordMarkers(failing: set<Key>, now: int)
      modifies db`meta
      ensures db.meta == WithMarkers(old(db.meta), EnforcedKeys(cfg, fileSoftened, mfaGrace, scimSoftened), failing,
                                     now)
    {
      var keys := [];
      if cfg.fileCheck && !fileSoftened {
        keys := keys + [FilePermissions];
      }
      if cfg.mfa && !mfaGrace {
        keys := keys + [RequireMfa];
      }
      if !scimSoftened {
        keys := keys + [ScimToken];
      }
      ghost var done := {};
      NoMarkers(db.meta, failing, now);
      var i := 0;
      while i < |keys|
        invariant 0 <= i <= |keys|
        invariant forall k :: k in done <==> k in keys[..i]
        invariant db.meta == WithMarkers(old(db.meta), done, failing, now)
      {
        OneMoreMarker(old(db.meta), done, keys[i], failing, now);
        assert keys[..i + 1] == keys[..i] + [keys[i]];
        if keys[i] !in failing {
          db.Insert(Enforced(keys[i]), Stamp(Stored(now)));
        }
        done := done + {keys[i]};
        i := i + 1;
      }
      assert keys[..i] == keys;
      assert done == EnforcedKeys(cfg, fileSoftened, mfaGrace, scimSoftened);
    }

    /** The boot from the decision to the markers. */
    method Run(b: BootInput, order: seq<Key>) returns (ok: bool)
      requires b.cfg == cfg && Clean() && forall k :: k in KEYS <==> k in order
      modifies this, db
      ensures var o := Booted(old(db.Tables()), b);
              && db.Tables() == o.store && ok == o.completes
              && Decision(fileGrace, window) == o.decision && mfaGrace == o.mfaGrace
              && (if runtime == null then None else Some(runtime.State())) == o.runtime
    {
      Apply(b.now, b.look, b.window, order);
      ok := CheckFiles(b.checks);
      if !ok {
        return;
      }
      ok := CheckScim(b.checks, b.scimLook, order);
      if !ok || !b.reaches {
        return false;
      }
      db.userTable, db.metaTable := true, true;
      Arm(b.wall, b.facts);
      RecordMarkers(b.markerFaults, b.markerNow);
    }
  }
}
