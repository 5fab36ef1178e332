/** ADR-112's upgrade grace: what the database says about a deployment, the require_mfa window,
    the start-up checks a grace softens, and the enforcement markers, as functions of the stored
    rows. Times are in nanoseconds; stored times are whole seconds (RFC 3339 as Go writes it,
    without fractions). */
module Grace {
  import opened Options

  const SECOND: int := 1_000_000_000
  const MINUTE: int := 60 * SECOND
  const DAY: int := 24 * 60 * MINUTE
  const GRACE_PERIOD: int := 30 * DAY
  const RECHECK: int := 15 * SECOND

  function Stored(t: int): int { t / SECOND }

  function Instant(sec: int): int { sec * SECOND }

  function Later(a: int, b: int): int { if b > a then b else a }

  // ---------------------------------------------------------------------------
  // The stored rows

  datatype Key = FilePermissions | RequireMfa | ScimToken

  /** A system_metadata value: a time, or anything else, of which the empty string matters. */
  datatype Value = Stamp(sec: int) | Text(empty: bool)

  datatype Row = Enforced(key: Key) | GraceStarted | GraceClock

  type Meta = map<Row, Value>

  datatype Store = Store(userTable: bool, users: nat, metaTable: bool, meta: Meta)

  /** The key's marker is there. An empty value reads as no marker. */
  predicate Marked(m: Meta, k: Key) {
    Enforced(k) in m && m[Enforced(k)] != Text(true)
  }

  function InsertIfAbsent(m: Meta, r: Row, v: Value): Meta {
    if r in m then m else m[r := v]
  }

  // ---------------------------------------------------------------------------
  // What the database says

  /** Which reads of the inspection fail; `open` is the stat or the connection. */
  datatype ReadFaults = ReadFaults(open: bool, count: bool, markers: set<Key>)

  datatype Deployment = Fresh | Undecidable | Upgraded(marked: set<Key>)

  const KEYS: set<Key> := {FilePermissions, RequireMfa, ScimToken}

  function MarkedKeys(m: Meta): set<Key> {
    set k | k in KEYS && Marked(m, k)
  }

  function Inspected(s: Store, f: ReadFaults): Deployment {
    if f.open then Undecidable
    else if !s.userTable then Fresh
    else if f.count then Undecidable
    else if s.users == 0 then Fresh
    else if !s.metaTable then Upgraded({})
    else if f.markers * KEYS != {} then Undecidable
    else Upgraded(MarkedKeys(s.meta))
  }

  predicate Graced(d: Deployment, k: Key) {
    d.Upgraded? && k !in d.marked
  }

  // ---------------------------------------------------------------------------
  // The require_mfa window

  datatype WindowFaults = WindowFaults(open: bool, insertStart: bool, readStart: bool, readClock: bool,
                                       writeClock: bool)

  const NO_WINDOW_FAULTS := WindowFaults(false, false, false, false, false)

  datatype Window = Window(start: int, deadline: int, floor: int)

  /** The rows after recordADR112MFAGraceWindow, and the window unless something failed. */
  function RecordedWindow(s: Store, now: int, f: WindowFaults): (Meta, Option<Window>) {
    if f.open || !s.metaTable || f.insertStart then (s.meta, None)
    else
      var m := InsertIfAbsent(s.meta, GraceStarted, Stamp(Stored(now)));
      if f.readStart || m[GraceStarted].Text? || f.readClock || (GraceClock in m && m[GraceClock].Text?)
          || f.writeClock then
        (m, None)
      else
        var start := Instant(m[GraceStarted].sec);
        var floor := Later(if GraceClock in m then Later(start, Instant(m[GraceClock].sec)) else start, now);
        (m[GraceClock := Stamp(Stored(floor))], Some(Window(start, start + GRACE_PERIOD, floor)))
  }

  predicate Open(w: Window) {
    w.floor < w.deadline
  }

  function DaysLeft(now: int, deadline: int): int {
    if deadline - now <= 0 then 0 else (deadline - now + DAY - 1) / DAY
  }

  /** The days left are counted up: the deadline is within them, and not within one fewer. */
  lemma DaysInRange(now: int, deadline: int)
    requires 0 < deadline - now <= GRACE_PERIOD
    ensures 1 <= DaysLeft(now, deadline) <= 30
    ensures (DaysLeft(now, deadline) - 1) * DAY < deadline - now <= DaysLeft(now, deadline) * DAY
  {
  }

  // ---------------------------------------------------------------------------
  // The decision of one boot

  /** `…Implicit`: the key is absent from the config file, where it means true. */
  datatype Config = Config(fileCheck: bool, fileImplicit: bool, allowUnsafe: bool, mfa: bool, mfaImplicit: bool,
                           scim: bool)

  datatype Decision = Decision(fileGrace: bool, window: Option<Window>)

  /** applyADR112UpgradeGrace: one look at the database for both keys. */
  function Decided(s: Store, cfg: Config, now: int, f: ReadFaults, g: WindowFaults): (Meta, Decision) {
    var d := Inspected(s, f);
    var fileGrace := cfg.fileCheck && cfg.fileImplicit && Graced(d, FilePermissions);
    if cfg.mfa && cfg.mfaImplicit && Graced(d, RequireMfa) then
      var (m, w) := RecordedWindow(s, now, g);
      (m, Decision(fileGrace, if w.Some? && Open(w.value) then w else None))
    else
      (s.meta, Decision(fileGrace, None))
  }

  // ---------------------------------------------------------------------------
  // The checks a grace softens

  datatype Checks = Checks(validation: bool, keyFiles: bool, tlsFiles: bool, secretFiles: bool, scimFloor: bool,
                           scimShape: bool)

  datatype Verdict = Passed | Softened | Refused

  /** Two checks one after the other. */
  function Then(a: Verdict, b: Verdict): Verdict {
    if a.Refused? || b.Refused? then Refused else if a.Softened? || b.Softened? then Softened else Passed
  }

  function Failing(fails: bool, grace: bool): Verdict {
    if !fails then Passed else if grace then Softened else Refused
  }

  /** runStartupValidation, enforceKeyFilePermissions and enforceSecretFilePermissions. On the
      implicit default a TLS key only warns. `c` says which checks find a problem. */
  function FileVerdict(cfg: Config, c: Checks, grace: bool): Verdict {
    var strict := cfg.fileCheck && !cfg.allowUnsafe;
    Then(Failing(cfg.fileCheck && c.validation, grace),
         Then(Failing(strict && (c.keyFiles || (c.tlsFiles && !cfg.fileImplicit)), grace),
              Failing(strict && c.secretFiles, grace)))
  }

  function ScimVerdict(cfg: Config, c: Checks, d: Deployment): Verdict {
    if !cfg.scim then Passed
    else if c.scimFloor then Refused
    else Failing(c.scimShape, Graced(d, ScimToken))
  }

  // ---------------------------------------------------------------------------
  // The enforcement markers

  /** What recordADR112Markers records. */
  function EnforcedKeys(cfg: Config, fileSoftened: bool, mfaGrace: bool, scimSoftened: bool): set<Key> {
    (if cfg.fileCheck && !fileSoftened then {FilePermissions} else {}) +
    (if cfg.mfa && !mfaGrace then {RequireMfa} else {}) +
    (if !scimSoftened then {ScimToken} else {})
  }

  /** Inserting the markers of `keys`, except where the write fails. */
  function WithMarkers(m: Meta, keys: set<Key>, failing: set<Key>, now: int): Meta {
    var rows := set k | k in keys && k !in failing :: Enforced(k);
    map r | r in m.Keys + rows :: if r in m then m[r] else Stamp(Stored(now))
  }

  // ---------------------------------------------------------------------------
  // The running server

  /** mfaUpgradeGrace: `base` is max(wall clock at install, floor). */
  datatype Runtime = Runtime(window: Window, base: int, ended: bool, checkedAt: Option<int>, active: bool,
                             persisted: int)

  function Installed(w: Window, wall: int): Runtime {
    var floor := Later(w.floor, w.start);
    Runtime(w.(floor := floor), Later(wall, floor), false, None, false, floor)
  }

  /** What one evaluation sees: the wall clock, the monotonic time since install, whether an
      administrator has a second factor, and which accesses fail. */
  datatype Facts = Facts(wall: int, elapsed: int, enrolled: bool,
                         markerFails: bool, enrolledFails: bool, clockFails: bool, endReadFails: bool, endFails: bool)

  function GraceNow(r: Runtime, x: Facts): int {
    Later(x.wall, r.base + x.elapsed)
  }

  predicate Cached(r: Runtime, x: Facts) {
    r.checkedAt.Some? && x.elapsed - r.checkedAt.value < RECHECK
  }

  /** Latching the end: the marker is written unless it is found or the write fails. */
  function EndedRows(m: Meta, now: int, x: Facts): Meta {
    if (!x.endReadFails && Enforced(RequireMfa) in m) || x.endFails then m
    else m[Enforced(RequireMfa) := Stamp(Stored(now))]
  }

  /** evaluate: the rows and the runtime after it, and whether the grace is running. */
  function Evaluated(m: Meta, r: Runtime, x: Facts): (Meta, Runtime, bool) {
    var now := GraceNow(r, x);
    var c := r.(checkedAt := Some(x.elapsed), active := false);
    if r.ended then (m, r, false)
    else if Cached(r, x) then (m, r, r.active)
    else if now >= r.window.deadline then (EndedRows(m, now, x), c.(ended := true), false)
    else if x.markerFails then (m, c, false)
    else if Enforced(RequireMfa) in m then (EndedRows(m, now, x), c.(ended := true), false)
    else if x.enrolledFails then (m, c, false)
    else if x.enrolled then (EndedRows(m, now, x), c.(ended := true), false)
    else if now - r.persisted >= MINUTE && !x.clockFails then
      (m[GraceClock := Stamp(Stored(now))], c.(active := true, persisted := now), true)
    else (m, c.(active := true), true)
  }

  /** MFAUpgradeGraceStatus: the days left while the grace is running, by a clock that is read once
      more after the evaluation. */
  function Reported(m: Meta, r: Runtime, x: Facts, read: Facts): Option<int> {
    if Evaluated(m, r, x).2 then Some(DaysLeft(GraceNow(r, read), r.window.deadline)) else None
  }
}
