/** The upgrade grace over whole histories of a deployment: boots with any clock, config, check
    results and faults, running servers, and a changing number of users. */
module GraceRuns {
  import opened Options
  import opened Grace

  type Pid = nat

  // ---------------------------------------------------------------------------
  // One boot

  /** `reaches`: nothing outside this model stops the boot before it arms the grace. `facts`
      are those of the evaluation at arming; `markerFaults` are the marker writes that fail. */
  datatype BootInput = BootInput(
    cfg: Config, now: int, look: ReadFaults, window: WindowFaults, checks: Checks, scimLook: ReadFaults,
    reaches: bool, wall: int, facts: Facts, markerFaults: set<Key>, markerNow: int)

  datatype BootOutcome = BootOutcome(
    store: Store, decision: Decision, file: Verdict, scim: Verdict, completes: bool, mfaGrace: bool,
        runtime: Option<Runtime>)

  /** armADR112MFAGrace. */
  function Armed(m: Meta, w: Option<Window>, wall: int, x: Facts): (Meta, Option<Runtime>) {
    if w.None? then (m, None)
    else var (m', r, _) := Evaluated(m, Installed(w.value, wall), x); (m', Some(r))
  }

  function Booted(s: Store, b: BootInput): BootOutcome {
    var (m, d) := Decided(s, b.cfg, b.now, b.look, b.window);
    var file := FileVerdict(b.cfg, b.checks, d.fileGrace);
    var scim := ScimVerdict(b.cfg, b.checks, Inspected(s.(meta := m), b.scimLook));
    if file.Refused? || scim.Refused? || !b.reaches then
      BootOutcome(s.(meta := m), d, file, scim, false, d.window.Some?, None)
    else
      var (m', r) := Armed(m, d.window, b.wall, b.facts);
      var grace := r.Some? && !r.value.ended;
      var enforced := EnforcedKeys(b.cfg, file.Softened?, grace, scim.Softened?);
      BootOutcome(Store(true, s.users, true, WithMarkers(m', enforced, b.markerFaults, b.markerNow)),
                  d, file, scim, true, grace, r)
  }

  /** The boot had a grace for the key, or (SCIM) used one. */
  predicate GracedFor(o: BootOutcome, k: Key) {
    match k
    case FilePermissions => o.decision.fileGrace
    case RequireMfa => o.decision.window.Some?
    case ScimToken => o.scim.Softened?
  }

  // ---------------------------------------------------------------------------
  // Histories

  /** `latest` is the process that started last. */
  datatype World = World(store: Store, procs: map<Pid, Runtime>, latest: Option<Pid>)

  datatype Event =
    | Boots(p: Pid, b: BootInput)
    | Evaluates(p: Pid, x: Facts)
    | Rechecks(p: Pid)
    | Users(n: nat)
    | Migrates

  function Next(w: World, e: Event): World {
    match e
    case Boots(p, b) =>
      var o := Booted(w.store, b);
      World(o.store, if o.runtime.Some? then w.procs[p := o.runtime.value] else w.procs - {p}, Some(p))
    case Evaluates(p, x) =>
      if p !in w.procs then w
      else
        var (m, r, _) := Evaluated(w.store.meta, w.procs[p], x);
        w.(store := w.store.(meta := m), procs := w.procs[p := r])
    case Rechecks(p) => if p !in w.procs then w else w.(procs := w.procs[p := w.procs[p].(checkedAt := None)])
    case Users(n) => w.(store := w.store.(users := n))
    case Migrates => w.(store := w.store.(userTable := true, metaTable := true))
  }

  function After(w: World, es: seq<Event>): World
    decreases |es|
  {
    if es == [] then w else After(Next(w, es[0]), es[1..])
  }

  /** A table that does not exist has no rows. */
  predicate Sane(s: Store) {
    !s.metaTable ==> s.meta == map[]
  }

  /** And no server is running before the schema is there. */
  predicate SaneWorld(w: World) {
    Sane(w.store) && (w.procs != map[] ==> w.store.metaTable)
  }

  // ---------------------------------------------------------------------------
  // Markers are a ratchet, over every history

  predicate KeepsMarkers(m: Meta, n: Meta) {
    && (forall k :: Marked(m, k) ==> Marked(n, k))
    && (GraceStarted in m ==> GraceStarted in n && n[GraceStarted] == m[GraceStarted])
  }

  lemma DecidedKeeps(s: Store, cfg: Config, now: int, f: ReadFaults, g: WindowFaults)
    ensures KeepsMarkers(s.meta, Decided(s, cfg, now, f, g).0)
    ensures Sane(s) ==> Sane(s.(meta := Decided(s, cfg, now, f, g).0))
  {
  }

  lemma EvaluatedKeeps(m: Meta, r: Runtime, x: Facts)
    ensures KeepsMarkers(m, Evaluated(m, r, x).0)
  {
  }

  lemma BootedKeeps(s: Store, b: BootInput)
    ensures KeepsMarkers(s.meta, Booted(s, b).store.meta)
    ensures Sane(s) ==> Sane(Booted(s, b).store) && (s.metaTable ==> Booted(s, b).store.metaTable)
  {
    DecidedKeeps(s, b.cfg, b.now, b.look, b.window);
    var (m, d) := Decided(s, b.cfg, b.now, b.look, b.window);
    if d.window.Some? {
      EvaluatedKeeps(m, Installed(d.window.value, b.wall), b.facts);
    }
  }

  lemma NextKeeps(w: World, e: Event)
    requires SaneWorld(w)
    ensures KeepsMarkers(w.store.meta, Next(w, e).store.meta) && SaneWorld(Next(w, e))
    ensures w.store.metaTable ==> Next(w, e).store.metaTable
  {
    match e {
      case Boots(_, b) => BootedKeeps(w.store, b);
      case Evaluates(p, x) =>
        if p in w.procs {
          EvaluatedKeeps(w.store.meta, w.procs[p], x);
        }
      case _ =>
    }
  }

  lemma {:induction false} HistoryKeeps(w: World, es: seq<Event>)
    requires SaneWorld(w)
    ensures KeepsMarkers(w.store.meta, After(w, es).store.meta) && SaneWorld(After(w, es))
    ensures w.store.metaTable ==> After(w, es).store.metaTable
    decreases |es|
  {
    if es != [] {
      NextKeeps(w, es[0]);
      HistoryKeeps(Next(w, es[0]), es[1..]);
    }
  }

  lemma MarkedIsNotGraced(s: Store, b: BootInput, k: Key)
    requires Sane(s) && Marked(s.meta, k)
    ensures !GracedFor(Booted(s, b), k)
  {
    DecidedKeeps(s, b.cfg, b.now, b.look, b.window);
    assert k in KEYS;
  }

  /** Once a key's marker is stored, no later boot, with any config, clock, check results and
      faults, and no running server gets a grace for that key. */
  lemma MarkerRatchet(w: World, es: seq<Event>, b: BootInput, k: Key)
    requires SaneWorld(w) && Marked(w.store.meta, k)
    ensures !GracedFor(Booted(After(w, es).store, b), k)
    ensures k == RequireMfa ==>
              forall p, x :: p in After(w, es).procs && !Cached(After(w, es).procs[p], x) ==>
                               !Evaluated(After(w, es).store.meta, After(w, es).procs[p], x).2
  {
    HistoryKeeps(w, es);
    MarkedIsNotGraced(After(w, es).store, b, k);
  }

  /** The grace start, once recorded, is the same after any history. */
  lemma StartNeverChanges(w: World, es: seq<Event>)
    requires SaneWorld(w) && GraceStarted in w.store.meta
    ensures var m := After(w, es).store.meta; GraceStarted in m && m[GraceStarted] == w.store.meta[GraceStarted]
  {
    HistoryKeeps(w, es);
  }

  // ---------------------------------------------------------------------------
  // When a grace is granted

  /** Every read of the inspection succeeds. */
  predicate Readable(s: Store, f: ReadFaults) {
    !f.open && !f.count && (s.metaTable ==> f.markers * KEYS == {})
  }

  /** Every access of the window's recording succeeds, on rows that hold times. */
  predicate Recordable(s: Store, g: WindowFaults) {
    && g == NO_WINDOW_FAULTS && s.metaTable
    && (GraceStarted in s.meta ==> s.meta[GraceStarted].Stamp?)
    && (GraceClock in s.meta ==> s.meta[GraceClock].Stamp?)
  }

  /** Neither the wall clock nor the recorded one has reached the deadline, 30 days after the
      recorded start, or after this boot when it is the first. */
  predicate InTime(s: Store, now: int)
    requires (GraceStarted in s.meta ==> s.meta[GraceStarted].Stamp?)
             && (GraceClock in s.meta ==> s.meta[GraceClock].Stamp?)
  {
    var start := if GraceStarted in s.meta then s.meta[GraceStarted].sec else Stored(now);
    && now < Instant(start) + 30 * DAY
    && (GraceClock in s.meta ==> s.meta[GraceClock].sec < start + 30 * 86_400)
  }

  /** No marker row, or an empty one. */
  predicate Unmarked(m: Meta, k: Key) {
    Enforced(k) in m ==> m[Enforced(k)] == Text(true)
  }

  /** A grace is granted exactly to a deployment with users and without the key's marker, whose
      config leaves the key out, when every read succeeds; for require_mfa also every write
      must succeed and the window be open. Any fault means no grace. */
  lemma GraceExactly(s: Store, b: BootInput)
    ensures GracedFor(Booted(s, b), FilePermissions) <==>
              && b.cfg.fileCheck && b.cfg.fileImplicit && Readable(s, b.look) && s.userTable && s.users > 0
              && (s.metaTable ==> Unmarked(s.meta, FilePermissions))
    ensures GracedFor(Booted(s, b), RequireMfa) <==>
              && b.cfg.mfa && b.cfg.mfaImplicit && Readable(s, b.look) && s.userTable && s.users > 0
              && Unmarked(s.meta, RequireMfa) && Recordable(s, b.window) && InTime(s, b.now)
    ensures GracedFor(Booted(s, b), ScimToken) <==>
              && b.cfg.scim && b.checks.scimShape && !b.checks.scimFloor && Readable(s, b.scimLook) && s.userTable
              && s.users > 0
              && (s.metaTable ==> Unmarked(s.meta, ScimToken))
  {
    DecidedLeavesMarkers(s, b.cfg, b.now, b.look, b.window);
    var (m, d) := Decided(s, b.cfg, b.now, b.look, b.window);
    assert Marked(m, ScimToken) <==> Marked(s.meta, ScimToken);
    assert ScimToken in KEYS && RequireMfa in KEYS && FilePermissions in KEYS;
  }

  // ---------------------------------------------------------------------------
  // When a boot is refused

  /** The file checks a problem of which is not let through by the config: with the checks on, the
      validation always, the key and secret files unless unsafe files are allowed, and a TLS key
      only when the check was asked for outright. */
  predicate FileProblem(cfg: Config, c: Checks) {
    && cfg.fileCheck
    && (c.validation || (!cfg.allowUnsafe && (c.keyFiles || c.secretFiles || (c.tlsFiles && !cfg.fileImplicit))))
  }

  predicate ScimProblem(cfg: Config, c: Checks) {
    cfg.scim && (c.scimFloor || c.scimShape)
  }

  /** A boot that nothing else stops completes if and only if no file check and no SCIM token check
      finds a problem, or a grace covers it; the token's floor has none. What it turned into a
      warning is exactly what a grace covered. A boot that does not complete stores no marker. */
  lemma BootRefusedExactly(s: Store, b: BootInput)
    ensures var o := Booted(s, b);
            var files := FileProblem(b.cfg, b.checks);
            && (o.completes <==>
                  && b.reaches && (files ==> GracedFor(o, FilePermissions))
                  && (ScimProblem(b.cfg, b.checks) ==> !b.checks.scimFloor && GracedFor(o, ScimToken)))
            && (o.file.Softened? <==> files && GracedFor(o, FilePermissions))
            && (o.file.Refused? <==> files && !GracedFor(o, FilePermissions))
            && (!o.completes ==> o.runtime.None? && forall k :: SameMarker(s.meta, o.store.meta, k))
  {
    DecidedLeavesMarkers(s, b.cfg, b.now, b.look, b.window);
  }

  // ---------------------------------------------------------------------------
  // Which boot ends a grace

  /** The boot completed with the key in force and nothing softened for it. */
  predicate Enforces(b: BootInput, o: BootOutcome, k: Key) {
    o.completes && k in EnforcedKeys(b.cfg, o.file.Softened?, o.mfaGrace, o.scim.Softened?)
  }

  /** A boot that completes with the key in force and nothing softened for it stores the marker,
      unless the write fails or an empty value stands in its place; so it is the last boot
      that can have been graced for that key. A fresh install's first boot is such a boot. */
  lemma EnforcingBootIsLast(w: World, p: Pid, b: BootInput, k: Key, es: seq<Event>, later: BootInput)
    requires SaneWorld(w) && Enforces(b, Booted(w.store, b), k)
    requires k !in b.markerFaults && (Enforced(k) in w.store.meta ==> Marked(w.store.meta, k))
    ensures Marked(Booted(w.store, b).store.meta, k)
    ensures !GracedFor(Booted(After(Next(w, Boots(p, b)), es).store, later), k)
  {
    BootedKeeps(w.store, b);
    EnforcingBootMarks(w.store, b, k);
    NextKeeps(w, Boots(p, b));
    MarkerRatchet(Next(w, Boots(p, b)), es, later, k);
  }

  /** A marker is inserted or was there: an enforcing boot leaves one. */
  lemma EnforcingBootMarks(s: Store, b: BootInput, k: Key)
    requires Enforces(b, Booted(s, b), k) && k !in b.markerFaults && (Enforced(k) in s.meta ==> Marked(s.meta, k))
    ensures Marked(Booted(s, b).store.meta, k)
  {
    DecidedKeeps(s, b.cfg, b.now, b.look, b.window);
    var (m, d) := Decided(s, b.cfg, b.now, b.look, b.window);
    assert Enforced(k) in m ==> Marked(m, k);
    if d.window.Some? {
      EvaluatedKeeps(m, Installed(d.window.value, b.wall), b.facts);
    }
  }

  /** A running server that ends the grace stores the marker, unless the write fails or it reads an
      empty value in its place; no boot after that has an MFA grace. */
  lemma RuntimeEndIsForGood(w: World, p: Pid, x: Facts, es: seq<Event>, later: BootInput)
    requires SaneWorld(w) && p in w.procs && !w.procs[p].ended && Next(w, Evaluates(p, x)).procs[p].ended
    requires !x.endFails
    requires x.endReadFails || (Enforced(RequireMfa) in w.store.meta ==> Marked(w.store.meta, RequireMfa))
    ensures Marked(Next(w, Evaluates(p, x)).store.meta, RequireMfa)
    ensures !GracedFor(Booted(After(Next(w, Evaluates(p, x)), es).store, later), RequireMfa)
  {
    NextKeeps(w, Evaluates(p, x));
    MarkerRatchet(Next(w, Evaluates(p, x)), es, later, RequireMfa);
  }

  /** A boot of a fresh install (no users), with the key in force and its marker write succeeding,
      keeps the deployment from ever being graced for that key. */
  lemma FreshInstallIsNeverGraced(w: World, p: Pid, b: BootInput, k: Key, es: seq<Event>, later: BootInput)
    requires SaneWorld(w) && (w.store.userTable ==> w.store.users == 0)
    requires Booted(w.store, b).completes && k !in b.markerFaults
    requires (k == FilePermissions ==> b.cfg.fileCheck) && (k == RequireMfa ==> b.cfg.mfa)
    requires Enforced(k) in w.store.meta ==> Marked(w.store.meta, k)
    ensures !GracedFor(Booted(w.store, b), k)
    ensures !GracedFor(Booted(After(Next(w, Boots(p, b)), es).store, later), k)
  {
    EnforcingBootIsLast(w, p, b, k, es, later);
  }

  /** No boot that turned a real failure into a warning, or that leaves its MFA grace running,
      touches that key's marker. */
  lemma SoftenedBootLeavesMarker(s: Store, b: BootInput, k: Key)
    requires var o := Booted(s, b);
             (k == FilePermissions && o.file.Softened?) || (k == ScimToken && o.scim.Softened?)
                 || (k == RequireMfa && o.mfaGrace)
    ensures SameMarker(s.meta, Booted(s, b).store.meta, k)
  {
    DecidedLeavesMarkers(s, b.cfg, b.now, b.look, b.window);
    var (m, d) := Decided(s, b.cfg, b.now, b.look, b.window);
    if d.window.Some? {
      RunningLeavesMarkers(m, Installed(d.window.value, b.wall), b.facts);
    }
    var o := Booted(s, b);
    if o.completes {
      var enforced := EnforcedKeys(b.cfg, o.file.Softened?, o.mfaGrace, o.scim.Softened?);
      EnforcedKeysExactly(b.cfg, o.file.Softened?, o.mfaGrace, o.scim.Softened?);
      MarkersLeave(Armed(m, d.window, b.wall, b.facts).0, enforced, b.markerFaults, b.markerNow, k);
    }
  }

  lemma EnforcedKeysExactly(cfg: Config, fileSoftened: bool, mfaGrace: bool, scimSoftened: bool)
    ensures var ks := EnforcedKeys(cfg, fileSoftened, mfaGrace, scimSoftened);
            && (FilePermissions in ks <==> cfg.fileCheck && !fileSoftened)
            && (RequireMfa in ks <==> cfg.mfa && !mfaGrace)
            && (ScimToken in ks <==> !scimSoftened)
  {
  }

  lemma MarkersLeave(m: Meta, keys: set<Key>, failing: set<Key>, now: int, k: Key)
    requires k !in keys
    ensures SameMarker(m, WithMarkers(m, keys, failing, now), k)
  {
  }

  predicate SameMarker(m: Meta, n: Meta, k: Key) {
    (Enforced(k) in n <==> Enforced(k) in m) && (Enforced(k) in m ==> n[Enforced(k)] == m[Enforced(k)])
  }

  lemma DecidedLeavesMarkers(s: Store, cfg: Config, now: int, f: ReadFaults, g: WindowFaults)
    ensures forall k :: SameMarker(s.meta, Decided(s, cfg, now, f, g).0, k)
  {
  }

  lemma RunningLeavesMarkers(m: Meta, r: Runtime, x: Facts)
    ensures var (n, q, _) := Evaluated(m, r, x);
            forall k :: k != RequireMfa || !q.ended ==> SameMarker(m, n, k)
  {
  }

  /** The look at the marker that comes before an end does not fail. */
  predicate LooksFirst(e: Event) {
    (e.Evaluates? ==> !e.x.endReadFails) && (e.Boots? ==> !e.b.facts.endReadFails)
  }

  lemma NextKeepsRow(w: World, e: Event, k: Key)
    requires Enforced(k) in w.store.meta && (k != RequireMfa || LooksFirst(e))
    ensures SameMarker(w.store.meta, Next(w, e).store.meta, k)
  {
    match e {
      case Boots(_, b) => BootKeepsRow(w.store, b, k);
      case Evaluates(p, x) =>
        if p in w.procs {
          EvaluatedKeepsRow(w.store.meta, w.procs[p], x, k);
        }
      case _ =>
    }
  }

  lemma EvaluatedKeepsRow(m: Meta, r: Runtime, x: Facts, k: Key)
    requires Enforced(k) in m && (k != RequireMfa || !x.endReadFails)
    ensures SameMarker(m, Evaluated(m, r, x).0, k)
  {
  }

  lemma MarkersKeepRow(m: Meta, keys: set<Key>, failing: set<Key>, now: int, k: Key)
    requires Enforced(k) in m
    ensures SameMarker(m, WithMarkers(m, keys, failing, now), k)
  {
  }

  lemma BootKeepsRow(s: Store, b: BootInput, k: Key)
    requires Enforced(k) in s.meta && (k != RequireMfa || !b.facts.endReadFails)
    ensures SameMarker(s.meta, Booted(s, b).store.meta, k)
  {
    DecidedLeavesMarkers(s, b.cfg, b.now, b.look, b.window);
    var (m, d) := Decided(s, b.cfg, b.now, b.look, b.window);
    assert SameMarker(s.meta, m, k);
    if d.window.Some? {
      EvaluatedKeepsRow(m, Installed(d.window.value, b.wall), b.facts, k);
    }
    var o := Booted(s, b);
    if o.completes {
      MarkersKeepRow(Armed(m, d.window, b.wall, b.facts).0,
                     EnforcedKeys(b.cfg, o.file.Softened?, o.mfaGrace, o.scim.Softened?), b.markerFaults,
                     b.markerNow, k);
    }
  }

  /** A marker row, empty or not, is written once: over every history it keeps its first value, except
      that an end of the MFA grace whose look at it failed may write it again. */
  lemma {:induction false} MarkerRowIsKept(w: World, es: seq<Event>, k: Key)
    requires Enforced(k) in w.store.meta && (k != RequireMfa || forall e :: e in es ==> LooksFirst(e))
    ensures SameMarker(w.store.meta, After(w, es).store.meta, k)
    decreases |es|
  {
    if es != [] {
      NextKeepsRow(w, es[0], k);
      MarkerRowIsKept(Next(w, es[0]), es[1..], k);
    }
  }

  // ---------------------------------------------------------------------------
  // The require_mfa clock

  /** Only the process that started last is still running. */
  predicate NoOverlap(w: World, e: Event) {
    e.Evaluates? ==> w.latest == Some(e.p)
  }

  predicate Alone(w: World, es: seq<Event>)
    decreases |es|
  {
    es == [] || (NoOverlap(w, es[0]) && Alone(Next(w, es[0]), es[1..]))
  }

  /** The stored clock is the high-water mark the latest process last wrote. */
  predicate ClockIsLatest(w: World) {
    w.latest.Some? && w.latest.value in w.procs ==>
      GraceClock in w.store.meta && w.store.meta[GraceClock] == Stamp(Stored(w.procs[w.latest.value].persisted))
  }

  /** The clock row went forward, or is not a time. */
  predicate Forward(m: Meta, n: Meta) {
    GraceClock in m && m[GraceClock].Stamp? ==>
      GraceClock in n && n[GraceClock].Stamp? && n[GraceClock].sec >= m[GraceClock].sec
  }

  /** Truncation to seconds does not move a recorded clock back. */
  lemma WindowIsForward(s: Store, now: int, g: WindowFaults)
    ensures Forward(s.meta, RecordedWindow(s, now, g).0)
    ensures var (m, w) := RecordedWindow(s, now, g);
            w.Some? ==>
              && w.value.start <= w.value.floor && now <= w.value.floor
              && w.value.deadline == w.value.start + GRACE_PERIOD
              && GraceClock in m && m[GraceClock] == Stamp(Stored(w.value.floor))
              && GraceStarted in m && m[GraceStarted].Stamp? && Instant(m[GraceStarted].sec) == w.value.start
  {
  }

  lemma EvaluatedIsForward(m: Meta, r: Runtime, x: Facts)
    requires GraceClock in m && m[GraceClock] == Stamp(Stored(r.persisted))
    ensures var (n, q, _) := Evaluated(m, r, x);
            Forward(m, n) && GraceClock in n && n[GraceClock] == Stamp(Stored(q.persisted))
  {
  }

  lemma BootIsForward(s: Store, b: BootInput)
    ensures var o := Booted(s, b);
            && Forward(s.meta, o.store.meta)
            && (o.runtime.Some? ==> GraceClock in o.store.meta
                                    && o.store.meta[GraceClock] == Stamp(Stored(o.runtime.value.persisted)))
  {
    WindowIsForward(s, b.now, b.window);
    var (m, d) := Decided(s, b.cfg, b.now, b.look, b.window);
    if d.window.Some? {
      EvaluatedIsForward(m, Installed(d.window.value, b.wall), b.facts);
    }
  }

  lemma NextIsForward(w: World, e: Event)
    requires ClockIsLatest(w) && NoOverlap(w, e)
    ensures ClockIsLatest(Next(w, e)) && Forward(w.store.meta, Next(w, e).store.meta)
  {
    match e {
      case Boots(_, b) => BootIsForward(w.store, b);
      case Evaluates(p, x) =>
        if p in w.procs {
          EvaluatedIsForward(w.store.meta, w.procs[p], x);
        }
      case _ =>
    }
  }

  /** Over every history in which processes do not overlap, with any wall clocks, backward ones
      included, the stored grace clock never goes back. */
  lemma {:induction false} ClockNeverGoesBack(w: World, es: seq<Event>)
    requires ClockIsLatest(w) && Alone(w, es)
    ensures ClockIsLatest(After(w, es)) && Forward(w.store.meta, After(w, es).store.meta)
    decreases |es|
  {
    if es != [] {
      NextIsForward(w, es[0]);
      ClockNeverGoesBack(Next(w, es[0]), es[1..]);
    }
  }

  /** The recorded clock is at or past the deadline. */
  predicate Expired(m: Meta) {
    && GraceStarted in m && m[GraceStarted].Stamp? && GraceClock in m && m[GraceClock].Stamp?
    && Instant(m[GraceClock].sec) >= Instant(m[GraceStarted].sec) + GRACE_PERIOD
  }

  /** Once a recorded clock has reached the deadline, no later boot has an MFA grace, whatever
      its wall clock says. */
  lemma ClosedStaysClosed(w: World, es: seq<Event>, b: BootInput)
    requires SaneWorld(w) && ClockIsLatest(w) && Alone(w, es) && Expired(w.store.meta)
    ensures Booted(After(w, es).store, b).decision.window.None?
  {
    ClockNeverGoesBack(w, es);
    StartNeverChanges(w, es);
    WindowIsForward(After(w, es).store, b.now, b.window);
  }

  /** A boot that finds the window closed records a clock that keeps it closed. */
  lemma ClosingIsRecorded(s: Store, now: int, g: WindowFaults)
    requires var w := RecordedWindow(s, now, g).1; w.Some? && !Open(w.value)
    ensures Expired(RecordedWindow(s, now, g).0)
  {
  }

  /** Every graced boot reports between 1 and 30 days left: the time left, rounded up. */
  lemma DaysLeftInRange(s: Store, b: BootInput)
    requires Booted(s, b).decision.window.Some?
    ensures var w := Booted(s, b).decision.window.value;
            && 1 <= DaysLeft(w.floor, w.deadline) <= 30
            && (DaysLeft(w.floor, w.deadline) - 1) * DAY < w.deadline - w.floor <= DaysLeft(w.floor, w.deadline) * DAY
  {
    WindowIsForward(s, b.now, b.window);
    var w := Booted(s, b).decision.window.value;
    DaysInRange(w.floor, w.deadline);
  }

  // ---------------------------------------------------------------------------
  // Overlapping processes

  /** A rolling restart: the process whose clock is behind writes the clock back. */
  lemma OverlapCanTurnBack(w: World, p: Pid, x: Facts, c: int)
    requires p in w.procs && !w.procs[p].ended && !Cached(w.procs[p], x)
    requires GraceClock in w.store.meta && w.store.meta[GraceClock] == Stamp(c)
    ensures var r := w.procs[p];
            var now := GraceNow(r, x);
            !Forward(w.store.meta, Next(w, Evaluates(p, x)).store.meta) <==>
              && now < Instant(c) && now >= r.persisted + MINUTE && now < r.window.deadline
              && Enforced(RequireMfa) !in w.store.meta && !x.enrolled
              && !x.markerFails && !x.enrolledFails && !x.clockFails
  {
  }

  /** A boot that graces MFA unless the window is closed or the marker is there. */
  predicate Eligible(s: Store, b: BootInput) {
    && s.userTable && s.users > 0 && s.metaTable && b.cfg.mfa && b.cfg.mfaImplicit
    && b.look == ReadFaults(false, false, {}) && b.window == NO_WINDOW_FAULTS
  }

  /** With the window expired, an evaluation by a process that is still running lets an eligible
      boot, whose own clock is before the deadline, be graced again if and only if no marker row
      stands, that process's clock is before the deadline and a minute past its last write, and
      nothing fails or ends the grace. */
  lemma OverlapCanReopen(w: World, p: Pid, x: Facts, b: BootInput)
    requires p in w.procs && !w.procs[p].ended && !Cached(w.procs[p], x) && Expired(w.store.meta)
    requires Instant(w.store.meta[GraceStarted].sec) + GRACE_PERIOD == w.procs[p].window.deadline
    requires Eligible(w.store, b) && b.now < w.procs[p].window.deadline
    ensures Booted(w.store, b).decision.window.None?
    ensures var r := w.procs[p];
            var now := GraceNow(r, x);
            Booted(Next(w, Evaluates(p, x)).store, b).decision.window.Some? <==>
              && Enforced(RequireMfa) !in w.store.meta
              && now >= r.persisted + MINUTE && now < r.window.deadline
              && !x.enrolled && !x.markerFails && !x.enrolledFails && !x.clockFails
  {
    OverlapCanTurnBack(w, p, x, w.store.meta[GraceClock].sec);
    var s := Next(w, Evaluates(p, x)).store;
    ExpiredIsClosed(w.store, b);
    if !Forward(w.store.meta, s.meta) {
      EarlierIsOpen(s, b);
    } else if Expired(s.meta) {
      ExpiredIsClosed(s, b);
    }
  }

  lemma ExpiredIsClosed(s: Store, b: BootInput)
    requires Expired(s.meta)
    ensures Booted(s, b).decision.window.None?
  {
    WindowIsForward(s, b.now, b.window);
  }

  lemma EarlierIsOpen(s: Store, b: BootInput)
    requires Eligible(s, b) && !Marked(s.meta, RequireMfa) && Recordable(s, b.window) && InTime(s, b.now)
    ensures Booted(s, b).decision.window.Some?
  {
    GraceExactly(s, b);
  }

  /** A boot that recorded the expiry and went on to store its marker leaves no such opening: in
      every later history no evaluation moves the clock back and no boot is graced. So a window
      that opens again was closed by a boot that died, or failed to write, before its marker. */
  lemma ClosingBootHoldsTheClock(w: World, p: Pid, b: BootInput, es: seq<Event>, q: Pid, x: Facts, later: BootInput)
    requires SaneWorld(w) && b.cfg.mfa && Booted(w.store, b).completes && Booted(w.store, b).decision.window.None?
    requires RequireMfa !in b.markerFaults
             && (Enforced(RequireMfa) in w.store.meta ==> Marked(w.store.meta, RequireMfa))
    ensures var t := After(Next(w, Boots(p, b)), es);
            && Forward(t.store.meta, Next(t, Evaluates(q, x)).store.meta)
            && Booted(t.store, later).decision.window.None?
  {
    EnforcingBootIsLast(w, p, b, RequireMfa, es, later);
    NextKeeps(w, Boots(p, b));
    HistoryKeeps(Next(w, Boots(p, b)), es);
  }

  /** A boot of an upgraded deployment that leaves require_mfa out of its config, with no faults. */
  function UpgradedBoot(now: int, reaches: bool): BootInput {
    BootInput(Config(false, false, false, true, true, false), now, ReadFaults(false, false, {}), NO_WINDOW_FAULTS,
              Checks(false, false, false, false, false, false), ReadFaults(false, false, {}),
              reaches, now, Facts(now, 0, false, false, false, false, false, false), {}, now)
  }

  predicate Untouched(s: Store) {
    && s.userTable && s.users > 0 && s.metaTable
    && Enforced(RequireMfa) !in s.meta && GraceStarted !in s.meta && GraceClock !in s.meta
  }

  /** The first graced boot, at a whole second. */
  lemma FirstGracedBoot(s: Store, sec: int)
    requires Untouched(s)
    ensures var o := Booted(s, UpgradedBoot(Instant(sec), true));
            && o.store.userTable && o.store.users == s.users && o.store.metaTable
            && Enforced(RequireMfa) !in o.store.meta
            && GraceStarted in o.store.meta && o.store.meta[GraceStarted] == Stamp(sec)
            && GraceClock in o.store.meta && o.store.meta[GraceClock] == Stamp(sec)
            && o.runtime == Some(Runtime(Window(Instant(sec), Instant(sec) + GRACE_PERIOD, Instant(sec)), Instant(sec),
                                         false, Some(0), true, Instant(sec)))
  {
    var b := UpgradedBoot(Instant(sec), true);
    GraceExactly(s, b);
    var (m, d) := Decided(s, b.cfg, b.now, b.look, b.window);
    assert d == Decision(false, Some(Window(Instant(sec), Instant(sec) + GRACE_PERIOD, Instant(sec))));
    MarkersLeave(m, {ScimToken}, {}, b.markerNow, RequireMfa);
  }

  /** And the history is there for every upgraded deployment: one server boots graced; a second,
      whose clock is 31 days ahead, records the expiry and dies before its marker; the first
      goes on and writes its clock; a third boot is graced. */
  lemma OverlapHistory(s: Store, sec: int)
    requires Untouched(s)
    ensures var es := [Boots(0, UpgradedBoot(Instant(sec), true)),
                       Boots(1, UpgradedBoot(Instant(sec) + 31 * DAY, false))];
            var w := After(World(s, map[], None), es);
            var x := Facts(Instant(sec) + MINUTE, MINUTE, false, false, false, false, false, false);
            var third := UpgradedBoot(Instant(sec) + 2 * MINUTE, true);
            && Expired(w.store.meta) && Booted(w.store, third).decision.window.None?
            && !Forward(w.store.meta, Next(w, Evaluates(0, x)).store.meta)
            && Booted(Next(w, Evaluates(0, x)).store, third).decision.window.Some?
  {
    var first, second := Boots(0, UpgradedBoot(Instant(sec), true)),
        Boots(1, UpgradedBoot(Instant(sec) + 31 * DAY, false));
    var w0 := World(s, map[], None);
    var w1, es := Next(w0, first), [first, second];
    FirstGracedBoot(s, sec);
    assert es[1..] == [second] && [second][1..] == [];
    var w := Next(w1, second);
    assert After(w, []) == w && After(w1, [second]) == w && After(w0, es) == w;
    SecondBootExpires(w1.store, sec);
    var x := Facts(Instant(sec) + MINUTE, MINUTE, false, false, false, false, false, false);
    OverlapCanTurnBack(w, 0, x, w.store.meta[GraceClock].sec);
    OverlapCanReopen(w, 0, x, UpgradedBoot(Instant(sec) + 2 * MINUTE, true));
  }

  lemma SecondBootExpires(s: Store, sec: int)
    requires s.userTable && s.users > 0 && s.metaTable && Enforced(RequireMfa) !in s.meta
    requires GraceStarted in s.meta && s.meta[GraceStarted] == Stamp(sec) && GraceClock in s.meta
             && s.meta[GraceClock] == Stamp(sec)
    ensures var o := Booted(s, UpgradedBoot(Instant(sec) + 31 * DAY, false));
            && Expired(o.store.meta) && o.store.meta[GraceStarted] == Stamp(sec)
            && Enforced(RequireMfa) !in o.store.meta && o.runtime.None? && !o.completes
            && o.store == s.(meta := o.store.meta)
  {
    assert RequireMfa !in MarkedKeys(s.meta);
  }
}
