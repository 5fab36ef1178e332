/** The values the key protocol works on: DEKs, key directories, the database rows that
    name a DEK, server processes and the admin rotation. A DEK stands for its own
    fingerprint (the epoch stores an HMAC of the key, taken to be collision free). */
module KeyState {
  import opened Options

  type Dek = nat
  type DirId = nat
  type Pid = nat

  /** system_metadata["dek.epoch"]: no row, a fingerprint, or "rotating:" and a fingerprint. */
  datatype Epoch = Absent | Current(dek: Dek) | Rotating(dek: Dek)

  /** One key directory: dek.key, dek.key.pending, and whether the files the key provider keeps
      beside them (kek.salt, a wrapped KEK) are there. */
  datatype KeyDir = KeyDir(active: Option<Dek>, pending: Option<Dek>, kek: bool)

  const EMPTY_DIR := KeyDir(None, None, false)

  /** InspectKeySet: all of the required key files are there, or none. A pending file is not
      one of them. `kekFiles`: the configured provider keeps files of its own. */
  predicate Whole(kekFiles: bool, k: KeyDir) {
    kekFiles ==> (k.active.Some? <==> k.kek)
  }

  /** A stored value. `under` is None for a row written while encryption was disabled. */
  datatype Row = Row(payload: nat, under: Option<Dek>, secretVersion: bool)

  /** `marker` is the redo marker dek_rotation.promote_pending; `modeRecorded` is the
      key_dir_lock.mode row. Rows are in id order. */
  datatype Db = Db(epoch: Epoch, marker: bool, rows: seq<Row>, modeRecorded: bool)

  /** storage.encryption.key_dir_lock. */
  datatype Mode = Flock | Database

  datatype Lock = KeyInitLock | DirLock(dir: DirId)

  /** Where a server process is in its boot. Every phase from InLock to Guarded runs under
      the key lock. */
  datatype Phase =
    | Looked                // passed the key-file consistency check, before any lock
    | Present               // holds the shared presence lock
    | Recorded              // the mode row is written
    | InLock                // holds the key lock
    | Allowed               // key generation, if it will be needed, is permitted
    | Consistent            // ReconcileKeySet found the key set whole
    | Promoted              // recovery renamed the pending DEK; the redo marker is still there
    | Settled               // crash recovery is done
    | Derived               // the KEK is derived, its provider's files written if missing
    | Missing               // Initialize found no wrapped DEK
    | Staged                // first-boot generation wrote dek.key.pending
    | Loaded(dek: Dek)      // Initialize cached the DEK
    | Seeded(dek: Dek)      // an absent epoch was seeded
    | Verified(dek: Dek)    // the epoch is this DEK
    | Guarded(dek: Dek)     // a completed rotation's marker was cleared, or left
    | Ready(dek: Dek)       // boot finished: serving
    | Stopping(lockLost: bool)
    | Exited(code: nat)

  /** `generated`: this process produced a first-boot DEK. `writerLost`: the single_writer
      holder lock, if it took one, has ended. */
  datatype Proc = Proc(dir: DirId, phase: Phase, generated: bool, writerLost: bool)

  /** `keyorix-server admin encryption rotate`, holding the exclusive presence lock. */
  datatype Admin =
    | NoAdmin
    | Opened
    | Examined
    | Promoting
    | Recovered
    | HoldsKey(from: Dek)
    | MarkerChecked(from: Dek)
    | PendingWritten(from: Dek, into: Dek)
    | Fenced(from: Dek, into: Dek, hadEpoch: bool)
    | Committed(into: Dek)
    | Renamed(into: Dek)

  /** `kekFiles`: the key provider keeps files beside dek.key (the default one does: kek.salt).
      `adminDir` is the key directory the admin works in. `next` is the next DEK the random
      source yields; `firstBoot` counts the DEKs first-boot generation has produced. */
  datatype State = State(
    mode: Mode,
    kekFiles: bool,
    db: Db,
    dirs: map<DirId, KeyDir>,
    procs: map<Pid, Proc>,
    presence: set<Pid>,
    locks: map<Lock, Pid>,
    admin: Admin,
    adminDir: DirId,
    next: Dek,
    firstBoot: nat)

  function DirOf(s: State, d: DirId): KeyDir {
    if d in s.dirs then s.dirs[d] else EMPTY_DIR
  }

  /** The key lock a process on directory `d` takes: the advisory lock of the database, or
      the flock of its own key directory. */
  function LockFor(mode: Mode, d: DirId): Lock {
    if mode.Database? then KeyInitLock else DirLock(d)
  }

  function Unlock(locks: map<Lock, Pid>, p: Pid): map<Lock, Pid> {
    map l | l in locks && locks[l] != p :: locks[l]
  }

  /** The process has taken its presence lock and not ended. */
  predicate Live(ph: Phase) {
    !ph.Looked? && !ph.Exited?
  }

  predicate Critical(ph: Phase) {
    ph.InLock? || Preparing(ph) || ph.Loaded? || ph.Seeded? || ph.Verified? || ph.Guarded?
  }

  /** The phases between the generation check and the cached DEK. */
  predicate Preparing(ph: Phase) {
    || ph.Allowed? || ph.Consistent? || ph.Promoted? || ph.Settled? || ph.Derived? || ph.Missing? || ph.Staged?
  }

  /** The phases in which the process has compared its DEK with the epoch and may write. */
  predicate Confirmed(ph: Phase) {
    ph.Verified? || ph.Guarded? || ph.Ready?
  }

  predicate CachesDek(ph: Phase) {
    ph.Loaded? || ph.Seeded? || Confirmed(ph)
  }

  // ---------------------------------------------------------------------------
  // Rows

  /** The rows of secret_versions, in id order (soft-deleted ones included). */
  function SecretVersions(rows: seq<Row>): seq<Row> {
    if rows == [] then []
    else
      var n := |rows| - 1;
      SecretVersions(rows[..n]) + if rows[n].secretVersion then [rows[n]] else []
  }

  const PROBE_LIMIT: nat := 50

  /** The DEK of the newest encrypted row among the `limit` newest of `rows`. */
  function NewestEncrypted(rows: seq<Row>, limit: nat): Option<Dek> {
    if rows == [] || limit == 0 then None
    else
      var n := |rows| - 1;
      if rows[n].under.Some? then rows[n].under else NewestEncrypted(rows[..n], limit - 1)
  }

  /** probeDecryptsNewestSecretVersion: passes when nothing encrypted is in the window. */
  predicate Probe(rows: seq<Row>, own: Dek) {
    var newest := NewestEncrypted(SecretVersions(rows), PROBE_LIMIT);
    newest.None? || newest.value == own
  }

  predicate HasSecretVersion(rows: seq<Row>) {
    exists i :: 0 <= i < |rows| && rows[i].secretVersion
  }

  /** Every encrypted row is under `k`. */
  predicate AllUnder(rows: seq<Row>, k: Dek) {
    forall i :: 0 <= i < |rows| && rows[i].under.Some? ==> rows[i].under.value == k
  }

  predicate AnyEncrypted(rows: seq<Row>) {
    exists i :: 0 <= i < |rows| && rows[i].under.Some?
  }

  function ReencryptRow(r: Row, k: Dek): Row {
    if r.under.Some? then r.(under := Some(k)) else r
  }

  /** The re-encryption sweep: every encrypted row moves to `k`. */
  function Sweep(rows: seq<Row>, k: Dek): seq<Row> {
    seq(|rows|, i requires 0 <= i < |rows| => ReencryptRow(rows[i], k))
  }

  /** What a client's request does to the stored values. */
  datatype Change =
    | Insert(payload: nat, secretVersion: bool)
    | Replace(at: nat, payload: nat)
    | Delete(at: nat)

  predicate Applies(c: Change, n: nat) {
    c.Insert? || c.at < n
  }

  /** The rows after a server that caches `k` carried it out. */
  function Changed(rows: seq<Row>, c: Change, k: Dek): seq<Row>
    requires Applies(c, |rows|)
  {
    match c
    case Insert(payload, sv) => rows + [Row(payload, Some(k), sv)]
    case Replace(i, payload) => rows[i := Row(payload, Some(k), rows[i].secretVersion)]
    case Delete(i) => rows[..i] + rows[i + 1..]
  }

  /** What a row is, its DEK aside. */
  datatype Value = Value(payload: nat, encrypted: bool, secretVersion: bool)

  function Values(rows: seq<Row>): seq<Value> {
    seq(|rows|, i requires 0 <= i < |rows| => Value(rows[i].payload, rows[i].under.Some?, rows[i].secretVersion))
  }
}
