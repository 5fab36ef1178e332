# Verified model of Keyorix's key boot, DEK rotation, upgrade grace and supporting cores

Keyorix is a secrets server whose replicas share one PostgreSQL database. Every stored secret is
encrypted under one data encryption key (DEK), which lives wrapped in key files, in one shared key
directory or in one per host. This project models the protocols that keep replicas, key files
and rows together, and the other parts of the server and its tools whose correctness depends on
whole histories, and proves properties of them for every input and every history.

`dafny verify dfyconfig.toml` checks the whole project.

## The parts

**Keys** (`KeyState`, `KeySteps`). The deployment is a state machine. Any number of server
processes, each on some key directory, check that the key files are a whole set, take the presence
lock, record the lock mode, take the key lock, check whether a DEK may be generated, check the key set
again, recover an interrupted rotation, derive the KEK (writing its files, such as `kek.salt`, when
missing), load or generate the DEK, seed or verify the DEK epoch, clear a completed rotation's marker,
release the lock, serve, and insert, replace and delete rows. `admin encryption rotate` checks the key
set, stages a new DEK, fences the epoch, re-encrypts the rows with the new epoch and the redo marker in
one transaction, renames the file and clears the marker. Each database statement or file rename is one
step; a process or the admin can die between any two, and a failing statement that ends the boot is
such a death. Locks can be lost, and the operator can copy the current key set between directories.
Both lock modes (`flock`, `database`) are modelled, and key providers with and without files of their
own beside `dek.key` (the default one has `kek.salt`).

- `KeyAgreement`: what holds of every run whatsoever.
- `KeyGeneration`: what the locks add, as long as none is lost.
- `KeySets`: what the key-set checks add.
- `KeyDurability`, `KeyRestart`: nothing is lost and some directory always starts a server, in every
  *prudent* run. Prudent means: no lock is lost, recovery does not promote a pending DEK other than
  the epoch's, and a rotation on a database without an epoch runs on the DEK the rows are under.
- `KeyOneDirectory`: rotating in one directory only makes the condition on recovery hold of itself, in
  database mode or with a provider that keeps files of its own.
- `KeyLoss`, `KeyLimits`, `KeyLockLoss`: each of these conditions is needed, and what goes wrong
  without it: a stray pending DEK, a rotation without an epoch, a lost key-init lock, a lost presence
  lock.
- `KeyRotation`: when a rotation completes, and what it leaves however it ends.
- `KeyProbe`: the probe of a boot without an epoch, said on the rows.
- `KeyBoot`: the boot as imperative code on key files and rows, proved to be a path of the steps.
- `DekFence`: the write fence of a rotation in real time.

**Upgrade grace** (`Grace`, `GraceRuns`, `GraceBoot`, `GraceRuntime`). ADR-112's grace for the file
checks, `require_mfa` and the SCIM token: decisions as functions of stored rows, histories of boots
and running servers, the imperative code, and the running server's cached answers.

**Connectors** (`Connectors`), **affected packages** (`Affected`), **audit export** (`AuditExport`),
**evidence signature file** (`Evidence`), **clock steps** (`ClockSteps`), **schedulers**
(`Schedulers`), **OIDC discovery** (`Discovery`), **doctor report** (`Doctor`). `Ascii` compares names
with letter case aside.

## Where a promise fails

The code is modelled as it is. Nine promises turn out to need a condition:

1. *A committed rotation is always recovered.* `RecoverInterruptedRotation` promotes whatever
   `dek.key.pending` it finds once the redo marker is there, without comparing it with the epoch. A
   pending file left in a second key directory by a rotation that died before its fence is promoted
   in place of the committed one, the marker goes, and the next recovery in the rotating directory
   discards the only copy of the DEK. `KeyLoss.MispromotionExactlyLoses` gives the exact condition,
   `KeyLoss.TwoDirectoriesCanLose` the history, `KeyLoss.LossIsForever` its finality. The source
   comment at `internal/encryption/service_rotation.go:443` says the decision needs no probing.
   While all rotations run in one directory it cannot happen in database mode, nor with a key
   provider that keeps files of its own, because an interrupted first boot then leaves a partial key
   set that is refused (`KeyOneDirectory.OneDirectoryIsPrudent`). Where neither holds it can
   (`KeyLoss.FlockCanLose`).
2. *A rotation refuses key files that are not the database's.* With no epoch recorded it fences the
   epoch for its own DEK without a probe: `KeyLimits.UnseededFenceExactlyMisleads` for the condition,
   `KeyLimits.StaleRotationMisleads` for the history that reaches it.
3. *A stale replica cannot claim an absent epoch.* The probe looks at the newest 50 secret versions.
   `KeyLimits.StaleReplicaClaimsExactly` says when a stale replica comes to serve,
   `KeyLimits.ProbeTellsUpToLimit` gives rows for which it does.
4. *The grace clock never goes back.* True of processes that do not overlap. A server still running
   with a clock that is behind writes it back (`GraceRuns.OverlapCanTurnBack`), and can so reopen an
   expired window, but only while no enforcement marker is stored (`GraceRuns.OverlapCanReopen` gives
   the exact condition): the boot that recorded the expiry must have died, or failed its marker write.
   `GraceRuns.OverlapHistory` is such a history; `GraceRuns.ClosingBootHoldsTheClock` shows that a
   closing boot that does store its marker rules it out.
5. *A repeated connector resolution gives the same answer.* Not for a failed run with several
   connectors of one name, which the config accepts, when an entry with an unknown project comes
   before one that binds the name: `Connectors.RepeatExactly` is the exact condition,
   `Connectors.DuplicateNamesPassOnRetry` the smallest case.
6. *No admin rotation works beside a server.* A server that loses its presence lock while it boots
   goes on to its crash recovery, which discards the pending file a rotation in the same directory has
   just written; the rotation does not look at that file again before it commits, and the DEK of every
   row is nowhere (`KeyLockLoss.LostPresenceLosesDek`). With no lock lost it cannot happen
   (`KeyDurability.NothingIsLost`).
7. *First-boot generation never overwrites a key file.* True while no lock is lost
   (`KeyGeneration.GenerationNeverOverwrites`); one lost key-init lock is enough for it
   (`KeyLockLoss.LostKeyLockOverwrites`).
8. *An interrupted first boot is simply retried* (`internal/encryption/keymanager_lifecycle.go:458-461`).
   With a provider that keeps files of its own, one that dies between those files and `dek.key` leaves a
   partial set, which every later boot and rotation in that directory refuses
   (`KeyLimits.FirstBootDeathSticks`, `KeySets.PartialSetIsStuck`). The refusal's own text says no
   provisioning path produces such a set.
9. *A running MFA grace has at least a day left.* True exactly while the clock read for the report is
   before the deadline (`GraceRuntime.StatusReports`). A cached answer can report a running grace with
   0 days (`GraceRuntime.CachedReportsZero`).

Where the documentation and the code differ the model follows the code: `docs/multi-replica-keys.md:130-133`
says that a replica whose presence lock was lost keeps serving, but `server/main.go:396-404` shuts it down.

## Model

| member | source | states |
|---|---|---|
| KeyAgreement.ServingReplicasAgree | server/key_dir_lock.go:55-114 | in every run from a quiet state, with crashes, restarts, rotations, lost key locks and any key directories, two replicas that finished boot and hold presence cache the same DEK, the one the epoch records |
| KeyAgreement.ModeIsRecordedBeforeKeys | server/boot_core.go:42-57 | in database mode the mode row is stored before any replica reaches its key lock, in every run |
| KeyAgreement.LossIsFinal | server/main.go:396-404 | in every run, a replica that observes the loss of its presence lock or of its single_writer holder lock never serves again in that process and never exits with status 0 |
| KeyAgreement.ExitStatusTells | server/lock_loss.go:21-39 | in every run, a serving replica ends with status 0 exactly after a signal and with status 1 exactly after an observed loss, and serves the same DEK exactly until one of these or a crash |
| KeyAgreement.ObservedLossIsReal | server/lock_loss.go:27-39 | in every run from a quiet state, a replica can observe a loss only if it did lose one of the two locks |
| KeyAgreement.LossCanBeObserved | server/main.go:396-404 | in every run, a process that lost either lock, while booting or serving, can observe it whenever it serves after that |
| KeyAgreement.MarkerExactly | internal/encryption/service_rotation.go:503-541 | in every state, the redo marker is set by a rotation's commit alone, and goes exactly after a promotion, at the end of a rotation, or where no pending file is left and the epoch is the DEK in use |
| KeyAgreement.DeathLeavesDisk | internal/encryption/service_rotation.go:141-172 | in every state a process with its presence lock, and a rotation, can die, and its death changes no key file and no row |
| KeyAgreement.ValuesAreAsRequested | internal/encryption/service_rotation.go:124-172 | over every run the stored values are exactly what the clients' insertions, replacements and deletions make of them: no boot, recovery, rotation, crash or lost lock reorders, drops or repeats one, moves one to another table, or encrypts one stored in the clear. That the sweep keeps the value of a row it re-encrypts is how the model defines re-encryption, not a result |
| KeyGeneration.GenerationNeverOverwrites | server/boot_encryption.go:69-96 | in either lock mode, while no lock is lost, the rename that ends first-boot generation never replaces a wrapped DEK |
| KeyGeneration.GenerationNeverBesideData | server/key_dir_lock.go:137-186 | in database mode no run generates a DEK beside a recorded epoch or a secret version, however the check and the write interleave with other replicas |
| KeyGeneration.AtMostOneDekGenerated | server/key_dir_lock.go:66-79 | in database mode at most one DEK is ever generated, by any number of replicas on any directories, if none dies between generating and seeding |
| KeyGeneration.EmptyDirectoryIsRefused | server/key_dir_lock.go:46-64 | once an epoch is recorded, a replica on an empty key directory never writes a key file and never caches a DEK, in every run, lost locks and crashes included |
| KeyLimits.SeedingMustPrecedeRelease | server/key_dir_lock.go:73-79 | from every state just after a generation, releasing the lock before seeding lets a second replica cache a second DEK while the first still caches its own |
| KeyLimits.DeathBeforeSeedingLeavesTwo | server/key_dir_lock.go:66-79 | from every such state, a death before seeding and a replica on an empty directory leave two key files with different DEKs |
| KeySets.KekPrecedesDek | internal/encryption/keymanager_lifecycle.go:345-369 | over every run, lost locks included, no directory comes to hold a DEK, active or pending, without the files of its KEK |
| KeySets.NoLonePending | internal/keyfiles/consistency.go:201-221 | with a provider that keeps files of its own, recovery never meets a pending DEK with no DEK beside it |
| KeySets.PartialSetIsStuck | internal/keyfiles/consistency.go:161-217 | over every run, until a key set is copied in, a directory with the KEK's files and no DEK stays as it is, no server starts on it, and none that had started and no rotation gets past its check |
| KeyLimits.FirstBootDeathSticks | internal/encryption/keymanager_lifecycle.go:448-495 | from every empty directory, a first boot that dies once it has the KEK's files leaves such a directory, and no later run boots from it until a key set is copied in |
| KeyLockLoss.LostKeyLockOverwrites | internal/serverguard/keyinit.go:92-150 | from every empty deployment, whatever the key provider: one lost key-init lock and otherwise prudent steps overwrite the key file of a replica that already recorded its epoch and wrote a secret, which is then lost for good |
| KeyLockLoss.LostPresenceLosesDek | internal/encryption/service_rotation.go:456-462 | from every database-mode deployment at rest: one lost presence lock during a boot and otherwise prudent steps end with every row under a DEK that is on no disk and in no memory |
| KeyDurability.NothingIsLost | internal/encryption/service_rotation.go:38-217 | over every prudent run of servers, rotations, crashes and key copies, all encrypted rows are under the one DEK the epoch names, and that DEK is on disk where recovery finds it |
| KeyRotation.RotationCompletesExactly | internal/encryption/service_rotation.go:38-217 | from every state in which a rotation may start, whatever died before: some rotation in the directory ends with rows, epoch and active file on the new DEK, nothing pending and no marker, if and only if the key set is whole, recovery leaves a DEK, the epoch is absent or names it (fenced or not), and every encrypted row is under it |
| KeyRotation.RotationCanBeRetried | internal/encryption/dek_epoch.go:404-409 | with nothing to recover and the rows under the directory's DEK, a rotation completes if and only if there is no epoch, or it is that DEK, or it is the fence a dead rotation of it left |
| KeyRotation.RotationIsAllOrNothing | internal/encryption/service_rotation.go:124-172 | at every point of every rotation, so wherever it dies: either rows and epoch are on the new DEK and it is the active file or pending under the marker, or rows and active file are as recovery left them and the epoch names what it named |
| KeyRotation.UnfitRotationIsRefused | internal/encryption/dek_epoch.go:404-409 | otherwise no rotation commits, no row changes, and an epoch of another DEK stays as it is |
| KeyRotation.FailedRotationIsUndone | internal/encryption/dek_epoch.go:468-484 | a rotation may fail at any point between its staged file and its commit; it then drops its staged file, unless the outcome of the commit is unknown, and puts an absent epoch back to absent and any other to plain, or leaves its fence where that write fails too |
| KeyRotation.RefusedFenceLeavesNothing | internal/encryption/keymanager_rotation.go:110-120 | a rotation whose fence is refused, because the epoch is of another DEK, leaves rows and epoch as they were and no staged file |
| KeyRotation.LiftedFenceStopsRotation | internal/encryption/dek_epoch.go:446-466 | once a server that lost its presence lock has lifted the fence, in no run, lost locks included, does that rotation commit, and its failure leaves the epoch it finds |
| KeyRestart.CanAlwaysRestart | docs/multi-replica-keys.md:302-308 | whatever died and wherever, from the state a prudent run leaves at rest some key directory has a boot that ends serving the DEK of every encrypted row, with the rows unchanged |
| KeyRestart.CopiedKeySetBoots | server/key_dir_lock.go:160-186 | from every deployment at rest, copying the current key set to a directory, empty or partial, lets a server on it boot and serve the epoch's DEK, with the rows unchanged |
| KeyOneDirectory.OneDirectoryIsPrudent | internal/encryption/service_rotation.go:465-487 | in database mode, or with a provider that keeps files of its own: if every rotation runs in one directory, on the rows' DEK when there is no epoch, and no lock is lost, no recovery in any run promotes a DEK the epoch does not name |
| KeyOneDirectory.OneDirectoryLosesNothing | docs/multi-replica-keys.md:302-308 | so nothing is lost and some directory always boots, in every such run, with no condition on recovery |
| KeyLoss.LossIsForever | internal/encryption/service_rotation.go:444-488 | once the epoch's DEK is on no disk where recovery finds it and in no memory, every further run, prudent or not, keeps it so and no replica with presence serves |
| KeyLoss.MispromotionExactlyLoses | internal/encryption/service_rotation.go:477-487 | in every reachable state, a server's recovery that promotes a pending DEK the epoch does not name leads to the loss of the current DEK if and only if no directory holds the current DEK as its active file |
| KeyLoss.RotationMispromotionExactlyLoses | internal/encryptionops/dek.go:197-204 | the same of the recovery a rotation opens with |
| KeyLoss.TwoDirectoriesCanLose | internal/encryption/service_rotation.go:465-487 | from every deployment at rest with the key set in two directories, prudent steps lead to that recovery and that loss |
| KeyLoss.FlockCanLose | server/boot_encryption.go:92-96 | in flock mode with `dek.key` the only required key file, from every deployment at rest with an empty second directory, a first boot that dies there and one rotation elsewhere lead to that loss |
| KeyLimits.UnseededFenceExactlyMisleads | internal/encryption/dek_epoch.go:382-417 | a fence on a database with no epoch lets a server come to serve a DEK some row is not under, if and only if the rows are not all under the DEK of the rotation's directory |
| KeyLimits.StaleRotationMisleads | internal/encryption/dek_epoch.go:382-417 | from every sound deployment at rest without an epoch, a rotation in any directory with a DEK reaches that fence through prudent steps |
| KeyProbe.ProbeRefusesExactly | internal/encryption/dek_epoch.go:324-351 | for all rows: the probe refuses a DEK if and only if some encrypted secret version is under another one, with no encrypted secret version and fewer than 50 secret versions after it |
| KeyLimits.ProbeExact | internal/encryption/dek_epoch.go:321-351 | only the DEK of the rows passes the probe, if and only if some encrypted secret version has fewer than 50 secret versions after it, or nothing is encrypted |
| KeyLimits.StaleReplicaClaimsExactly | internal/encryption/dek_epoch.go:268-296 | from every deployment at rest without an epoch and with a stale key file in some directory, prudent steps lead to a server that claims the epoch and serves a DEK the rows are not under, if and only if the probe window does not reach an encrypted row |
| KeyLimits.ProbeTellsUpToLimit | internal/encryption/dek_epoch.go:329-338 | an encrypted secret version stops deciding the probe exactly when 50 unencrypted ones follow it |
| KeyBoot.ProbeNewest | internal/encryption/dek_epoch.go:324-351 | the loop over the newest 50 secret versions passes a DEK exactly when the encrypted secret version it comes to, if any, is under it, whatever rows of other tables lie between |
| KeyBoot.Replica.Boot | server/boot_encryption.go:92-134 | the whole boot, from key files and rows, computes Outcome; it succeeds exactly when CanBoot says so (generation check, whole key set, epoch guard) and the key-init lock was not lost meanwhile, and then its cached DEK is the recorded epoch |
| KeyBoot.BootIsARun | server/key_dir_lock.go:55-92 | in any deployment the boot is a run of the protocol that changes nobody else; it serves exactly when the generation check and the key-set check let it through, the epoch guard accepts the DEK recovery leaves and the lock was kept, changes no row, takes the redo marker away exactly when it promoted or cleared it, and a boot refused before recovery leaves the key files unchanged |
| DekFence.EpochWatch.AllowWrite | internal/encryption/dek_epoch.go:148-161 | a write passes exactly when a confirming poll started at most five seconds ago, despite the offset-by-one encoding of "fenced" |
| DekFence.EpochWatch.Poll | internal/encryption/dek_epoch.go:163-192 | a failed read keeps the last confirmation, this DEK's fingerprint renews it from the start of the poll, anything else fences, each said outright |
| DekFence.FenceExact | internal/encryption/dek_epoch.go:27-49 | over all timings, polls, read failures and aborted rotations, no row lands under the old DEK after the sweep if and only if no write takes the fence wait minus the staleness bound (5 s) or longer from encryption to INSERT |
| DekFence.HealthyReplicaWrites | internal/encryption/dek_epoch.go:163-206 | over all timings, as long as no rotation fences, a replica may encrypt at every moment at most five seconds after the start of a poll that was answered and stored |
| DekFence.LiftedReplicaWrites | internal/encryption/dek_epoch.go:468-484 | the same after a rotation that gave up and lifted its fence |
| DekFence.FencedReplicaStops | internal/encryption/dek_epoch.go:181-191 | a poll answered while a rotation stands stops the replica once stored: nothing is encrypted until that rotation is lifted |
| GraceRuns.GraceExactly | server/adr112_grace.go:84-136 | a grace is granted exactly to a deployment with users, without the marker, with the key left out of the config, when every read (for MFA every write too) succeeds and the window is open; any fault means no grace |
| GraceRuns.BootRefusedExactly | server/startup_checks.go:111-311 | a boot nothing else stops completes if and only if no enforced file check (validation; key and secret files unless unsafe ones are allowed; TLS keys unless the check is on by default) and no SCIM token check finds a problem, or a grace covers it, the token floor having none; it softens exactly what a grace covered, and one that does not complete writes no marker |
| GraceRuns.MarkerRatchet | server/adr112_grace.go:229-238 | once a key's marker is stored, after any history no boot and no fresh evaluation of a running server gets a grace for that key |
| GraceRuns.MarkerRowIsKept | server/adr112_grace.go:346-354 | over every history a marker row keeps its first value, empty or not, except that an end of the MFA grace whose look at it failed may write it again |
| GraceRuns.StartNeverChanges | server/adr112_grace.go:149-157 | the recorded grace start is the same after any history |
| GraceRuns.ClockNeverGoesBack | server/adr112_grace.go:159-183 | over every history of non-overlapping processes with any wall clocks, the stored grace clock never goes back, despite truncation to seconds at each write |
| GraceRuns.ClosedStaysClosed | server/adr112_grace.go:118-136 | once a recorded clock has reached the deadline, no later boot has an MFA grace, whatever its clock |
| GraceRuns.ClosingIsRecorded | server/adr112_grace.go:131-133 | a boot that finds the window closed has stored a clock that keeps it closed |
| GraceRuns.DaysLeftInRange | server/startup_settings.go:27-30 | every graced boot reports between 1 and 30 days: the time left rounded up to whole days |
| GraceRuns.EnforcingBootIsLast | server/adr112_grace.go:305-341 | a boot that completes with the key in force and nothing softened stores its marker (unless the write fails or an empty value is in the way), and no later boot is graced for the key |
| GraceRuns.RuntimeEndIsForGood | internal/core/mfa_upgrade_grace.go:217-233 | a running server that ends the grace stores the marker (same exceptions), and after any history no boot has an MFA grace |
| GraceRuns.FreshInstallIsNeverGraced | server/adr112_grace.go:3-20 | a deployment whose boot saw no users and wrote the marker is never graced for that key, that boot included |
| GraceRuns.SoftenedBootLeavesMarker | server/startup_checks.go:154-161 | no boot that turned a failure into a warning, or leaves its MFA grace running, touches that key's marker |
| GraceRuns.OverlapCanTurnBack | internal/core/mfa_upgrade_grace.go:202-209 | an evaluation moves the stored clock back exactly when its own clock is behind the stored one, a minute past its last write, and the grace is running without faults |
| GraceRuns.OverlapCanReopen | internal/core/mfa_upgrade_grace.go:40-43 | with the window expired, an evaluation lets an eligible boot be graced again if and only if no marker row stands, its own clock is before the deadline and a minute past its last write, and nothing fails or ends the grace |
| GraceRuns.ClosingBootHoldsTheClock | server/adr112_grace.go:317-341 | after a boot that found the window closed and stored its marker, in every history no evaluation moves the clock back and no boot is graced |
| GraceRuns.OverlapHistory | internal/core/mfa_upgrade_grace.go:202-209 | for every upgraded deployment the history exists: a graced server, a boot 31 days ahead that dies before its marker, an evaluation, a boot graced again |
| GraceBoot.Database.Inspect | server/adr112_grace.go:268-303 | for every order in which the markers are read: undecided exactly when a read it needs fails, fresh exactly without a user table or users, otherwise upgraded with exactly the keys whose marker row is not empty |
| GraceBoot.Boot.Run | server/main.go:167-319 | the boot as imperative code (decision, file and SCIM checks, arming with one evaluation, marker loop) leaves exactly the rows, flags and runtime of Booted, which the histories are about, on every fault pattern and marker order |
| GraceRuntime.RunningIsRecent | internal/core/mfa_upgrade_grace.go:35-38 | over every sequence of calls, an answer "running" rests on facts read without a fault less than 15 seconds earlier |
| GraceRuntime.AnswerExactly | internal/core/mfa_upgrade_grace.go:168-215 | after any sequence of calls, an evaluation that finds the grace neither ended nor cached says "running" exactly when its own facts permit it, ends it exactly at the deadline, at a marker it reads or at an enrolled administrator, and writes the clock exactly when it runs a minute or more after the last write and can |
| GraceRuntime.ClockCannotBeSetBack | internal/core/mfa_upgrade_grace.go:160-164 | the clock of every evaluation is the latest of the wall clock then, the wall clock at install plus running time, and the recorded floor plus running time |
| GraceRuntime.EndIsFinal | internal/core/mfa_upgrade_grace.go:217-233 | once ended, every later answer is "not running", whatever rows and clocks say |
| GraceRuntime.StatusReports | internal/core/mfa_upgrade_grace.go:131-144 | over every sequence of calls, a report of a running grace gives 1 to 30 days if and only if the clock it reads is before the deadline, and 0 otherwise; an uncached answer was found before the deadline, and any answer comes less than 15 s of running time after it |
| GraceRuntime.CachedReportsZero | internal/core/mfa_upgrade_grace.go:166-175 | for every window open at install, an evaluation just before the deadline and a report a second later give "running, 0 days" |
| Connectors.Find | internal/storage/store/local_secrets.go:150-166 | the first live project of that name, letter case aside, and none exactly when there is none |
| Connectors.NamedExactly | internal/storage/store/local_secrets.go:150-166 | a project is of that name exactly when it is live and the two agree letter by letter, ASCII case aside |
| Connectors.Storage.ResolveOwnership | server/wire_connect.go:47-101 | the loop collects exactly the owners, problems and bindings of Collect, and returns a map only without problems |
| Connectors.EachConnectorOnce | server/wire_connect.go:44-101 | each connector is reported at most once and in order, the map covers exactly the names not reported, and with distinct names the two add up to the config |
| Connectors.ProblemsExactly | server/wire_connect.go:33-46 | with distinct names, whatever the order of the config, a connector is a problem exactly when it is project-scoped and its binding or project cannot be read, its bound project is gone or renamed, or it has no binding and the name is unknown or the binding cannot be written |
| Connectors.OwnersExactly | server/wire_connect.go:49-93 | every other connector is resolved: a platform one to the platform, a bound one to its bound project whatever its entry now says, a new one to the first live project of the configured name |
| Connectors.ResolvedIsBound | server/wire_connect.go:62-79 | every project-scoped connector that resolved has a binding row to that project, live and under the recorded name |
| Connectors.Pinned | server/wire_connect.go:27-46 | across any history of boots, faults, renames, deletions, name reuse and config edits that leaves the binding row alone, a successful boot resolves the connector to the project first bound, which is live under its recorded name |
| Connectors.RepeatChangesNothing | server/wire_connect.go:82-96 | a successful run repeated gives the same map and writes no binding |
| Connectors.RepeatExactly | server/wire_connect.go:47-101 | a faultless run repeated, problems included, gives the same answer and writes no binding, if and only if no entry with an unknown project and no binding precedes the first entry that binds its name |
| Connectors.RepeatReportsTheSame | server/wire_connect.go:47-101 | in particular with distinct names |
| Connectors.DuplicateNamesPassOnRetry | server/wire_connect.go:60-79 | the smallest case: a failed boot with two entries of one name passes when repeated |
| Connectors.KeySetMismatch | server/wire_connect.go:138-155 | the duplicate-free symmetric difference, empty exactly when the two name sets coincide |
| Connectors.Wire | server/wire_connect.go:308-341 | ownership is installed exactly when every connector resolved and the manager's names are the configured ones, and then covers just those |
| Affected.NeedsFullFallback | scripts/ci-test-quick.py:35-43 | a full run exactly when some changed file is a module file or lies under `.github/` or `internal/testutil/` |
| Affected.Dir | scripts/ci-test-quick.py:90 | the path up to its last slash, "." when there is none |
| Affected.ChangedExactly | scripts/ci-test-quick.py:78-100 | a package counts as changed exactly when some changed path ends in `.go`, lies in the module (for the root one, outside `cli/` and `operator/`), and its directory is that of the package |
| Affected.Select | scripts/ci-test-quick.py:106-120 | the one pass, in any iteration order, computes Selection |
| Affected.Run | scripts/ci-test-quick.py:71-123 | the script from the changed files to the printed set |
| Affected.SelectionExactly | scripts/ci-test-quick.py:21-30 | the printed packages are exactly the listed ones whose test build reaches a changed package in the import graph |
| Affected.SelectionDistributes | scripts/ci-test-quick.py:106-120 | the selection of a union of changes is the union of the selections |
| AuditExport.Export | cli/cmd/audit.go:329-382 | with --all the loop ends and emits every event after the start exactly once in order, for every page size; the printed cursor resumes where it stopped |
| AuditExport.PageExactly | server/http/handlers/audit.go:254-348 | a page holds the first events with an id above the cursor, in log order: the limit of them or all there are, and the id of its last one as cursor |
| AuditExport.PullsLoseNothing | server/http/handlers/audit.go:254-348 | however the log grows between pulls, the pages pulled so far are exactly the events from the start to the cursor, and what follows the cursor completes them |
| Evidence.RoundTripExactly | cli/cmd/compliance.go:341-347 | for one-line texts and a filename that is not blank, with any number of extra newlines, parsing undoes writing if and only if both are trimmed and the signature is not empty |
| Evidence.BareSignature | cli/cmd/compliance.go:336-347 | a bare one-line signature parses to the pack's base name and the trimmed signature |
| Evidence.ParsedExactly | cli/cmd/compliance.go:341-347 | every file of two or more lines parses to its first two lines trimmed if neither is blank, whatever follows, and otherwise to the base name and the whole text trimmed |
| Evidence.CrlfRoundTrip | cli/cmd/compliance.go:341-347 | trimmed texts written with Windows line endings are read back |
| Evidence.TrimExactly | cli/cmd/compliance.go:342-346 | trimming drops white space alone, at the two ends alone, and leaves none there |
| ClockSteps.Watch | server/clock_warnings.go:105-122 | each tick warns "backward" exactly when the wall clock is 30 s or more behind where the monotonic clock puts it, "forward" exactly when 30 s or more ahead |
| ClockSteps.StepsTelescope | server/clock_warnings.go:105-122 | the steps add up to the whole wall change minus the whole monotonic change |
| ClockSteps.QuietDriftIsBounded | server/clock_warnings.go:66-88 | n ticks that log nothing let less than n times 30 s of drift go by |
| ClockSteps.QuietDriftIsTight | server/clock_warnings.go:66-88 | and every drift within that bound can go by in silence |
| Schedulers.DriverIsSound | server/scheduler_run.go:43-95 | over every run of any jobs with any outcomes, panics and cancellation point: the counter is the number of loops not returned, a zero counter means all returned, each finished tick recorded one outcome and a panic a failure, and no loop ends before the cancellation |
| Schedulers.RecordIsHistory | server/scheduler_run.go:66-84 | over every run the outcomes recorded for a job are those its ticks returned, with a failure for each panic, in order, and its ticks and panics are as many as there were |
| Schedulers.DelayIsKept | server/scheduler_run.go:37-95 | over every run a loop without a first delay may tick at once, one with it only after it, a loop ends without a tick exactly when cancelled during the delay, and once cancelled a waiting or delayed loop may end |
| Schedulers.CancelledDelayNeverTicks | server/scheduler_run.go:54-62 | a loop cancelled during its first delay never ticks, in any continuation |
| Discovery.Follow | server/wire_sso.go:119-135 | a chain is followed to its end exactly when every redirect of it is allowed |
| Discovery.FollowedExactly | server/wire_sso.go:119-135 | the redirect-by-redirect rule amounts to: every URL of the chain is on the first one's host, letter case aside, and none after an https one is without it |
| Discovery.AcceptedExactly | server/wire_sso.go:57-98 | a document from an https issuer is accepted if and only if every URL of its chain, of any length, is https on the issuer's host, its endpoints are there, it names the issuer, and its key URL parses and is on that host |
| Doctor.Collect | cli/cmd/doctor.go:131-194 | for every configuration, transport and server answer the report holds the seven checks once each in the fixed order, each with the status its predecessors and its own answer give it, the four counters partition them, and OK is exactly that none failed |
| Doctor.CleanMeansLoggedIn | cli/cmd/doctor.go:97-129 | skipped checks alone never make a clean exit: it means exactly that the server answered healthy, its API answered with a version this CLI may use, it accepted the token, no certificate is unverified or expired, the clock is within five minutes and the audit chain is not broken |
| Doctor.CleanWarnsExactly | cli/cmd/doctor.go:257-534 | in a clean report, exactly what each check warns of (plain http, a certificate with under 30 days, an old or skewed version, a clock over 30 s off, a pending setup step, an unproven audit chain) and what it skips |
| Doctor.SkippedHasAReason | cli/cmd/doctor.go:176-194 | in every report a check that needs the server is skipped only after an earlier one failed, the clock and audit also when the server tells nothing |
| Doctor.TlsExactly | cli/cmd/doctor.go:257-313 | the TLS check looks whether or not the server answered; a failed handshake with one that did not answer is left to the reachability check |

## Left out

- Cryptography and key wrapping: a DEK stands for its own fingerprint, taken to be collision free; the files of the KEK are there or not, their contents and a race of two processes writing them are not modelled.
- The key-set manifest: the refusal of a set mixed from several generations and the finishing of an interrupted rotate-kek. All replicas are taken to have one key provider, whose files are all written together.
- KeySteps: the rotation's own flock on its key directory, which adds refusals only in flock mode beside a server that lost its presence lock.
- KeyAgreement.ValuesAreAsRequested: a value is one number per row; soft deletion, restoring and the purge's choice of rows are client requests like any other.
- SQLite, where the DEK epoch does not apply and one process holds the database.
- Key-changing admin commands other than `rotate` (rotate-kek, migrate-provider, restore, upgrade-aad); rotate-kek and rewrap keep the DEK.
- `--force`, and what the single_writer lock guards; only its loss is modelled.
- KeySteps: the probe and the insert of an absent epoch are one step. Rows are written only by replicas that verified an epoch, so a row that appears in between comes with an epoch, and the insert then changes nothing.
- KeySteps: in the model's `CopyKeys` the operator copies only the current key set, not over a pending file and not under a rotation or a process that is preparing its key.
- DekFence: replicas and the rotation are taken to measure elapsed time at one rate; one replica is modelled, and rows of several do not interact.
- The timeout of the key-init lock wait, which ends the boot like a death before the lock.
- Times outside the four-digit years RFC 3339 can write.
- The text of log lines and errors, except the lists of offenders.
- The contents of the start-up checks (file modes and owners, token shapes): each is a yes or no input.
- Connectors.Find: lowers ASCII letters only, as SQLite does; PostgreSQL lowers by locale.
- Connector type wiring and drift warnings, which change no ownership.
- Affected.SelectionExactly: relies on `go list` telling the truth about imports and on unlisted packages reaching no changed one, stated as its premise.
- AuditExport.Export: rows that fail to decode in CSV mode are skipped by the original; events here always decode.
- Evidence.RoundTripExactly: a blank filename falls back to the pack's base name, which may be that very name; the equivalence is stated for names that are not blank.
- Discovery.Follow: host names are compared by ASCII letter case; the original folds Unicode too.
- The legal-hold check and first-pass jitter: each would only add a member that says what one body says.
- Doctor.Collect: certificate expiry is compared in whole nanoseconds; the original divides hours as a float.
- Doctor.CleanMeansLoggedIn: takes the CA file to be the same at both of its reads, as the original's comment does.
- The bodies of scheduler jobs, REST and gRPC handlers, TLS, SIEM, SAML, WebAuthn and license wiring.
