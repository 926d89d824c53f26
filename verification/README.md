# Patch manager: verified model

A Dafny model of the stateful worker of the Linux patch manager and of its
package repository tooling, with proofs about whole runs.
`dafny verify dfyconfig.toml` checks everything.

| modules | what they model |
|---|---|
| `JobRows`, `JobRollup`, `JobProtocol` | host rows and job rows, the SQL statements that change them, the two rollups, and the dispatcher, poller, scanners, failure handler and WS relay as interleaved steps that carry stale reads |
| `JobSafety`, `JobProgress`, `JobRetries` | what every interleaving keeps and reaches, and the retry budget |
| `JobHands`, `JobWindows`, `JobLiveness`, `JobOutcome`, `JobStranding` | exactly what can still happen: when a host can be in the queue, whether it and the parent can end, and what can strand it |
| `JobLimits` | runs that show what is not guaranteed, for every job that can start |
| `JobStore`, `SelfUpgrade` | the same routines as they are written, with statements and loops, tied to the protocol |
| `AuditChain`, `AuditLog`, `AuditWriters` | the audit hash chain, its verifier and repairer, and its lock-serialised writers |
| `Bytes`, `ArArchive`, `ControlFields`, `TarArchive`, `GzipMembers`, `ApkSigning` | the byte-level codecs: ar, control stanzas, tar end marks, gzip members (RFC 1952), re-signed .apk files |
| `Versions`, `PacmanSelection`, `RepoSync` | version order, the pacman selection loop, the agent sync loop |
| `MaintenanceScheduler`, `HealthPoller` | open windows and automatic jobs; health hysteresis and revocation-list audit events |

Conventions: an SQL statement is one atomic step; what agents, clocks,
downloads and libraries answer is an arbitrary parameter. SHA-256 (section 6.2
of FIPS 180-4) is a function parameter that is never assumed to be free of
collisions. Where the code does less than its comments promise, the model
follows the code:

- A slot that reaches or crosses midnight never opens, though the scheduler's
  header says it is open during its slot (`CrossingMidnightNeverOpens`,
  `OpenDuringSlots`).
- A scheduler tick that checks for a job on a later day than it asked for open
  windows repeats the job of one opening, and nothing else does
  (`RepeatsExactlyPastMidnight`, `DelayedTickRepeatsJob`).
- With two hosts or more, and only then, a finished job can be left running: by a
  stale rollup (`FinishedJobsEndIffOneHost`, `StaleRollupLeavesRunning`), or by a
  mix of succeeded and cancelled hosts (`MixedEndLeavesRunning`). After a restart
  of the worker even a job of one host can (`RestartLosesEnd`).
- A host can be stranded for good: running, by a restart between the dispatch's
  write of `running` and the storing of the agent's job id; or queued, when no
  queued host of the job can have an open window again. `EveryHostCanEnd` tells
  exactly when it is, `SteadyRunsCanStrand` and `RestartsCanStrand` for which jobs
  that can happen.
- A comment at the health-check gate takes the window as open when none is
  configured; the query answers that it is closed.
- Two concurrent failures of a host can count as one (`FailureCountCanBeLost`), so
  that a host can fail any number of times (`FailuresAreUnbounded`); what the count
  still tells is exact (`CountTellsFailures`).
- A silent agent is never given up on if the poll interval is zero and the timeout
  is not (`SilenceIsGivenUpOn`).
- Epochs are dropped, not compared (`EpochsAreIgnored`), and numbers mixed with
  words make version order cyclic (`CyclesWithWords`, `LatestExactlyWithoutDetours`).
- A control value whose first line break follows a blank is not reproduced
  (`BlankEndedIsLost`).
- The audit chain protects the run-together text of a row, not the borders of
  its fields (`FieldBordersAreNotHashed`).

## Model

| member | source | states |
|---|---|---|
| JobRollup.ExecutorRollupMeaning | crates/pm-worker/src/job_executor.rs:1698-1752 | the executor's counts decide running iff some host is open, succeeded or cancelled iff all are, failed iff none is open and some failed, nothing for no hosts or a succeeded and cancelled mix |
| JobRollup.RelayRollupMeaning | crates/pm-worker/src/ws_relay.rs:643-680 | the relay's rollup is failed iff some host failed |
| JobRollup.RollupsAgree | crates/pm-worker/src/ws_relay.rs:618-697 | on non-empty, all-ended hosts the two rollups agree iff some host failed or none was cancelled |
| JobSafety.ExecuteOk | crates/pm-worker/src/job_executor.rs:285-573 | any step of any in-flight work, with whatever stale reads it carries, keeps the row and parent invariants |
| JobSafety.ParentEndsWithItsHosts | crates/pm-worker/src/job_executor.rs:1698-1788 | in every reachable state an ended parent means all hosts ended, and its status is one of the two rollups of the rows as they are |
| JobSafety.EndedRowsAreFrozen | crates/pm-worker/src/job_executor.rs:1522-1561 | an ended host row keeps every column but the agent's job id over any continuation |
| JobSafety.RowsEndOnce | crates/pm-worker/src/job_executor.rs:974-1008 | over any run exactly one write ends a row and exactly one rollup follows it |
| JobSafety.EndsAnnouncedOnce | crates/pm-worker/src/ws_relay.rs:496-609 | over any run the browser is notified of the end of a row at most once, and only after it |
| JobSafety.OneRelayPerHost | crates/pm-worker/src/ws_relay.rs:100-179 | the tracked set, checked row by row after the query, keeps two relays from serving one host at the same time |
| JobProgress.FinishedJobsEnd | crates/pm-worker/src/job_executor.rs:1729-1788 | without restarts, all hosts ended, no rollup in flight, and no mix of succeeded and cancelled: the parent has ended iff no stale rollup to running was written last |
| JobProgress.SingleHostJobsEnd | crates/pm-worker/src/job_executor.rs:1698-1788 | without restarts, a job of one host that has ended, with no rollup in flight, has an ended parent |
| JobProgress.NoRowIsStranded | crates/pm-worker/src/job_executor.rs:844-1971 | every unfinished row satisfies, now or once its time has come, the WHERE clause of the queue scan (while its window is open), the retry, poll or timeout scan; JobLiveness tells what becomes of the others |
| JobWindows.QueuedExactly | crates/pm-worker/src/job_executor.rs:218-258 | in every state that the invariants allow, some continuation has a host in the queue at a time iff its row or a task in flight gives it a way there by then |
| JobLiveness.EveryHostCanEnd | crates/pm-worker/src/job_executor.rs:212-573 | in every reachable state, restarts included, some continuation ends a host iff it is not stuck: running, not accepted, in no hands, with no timeout; or queued, in no hands, not immediate, nobody fetching, and no host of the job able to be queued while its window is open |
| JobStranding.RestartsCanStrand | crates/pm-worker/src/job_executor.rs:452-463 | some run strands a host iff no timeout scan looks after the job, or it is not immediate and the host has no window from some time on |
| JobStranding.SteadyRunsCanStrand | crates/pm-worker/src/job_executor.rs:218-258 | some run without a restart strands a host iff the job is not immediate and none of its hosts has a window from some time on |
| JobOutcome.NeverStarts | crates/pm-worker/src/job_executor.rs:218-258 | a job that is neither immediate nor has a window ahead stays as it was inserted |
| JobLiveness.StuckRun | crates/pm-worker/src/job_executor.rs:218-258 | a stuck row never changes again, whatever happens |
| JobOutcome.EveryParentCanEnd | crates/pm-worker/src/job_executor.rs:1698-1788 | in every reachable state the parent can still end iff no host is stuck, while one is open; and iff it has ended or a rollup that ends it is in flight, once all have ended |
| JobOutcome.FinishedJobsEndIffOneHost | crates/pm-worker/src/job_executor.rs:1754-1788 | without restarts, every finished quiescent run has an ended parent iff the job has one host or cannot start |
| JobRetries.RetryCountBounded | crates/pm-worker/src/job_executor.rs:1572-1683 | retry_count stays within 0 to 3 under any interleaving |
| JobRetries.CountTellsFailures | crates/pm-worker/src/job_executor.rs:1572-1683 | over any run the count never exceeds the failures; for an open host they differ by what its retries lost, and are equal iff every retry counted on from the count it found |
| JobRetries.FourFailuresAtMost | crates/pm-worker/src/job_executor.rs:1572-1683 | if no two failure handlers of a host are between read and write together, at most four failures take effect, all are counted, and the count does not fall before success |
| JobLimits.FailureCountCanBeLost | crates/pm-worker/src/job_executor.rs:1572-1640 | for every job that can start, a run in which two failures of an open host counted as one retry |
| JobLimits.FailuresAreUnbounded | crates/pm-worker/src/job_executor.rs:1572-1640 | for every job that can start and every number, a run in which a host failed so often and is still open |
| JobLimits.CountCanCatchUp | crates/pm-worker/src/job_executor.rs:1572-1640 | for every job that can start, a run in which a late retry lets the count come nearer to the failures again |
| JobOutcome.StaleRollupLeavesRunning | crates/pm-worker/src/job_executor.rs:1754-1788 | for every job of two hosts or more that can start, a run without restarts with all hosts ended, nothing in flight and the parent running |
| JobOutcome.RestartLosesEnd | crates/pm-worker/src/job_executor.rs:1675-1683 | for every job that can start, a run with a restart after which all hosts have ended and the parent never can |
| JobLimits.MixedEndLeavesRunning | crates/pm-worker/src/job_executor.rs:1733-1752 | the same for every job of two hosts or more that can start without a stale rollup, one host cancelled and the others succeeded |
| JobStore.Database.SyncJobStatus | crates/pm-worker/src/job_executor.rs:1698-1788 | an open host makes the job running; among ended ones a failure fails it, all succeeded or all cancelled end it so, a mix leaves it |
| JobStore.Database.HandleHostFailure | crates/pm-worker/src/job_executor.rs:1572-1683 | an open row backs off one, five or thirty minutes, and fails for good at three retries, when the parent follows its hosts; an ended row and all other rows stay |
| JobStore.Database.FinishSuccess | crates/pm-worker/src/job_executor.rs:1504-1562 | an open row becomes succeeded, without retries or error, and the parent follows its hosts; an ended row changes nothing |
| JobStore.Database.UpdateParentJobStatus | crates/pm-worker/src/ws_relay.rs:618-697 | the parent ends iff all hosts have, as failed iff one has failed |
| JobStore.Database.ProcessEvent | crates/pm-worker/src/ws_relay.rs:469-609 | an event changes its own open row and no other, the parent ends with the last host, and it is announced iff it took effect |
| JobStore.Database.RetryPendingJobs | crates/pm-worker/src/job_executor.rs:1863-1930 | exactly the due rows go back to the queue, each dispatched once, in order |
| JobStore.Database.FailTimedOutJobs | crates/pm-worker/src/job_executor.rs:1945-2042 | exactly the overdue rows fail, and rolling up after each is the same as rolling up once at the end |
| JobStore.FailureIsARun | crates/pm-worker/src/job_executor.rs:1572-1683 | the undisturbed failure handler is a run of the protocol's steps |
| JobStore.EventIsARun | crates/pm-worker/src/ws_relay.rs:469-609 | an undisturbed relay event is a run of the protocol's steps |
| SelfUpgrade.ReconnectConfirm | crates/pm-worker/src/job_executor.rs:1400-1501 | the loop acts on the first deciding sample and on no other, and has decided once the timeout is waited out |
| SelfUpgrade.SilenceDecides | crates/pm-worker/src/job_executor.rs:1446-1495 | on a silent agent the loop decides exactly when turns times interval reach the timeout |
| SelfUpgrade.SilenceIsGivenUpOn | crates/pm-worker/src/job_executor.rs:1446-1495 | a silent agent is given up on sooner or later iff the interval is positive or the timeout zero |
| SelfUpgrade.UpgradeFailsOnlyAfterBudget | crates/pm-worker/src/job_executor.rs:1073-1212 | a poll alone never fails an upgrade; the loop fails it only on a fatal sample or with the whole budget waited out |
| AuditChain.LastHashPinsHistory | crates/pm-core/src/audit.rs:209-220 | intact chains ending in the same hash have the same length and record the same hashes and texts, or exhibit a collision |
| AuditChain.EqualTextsEqualHashes | crates/pm-core/src/audit.rs:318-368 | intact chains over equal texts have equal hashes throughout |
| AuditChain.FieldBordersAreNotHashed | crates/pm-core/src/audit.rs:205-220 | two different events with the same hash, whatever the hash function |
| AuditLog.Table.VerifyIntegrity | crates/pm-core/src/audit.rs:290-378 | reports intact iff every row is linked and hashed right, with the errors in row order |
| AuditLog.ErrorsNameBrokenRows | crates/pm-core/src/audit.rs:318-368 | the report names exactly the broken rows |
| AuditLog.Table.RepairIntegrity | crates/pm-core/src/audit.rs:404-538 | leaves the repaired chain, reports no remaining error, and counts exactly the rows whose columns changed |
| AuditLog.RepairIsUnique | crates/pm-core/src/audit.rs:464-514 | the repaired chain is the only intact one with the same ids and events |
| AuditLog.RepairKeepsIntactPrefix | crates/pm-core/src/audit.rs:464-514 | every intact prefix survives a repair unchanged |
| AuditLog.NoFixIffIntact | crates/pm-core/src/audit.rs:464-514 | a repair counts no fix iff the log was intact |
| AuditLog.RepairTwice | crates/pm-core/src/audit.rs:404-538 | a second repair changes nothing and counts nothing |
| AuditWriters.LogStaysIntact | crates/pm-core/src/audit.rs:183-249 | from an intact log, it stays intact after every step and only grows |
| AuditWriters.IntactIffStartedOrRepaired | crates/pm-core/src/audit.rs:404-538 | under any interleaving from any log in id order, it is intact at the end iff it was at the start or some repair committed; rows keep their ids and events |
| AuditWriters.LockIsNeeded | crates/pm-core/src/audit.rs:183-196 | if the lock did not exclude, two appends could break the chain |
| ArArchive.ParseAr | crates/pm-core/src/repo_metadata.rs:104-134 | the loop returns the entries the format defines, on any bytes |
| ArArchive.EntriesAreSlices | crates/pm-core/src/repo_metadata.rs:110-132 | on arbitrary bytes entries are in-order, disjoint slices behind their own headers |
| ArArchive.TruncationYieldsPrefix | crates/pm-core/src/repo_metadata.rs:110-132 | a truncated archive yields a prefix of the entries |
| ArArchive.RoundTrip | crates/pm-core/src/repo_metadata.rs:104-134 | parsing a written archive returns its entries, for all names up to 16 bytes and sizes below 10^10 |
| ControlFields.ParseControlFields | crates/pm-core/src/repo_metadata.rs:155-182 | the line loop computes the parse defined on the lines of the text |
| ControlFields.ParsedFieldsOk | crates/pm-core/src/repo_metadata.rs:155-182 | keys come out plain, values trimmed, every further line a continuation |
| ControlFields.RoundTrip | crates/pm-core/src/repo_metadata.rs:650-653 | parse, print in any order, parse again gives the same fields iff no break in a value follows a carriage return and no first break a blank |
| ControlFields.TightTextsSurvive | crates/pm-core/src/repo_metadata.rs:650-653 | texts whose lines end in no blank always survive |
| ControlFields.BlankEndedIsLost | crates/pm-core/src/repo_metadata.rs:172-179 | a concrete text that does not survive |
| TarArchive.StripTarEof | crates/pm-core/src/repo_metadata.rs:1478-1497 | from 1024 bytes on, the strip removes trailing zero blocks until none is left |
| TarArchive.StripIs | crates/pm-core/src/repo_metadata.rs:1482-1496 | that result is unique, and what the strip returns |
| TarArchive.StripTwice | crates/pm-core/src/repo_metadata.rs:1478-1497 | stripping is idempotent on all inputs |
| TarArchive.EndMarkHides | crates/pm-core/src/repo_metadata.rs:1237-1244 | an archive with its end mark hides whatever follows it |
| TarArchive.StrippedContinues | crates/pm-core/src/repo_metadata.rs:1237-1249 | stripped archive then anything reads as entries then that, for all continuations, iff the last entry's last block is not all zero |
| GzipMembers.FindGzipStreamBoundaries | crates/pm-core/src/repo_metadata.rs:1404-1471 | the loop returns the scan's offsets, or an error iff there are none |
| GzipMembers.OffsetsRise | crates/pm-core/src/repo_metadata.rs:1408-1422 | on arbitrary bytes offsets rise strictly and each is a header's place |
| GzipMembers.ScanShifts | crates/pm-core/src/repo_metadata.rs:1408-1464 | what is found from a place on depends only on the bytes from there on |
| GzipMembers.FindsMembers | crates/pm-core/src/repo_metadata.rs:1404-1471 | on concatenated members the scan finds exactly their cumulative offsets |
| ApkSigning.ResignApk | crates/pm-core/src/repo_metadata.rs:1306-1390 | a success is one new signature member over the signed part, then the old body; each error has its exact cause |
| ApkSigning.ControlChecksum | crates/pm-core/src/repo_metadata.rs:448-469 | the checksum is the digest of the second member, up to the third or the end |
| ApkSigning.ResigningKeepsParts | crates/pm-core/src/repo_metadata.rs:1325-1382 | on any bytes re-signing keeps the control member, all that follows it, and what is signed |
| ApkSigning.ResigningMovesOffsets | crates/pm-core/src/repo_metadata.rs:1380-1382 | only the first member's length changes; all later offsets move by the same amount |
| ApkSigning.ResigningTwice | crates/pm-core/src/repo_metadata.rs:1306-1390 | re-signing a re-signed package changes nothing |
| ApkSigning.PartsOfMembers | crates/pm-core/src/repo_metadata.rs:1320-1333 | in a package of members the control is the second, and the signed part is it or everything from it on |
| ApkSigning.ResignsMembers | crates/pm-core/src/repo_metadata.rs:1380-1382 | a package of members stays one, with only the first replaced |
| ApkSigning.SignatureThenControl | crates/pm-core/src/repo_metadata.rs:1374-1382 | unpacked, the signature entries are followed by whatever comes next, iff the last block is not all zero |
| ApkSigning.ShortSignature | crates/pm-core/src/repo_metadata.rs:1363-1378 | for signatures of at most 512 bytes that means empty or not all zero |
| Versions.CompareVersions | crates/pm-core/src/version.rs:26-47 | the early-return loop computes the order of segments with missing ones as zero |
| Versions.OrderFlips | crates/pm-core/src/version.rs:26-47 | on all versions the two directions are opposite |
| Versions.OrderIsTransitive | crates/pm-core/src/version.rs:26-47 | versions with numbers in the same places are totally preordered |
| Versions.NumericVersionsAreAlike | crates/pm-core/src/version.rs:30-37 | versions of 64-bit numbers always have numbers in the same places, whatever their lengths |
| Versions.CyclesWithWords | crates/pm-core/src/version.rs:33-42 | some word closes a cycle with two numbers, equal ones included, iff the first is not the greater but its text comes later |
| Versions.VersionCycle | crates/pm-core/src/version.rs:26-47 | 9 before 10 before 1a before 9 |
| Versions.ZeroSuffixChangesNothing | crates/pm-core/src/version.rs:30-32 | appending .0 to any version changes no comparison |
| Versions.EpochsAreIgnored | crates/pm-core/src/version.rs:54-61 | a numeric epoch changes no comparison |
| PacmanSelection.SelectLatest | crates/pm-core/src/repo_metadata.rs:1541-1571 | both maps hold, for the same names, the data and path of one picked file |
| PacmanSelection.LaterNotGreater | crates/pm-core/src/repo_metadata.rs:1547-1566 | for any versions, no later file of the name exceeds the picked one |
| PacmanSelection.PicksFirstLatest | crates/pm-core/src/repo_metadata.rs:1547-1566 | among comparable versions the first of the greatest is picked |
| PacmanSelection.PicksLatest | crates/pm-core/src/repo_metadata.rs:1531-1571 | among comparable versions none exceeds the picked one |
| PacmanSelection.LatestExactlyWithoutDetours | crates/pm-core/src/repo_metadata.rs:1541-1571 | every scan of any of the files selects a version that none exceeds iff no three versions of the name make a detour: one not after a second, that before a third, and that before the first |
| PacmanSelection.ComparableMakesNoDetour | crates/pm-core/src/repo_metadata.rs:1547-1566 | versions with numbers in the same places make no detour |
| PacmanSelection.OrderOfScanDoesNotMatter | crates/pm-core/src/repo_metadata.rs:1541-1571 | scanning the same comparable files in another order picks an equal version |
| PacmanSelection.SelectedNotLatest | crates/pm-core/src/repo_metadata.rs:1547-1566 | with a word among the numbers an earlier file can exceed the picked one |
| RepoSync.DetectDistro | crates/pm-core/src/repo_sync.rs:306-339 | a format is detected iff the name is a package file's |
| RepoSync.LookedForWherePut | crates/pm-core/src/repo_sync.rs:695-714 | a file is looked for where the import put it iff its name, without dots and repeated slashes, is a single one |
| RepoSync.RunSyncCycle | crates/pm-core/src/repo_sync.rs:586-670 | the nested loops process the assets of all releases in order |
| RepoSync.EveryAssetCounted | crates/pm-core/src/repo_sync.rs:586-670 | synced plus skipped is the number of assets, synced packages are the imported downloads in order, each other download left an error |
| RepoSync.DownloadedOrInPlace | crates/pm-core/src/repo_sync.rs:609-630 | a package is left undownloaded only if it is recorded with a digest and its file is in place |
| RepoSync.SyncedNotDownloadedAgain | crates/pm-core/src/repo_sync.rs:609-626 | with one cycle's packages stored, a later cycle over any releases downloads none of them |
| RepoSync.NothingLeftToDo | crates/pm-core/src/repo_sync.rs:586-670 | after a cycle without errors the next over the same releases skips everything and changes nothing |
| MaintenanceScheduler.OpenHasStarted | crates/pm-worker/src/maintenance_scheduler.rs:95-128 | an open window's cycle has started |
| MaintenanceScheduler.OpenDuringSlots | crates/pm-worker/src/maintenance_scheduler.rs:12-16 | a daily, weekly or monthly window is open exactly during the slots of its days iff they end before midnight, or it has no days |
| MaintenanceScheduler.WeeklyHasDays | crates/pm-worker/src/maintenance_scheduler.rs:113-119 | a weekly window has days iff its day is 0 to 6 |
| MaintenanceScheduler.DailyOpensSometime | crates/pm-worker/src/maintenance_scheduler.rs:107-112 | a daily window ever opens iff its wrapped end is after its start |
| MaintenanceScheduler.CrossingMidnightNeverOpens | crates/pm-worker/src/maintenance_scheduler.rs:107-126 | a recurring slot shorter than a day that reaches midnight never opens |
| MaintenanceScheduler.JobTable.AutoCreatePatchJobs | crates/pm-worker/src/maintenance_scheduler.rs:93-282 | the loop inserts a job for exactly the open windows with patches, no job in the cycle and an accepted insert |
| MaintenanceScheduler.AutoJobsOncePerCycle | crates/pm-worker/src/maintenance_scheduler.rs:190-258 | over any run, an automatic job is created only if its host and window have had no job since the start of the cycle; if no tick straddles midnight that cycle has started |
| MaintenanceScheduler.RepeatsExactlyPastMidnight | crates/pm-worker/src/maintenance_scheduler.rs:190-258 | after any run, on a clock that does not run backwards, an opening gets a second job iff the window is selected with patches and an accepted insert, recurs, and is checked on a later day |
| MaintenanceScheduler.TickServesWindows | crates/pm-worker/src/maintenance_scheduler.rs:149-258 | after a tick every selected window with pending patches has a job in its cycle, if its insert succeeded |
| MaintenanceScheduler.DelayedTickRepeatsJob | crates/pm-worker/src/maintenance_scheduler.rs:190-231 | a tick delayed past midnight creates a second job for one opening |
| HealthPoller.Host.PollHealth | crates/pm-worker/src/health_poller.rs:145-403 | the counter after one poll, when the status is unreachable and when healthy, the list state kept, and a change logged iff there is one |
| HealthPoller.CountsUnreachable | crates/pm-worker/src/health_poller.rs:417-426 | the counter is the number of unreachable polls since the last healthy one |
| HealthPoller.StatusAfterPolls | crates/pm-worker/src/health_poller.rs:417-478 | unreachable iff the list is invalid or this poll is unreachable and at least the third since a healthy one; healthy iff answered with a good enough list |
| HealthPoller.TrailLeadsToStored | crates/pm-worker/src/health_poller.rs:487-563 | replaying the logged changes, each from where the last led, gives the stored list state |

## Left out

- HTTP, TLS, WebSocket and SQL plumbing: agents' answers are arbitrary inputs, statements do not fail.
- Web routes that create or cancel jobs: a job starts with queued rows and only the worker changes it.
- Safety gates and requests of the job kinds (reboot, patch, rollback): one arbitrary agent answer each.
- The HTTP fallback of the WS relay: it delivers a subset of the events the relay may already get.
- Host concurrency limits and the order in which spawned work starts: any order is allowed.
- JobStore.Database.FailTimedOutJobs: does not model other writers between a timeout and its rollup; `JobProtocol` does, with the rollup as separate work.
- A host's windows are a fixed set of times; that users change them while a job is open is not modelled. The NOTIFY of an immediate job may come at any time.
- A restart of the worker happens between statements and drops everything in flight at once.
- JobProgress.FinishedJobsEnd: does not cover runs with a restart, after which it fails (`RestartLosesEnd`).
- JobRetries.FourFailuresAtMost: has no bound for concurrent handlers of one host, as there is none (`FailuresAreUnbounded`).
- SelfUpgrade.ReconnectConfirm: takes each version sample as landed, not yet or fatal; how version texts are normalised is not modelled.
- Error messages are constructors or arbitrary text, not their wording.
- Cryptography, compression and tar header layout: parameters with the stated assumptions.
- The JSON and timestamp round trip of audit rows through PostgreSQL: the stored fields are the hashed strings.
- AuditLog.Table.RepairIntegrity: does not model failing statements, after which the code reports counts without a verdict.
- ArArchive.ParseAr: reads names and sizes as ASCII; undecodable bytes and blanks beyond ASCII in a header are not modelled.
- ControlFields.RoundTrip: does not include the file name, size and checksum lines appended after the fields.
- GzipMembers.FindsMembers: a member is one the decoder reads to its end and no further, whatever follows; that gzip data is such a member is not proved.
- ApkSigning.ResigningTwice: assumes a deterministic signature and a compressor that writes one member.
- ApkSigning.ResignApk: whether the control member has a data hash is a parameter; the temporary file and rename are not modelled.
- Manager packages, release fetching, temporary files and metadata generation of a sync cycle.
- RepoSync.SyncedNotDownloadedAgain: holds for names that are a single one; for others the code looks in another place.
- RepoSync.LookedForWherePut: takes a parent directory on a path as a name; where it leads depends on the directories there are.
- RPM, pacman and apk field extraction, pruning of stale packages, XML and text templates: they would add only easy members.
- MaintenanceScheduler.AutoJobsOncePerCycle: for ticks that straddle midnight it does not say that the job's cycle has started, which fails; the session time zone is UTC and windows are fixed.
- HealthPoller.CountsUnreachable: does not model the 32-bit width of the counter, which two thousand million failures in a row would exceed.
- HealthPoller.Host.PollHealth: does not model system information, versions and signing-key columns, nor the refresh listener that writes health without hysteresis.
- Reports, e-mail, authentication, the certificate authority and the frontend.
