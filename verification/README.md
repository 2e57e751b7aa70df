# Verified model of the IRIS control plane

IRIS stages software images onto network devices. Its control plane keeps a few
durable stores that crashes, retries and concurrent writers must not corrupt, and a
few fast paths that must agree with a simple definition. This project models those
parts in Dafny and proves what they promise.

| files | part of the system |
|---|---|
| `IoxJournal`, `IoxShape`, `IoxRuns`, `IoxEvents`, `IoxCapabilities` | the compare-and-set journal of an IOx signature-verification change inside a deployment record, and the one-use capabilities of its events |
| `DeploymentRecords`, `RecordLineage`, `RecordAcceptance`, `RecordAdmission`, `RecordEffects`, `RecordRuns`, `RecordJournals`, `RecordWitnesses`, `RecordStore` | the deployment record store: lifecycle, activation, scheduled admission, startup recovery |
| `PolicyRows` | `CatalogStore.set_policy` and the identity of transfer plans |
| `AssignmentProtocol`, `AssignmentRuns`, `AssignmentRows`, `AssignmentService` | scheduled and manual assignment over two stores that are not written together |
| `Quarantine` | hash verdicts, the quarantine they start, the actions that follow and how it is released |
| `TokenRefresh` | catalog token rotation and recovery under lost responses |
| `RefreshFlight` | the single-flight hash refresh and its coverage generations |
| `AuditIndex`, `AuditReads`, `AuditMeaning`, `AuditTrail`, `AuditAnswers`, `AuditPages`, `AuditPageMeaning` | the incremental audit index, filtered reads, histogram, prune and cursor paging |
| `Bencode`, `BencodeRoundTrip`, `BencodeCanonical`, `BencodeReencode`, `BencodeLenient`, `BencodeCodec` | the bencode codec of BEP 3 |
| `ApiRateLimit`, `DeviceLimiter` | the aggregate and the per-device token buckets |
| `TextOrder`, `Blocklist` | derivation of the seeder's blocklist |
| `Common` | option and result types, text and order helpers |

Each part has three layers: value types and step functions that follow the source
branch by branch; lemmas about every call, every run or every interleaving of those
steps; and, where the source updates objects in place, classes and loops proved
against the step functions. What a call answers and writes is also stated a second
time, told from its arguments and the stored data alone, so that no result rests on the
step function it is about. A lock is one atomic step, an atomic file replacement is
one durable write, a crash may fall between any two durable writes, random ids come
from a source of values never used before, clocks are parameters, and float times are
`real`. What other code decides (peer policy evaluation, how a JSON line parses,
whether a transcript index agrees, the state of the instruction keys) is a parameter,
so every result holds for all its answers.

Findings that come out of the proofs rather than out of the documentation:

- The journal's shape recheck adds exactly two conditions to what the event
  branches accept: evidence dated no later than the clock, and retained transcripts
  (`IoxShape.ShapePreserved`).
- The check made of the whole store before every write, size and count caps and the
  transcript loader aside: when the store is in order it never refuses a lifecycle call,
  so that each one is accepted exactly under the conditions its branches test, plus a
  clock in integer range where recovery has a note to write. To journal calls it does
  add conditions, and besides the two above these are all of them (`RecordAcceptance`,
  `RecordLineage.CleanupAccepted`): the first read has to be well shaped; an event after
  which the journal newly holds its board, and a cleanup obligation, need a board that
  no other record's journal holds; and a cleanup obligation needs a record that no
  record names as its predecessor.
- Opening a journal does not reserve its board, so two records can open one on the same
  board. Once the first intends its disable, the second's own intent passes every check
  of the event and is refused by the whole-store check
  (`RecordAcceptance.HeldBoardRefusesEvent`,
  `RecordWitnesses.RefusedDisableIsReachable`).
- The lineage check refuses a cleanup obligation exactly when some record, even a
  removed one, names the record as its predecessor
  (`RecordLineage.CleanupIntentLineage`). A comment in
  `server/deployment_records.py:989-992` says that a removed successor no longer
  constrains the predecessor it handed back; after one admit-and-retire cycle that
  predecessor can take no cleanup obligation at all
  (`RecordLineage.RemovedSuccessorBlocksCleanup`), and seven calls on an empty store
  lead there (`RecordWitnesses.BlockedCleanupIsReachable`).
- Re-encoding a decoded value does not always reproduce its bytes, although
  `server/bencode.py` says so of a decoded `info` dictionary: it does so exactly for
  canonical input (`BencodeReencode.ReencodesIffCanonical`, with the dictionary
  `d1:ai007ee` as the counterexample, `BencodeReencode.LenientDictionary`).
- A quarantine cannot finish while a row that holds the image also names an image no
  longer in the catalog, because the rewrite of that row is refused. Such a row comes
  about by deleting an image that only a device outside the fleet is assigned
  (`server/gui_images.py:83-134` asks live devices only). It is reached in five steps
  (`QuarantineStuck.StuckIsReachable`) and every later apply run leaves it so until
  somebody rewrites the row, publishes the missing image again, or releases, deletes
  or republishes the quarantined one (`QuarantineStuck.StaysIncomplete`).
- An incremental audit index does not always equal one built from scratch. Its entries,
  garbage count and position do (`AuditIndexProofs.IncrementalIsFromScratch`), but its
  remembered head, which `server/audit.py:186` calls the first 512 bytes of the file, is
  only what the refresh that first saw a complete line saw of them. The two are equal exactly when that refresh
  saw at least 512 bytes or all there is now
  (`AuditIndexProofs.IncrementalEqualsScratch`); two appends of a newline are an input
  where they differ (`AuditIndexProofs.ShortHead`). A shorter head also recognises
  fewer replacements of the file (`AuditIndexProofs.ShortHeadMissesRewrite`).
- Reads and histograms give the same answer with and without an index exactly when the
  trail does not end in an unterminated line that is an event they would take
  (`AuditAnswers.AnswersAgree`, `AuditAnswers.TalliesAgree`).

## Model

| member | source | states |
|---|---|---|
| IoxJournal.MergeTranscriptRefs | server/deployment_records.py:1734-1765 | the merge loop computes the specified fold over the incoming references |
| IoxShape.MergeIsUpdateThenAppend | server/deployment_records.py:1734-1765 | a merge is accepted iff every incoming reference is well formed, comes once, only grows and all fit; then known references stay in place with their newest counters and new ones are appended |
| IoxShape.ShapePreserved | server/deployment_records.py:1928-2053 | an event its branch accepts maps a well-shaped journal to a well-shaped one iff its evidence is not dated after the clock and its transcripts are retained |
| IoxShape.MonotoneClockIsTimely | server/deployment_records.py:545-709 | a clock that has not moved back and evidence no later than it suffice for the dating condition |
| IoxShape.BeginShape | server/deployment_records.py:1778-1844 | a new journal is well shaped iff its initial read is not dated ahead |
| IoxRuns.RunPersists | server/deployment_records.py:1891-2100 | along every run of accepted events the revision grows by one each, the initial observation and binding never change, a confirmation once written stays, terminal phases are never left, and every journal is well shaped |
| IoxRuns.RestoreIsOwned | server/deployment_records.py:1928-2053 | restore is intended or completed only after an enabled initial read, an enabled pre-disable read, a disable confirmed against that very command, and a probe that still read disabled |
| IoxRuns.DisableConfirmedOnce | server/deployment_records.py:1928-2053 | no run confirms a disable twice |
| IoxRuns.RunIsAuthorized | server/deployment_records.py:1917-1927 | along every run an accepted event carries a capability iff it enters disabled-confirmed, restore-intent or restored, leaves the ownership probe for relinquished, or repeats a disable intent; and the capability is bound to the controller, record, transaction, board, revision, phase, event and one of the attempts of that very step |
| IoxRuns.CleanupMovesNoPhase | server/deployment_records.py:2102-2150 | a cleanup step moves no evidence and no phase, so nothing guarded is reached without a capability |
| IoxEvents.BranchByPhase | server/deployment_records.py:1928-2053 | told phase by phase: which events each phase takes on which evidence, where they lead and which fields they leave |
| IoxEvents.EventGoesThrough | server/deployment_records.py:1891-2100 | an event is accepted by a well-shaped journal iff its evidence is well formed, it names the journal as it stands, its transcripts continue the known ones and fit, its phase takes it, the clock and revision are in range, evidence is timely and retained, and it carries the right capability or none; and the journal it leaves is given field by field |
| IoxEvents.CleanupGoesThrough | server/deployment_records.py:2102-2150 | the cleanup compare-and-set succeeds iff the journal is named as it stands, has ended, and has the opposite value; only that value, the revision and the time change |
| IoxEvents.BeginOpens | server/deployment_records.py:1808-1836 | a journal is opened bound to all its arguments, at revision zero, with the first read as its only evidence |
| IoxRuns.CapabilityUsedOnce | server/deployment_records.py:310-340 | no two steps of a run are authorized by the same capability |
| IoxCapabilities.BurntOnFirstUse | server/deployment_records.py:288-340 | once a token has been presented, even for an event that was refused, no later presentation of it is accepted, in any run of issuing, presenting and invalidating |
| IoxCapabilities.InvalidatedForGood | server/deployment_records.py:342-350 | a capability whose attempt was invalidated is never accepted afterwards |
| IoxCapabilities.AcceptedAtMostOnce | server/deployment_records.py:288-340 | each token is accepted at most once |
| IoxCapabilities.CapabilityRegistry.Consume | server/deployment_records.py:310-340 | the token is gone whatever the answer, and the answer is yes iff it was live and bound to this journal, revision, phase, event and one of its attempts |
| IoxCapabilities.CapabilityRegistry.InvalidateAttempt | server/deployment_records.py:342-350 | the loop drops exactly the capabilities of the attempt |
| RecordAcceptance.CreateAccepted | server/deployment_records.py:1263-1283 | in a store that meets the authority rules a record is created iff it carries nothing the store writes itself, its schedule is well formed and its id is new; the gate never refuses it |
| RecordAcceptance.AdoptAccepted | server/deployment_records.py:1403-1426 | a record is adopted iff it is well formed and its id is new |
| RecordAcceptance.TransitionAccepted | server/deployment_records.py:1598-1624 | a transition succeeds iff the record exists and the table allows the move; superseding on activation never trips the gate |
| RecordEffects.LifecycleByTarget | server/deployment_records.py:52-70 | the lifecycle table, told by what each state may be entered from |
| RecordEffects.TransitionEffect | server/deployment_records.py:1598-1624 | the moved row and, on activation, every other row of the device state by state: actives superseded, stale leftovers abandoned with the reason, work in flight and history left alone |
| RecordEffects.RecoverEffect | server/deployment_records.py:1626-1692 | recovery row by row: planned and applying rows wait as unknown with a note of what they were, actives with a younger one are superseded, all others and rows that do not fit stay |
| RecordAcceptance.RetireDeviceAccepted | server/deployment_records.py:1694-1731 | retiring a device always succeeds |
| RecordAcceptance.RecoverAccepted | server/deployment_records.py:1626-1692 | startup recovery succeeds iff the clock is in integer range or no row has to be noted as interrupted |
| RecordAcceptance.RetirePlannedAccepted | server/deployment_records.py:1554-1585 | retiring succeeds iff the record exists: a planned successor always finds its predecessor abandoned |
| RecordAcceptance.AdmitAccepted | server/deployment_records.py:1285-1401 | an admission reaches a decision iff its arguments are well formed; whatever it decides passes the gate |
| RecordAdmission.AdmissionIsDecided | server/deployment_records.py:1285-1401 | with well-formed arguments the authority's refusal is the answer; without one the answer is told from the rows and arguments: created, resumed or recovery required iff no router is involved in something to undeploy, no unknown row belongs to another occurrence, no other row is live and the resumed row meets its own conditions, else refused for the first of these that fails; and exactly the rows told are written |
| RecordAcceptance.BeginAccepted | server/deployment_records.py:1778-1844 | a journal is opened iff the record exists, is not adopted and has none, its identity matches, the board is free and the initial evidence is well shaped |
| RecordAcceptance.ClearingAccepted | server/deployment_records.py:2102-2150 | clearing a cleanup obligation succeeds iff the compare-and-set does |
| RecordAcceptance.EventAccepted | server/deployment_records.py:1891-2100 | a journal event succeeds iff the record has a journal, the event goes through its own checks, and, if it leads to a phase that newly holds the board, no other record holds it |
| RecordAcceptance.HeldBoardRefusesEvent | server/deployment_records.py:951-1012 | an event that passes its own checks and would leave its journal unresolved is refused by the whole-store check while another record holds the board |
| RecordLineage.AdmissionKeepsLineage | server/deployment_records.py:1285-1401 | whatever an admission decides, at most one non-removed successor names a predecessor and that predecessor is abandoned and settled |
| RecordLineage.RetirementKeepsLineage | server/deployment_records.py:1554-1585 | retiring a planned successor keeps the lineage rules and hands its predecessor back as unknown |
| RecordLineage.CleanupIntentLineage | server/deployment_records.py:951-994 | a cleanup obligation passes the lineage check iff no record names this one as its predecessor |
| RecordLineage.CleanupAccepted | server/deployment_records.py:2102-2150 | raising a cleanup obligation succeeds iff the compare-and-set accepts it, no record names this one as its predecessor and no other record holds an obligation on the board |
| RecordLineage.RemovedSuccessorBlocksCleanup | server/deployment_records.py:951-994 | after an admit-successor and retire cycle no call can raise a cleanup obligation on the predecessor, because the removed successor still names it |
| RecordLineage.AdmissionLeavesOneLive | server/deployment_records.py:1285-1401 | a created or resumed admission leaves exactly one non-terminal record of the device, the admitted one |
| RecordLineage.ReadyAdmits | server/deployment_records.py:1285-1401 | a device whose only live record waits as unknown with a settled journal always gets its successor created |
| RecordLineage.RetiringUndoesAdmission | server/deployment_records.py:1554-1585 | retiring the successor gives back the store it was admitted from, but for the removed row and a finishing time |
| RecordLineage.CyclesNeverRefuse | server/deployment_records.py:1285-1401 | any number of admit-successor and retire cycles, each call at its own time, succeeds and ends with all authority rules holding and the predecessor ready again |
| RecordWitnesses.ReadyIsReachable | server/deployment_records.py:1285-1401 | for every request five calls on an empty store (admit, apply, open a journal, leave verification unchanged, recover) reach a store that meets the assumptions of the cycle results |
| RecordWitnesses.BlockedCleanupIsReachable | server/deployment_records.py:2102-2150 | two calls more, a successor admitted and retired, reach a store where the waiting record's journal accepts a cleanup obligation and the store refuses it |
| RecordWitnesses.RefusedDisableIsReachable | server/deployment_records.py:1778-2100 | for any two eligible records and any board five calls (create both, open both journals on the board, intend the first disable) reach a store where the second disable passes every check of the event and is refused |
| RecordLineage.CyclesLeaveHistory | server/deployment_records.py:1554-1585 | after any number of cycles the store differs by one removed row per cycle, naming the predecessor and carrying that cycle's own planning and finishing times, and by the predecessor's finishing time, which is the last retirement's |
| RecordRuns.RunSound | server/deployment_records.py:1229-1261 | every store reachable from the empty one satisfies the authority rules and has at most one active record per device |
| RecordRuns.RunRowsStand | server/deployment_records.py:892-964 | in every reachable store each record is under its own id, belongs only to a schedule of its own device, was interrupted only while planned or applying, and has a journal only if it is not adopted |
| RecordRuns.RunLinesStand | server/deployment_records.py:951-994 | in every reachable store a predecessor is another, interrupted record of the same device and occurrence with an ended journal and nothing outstanding, abandoned unless its namer is removed, and named by one record that is not removed at most |
| RecordRuns.RunBoardsHeldOnce | server/deployment_records.py:996-1012 | in every reachable store no two records hold one board |
| RecordRuns.EndedIsFinal | server/deployment_records.py:49-68 | removed and superseded are never left in any run |
| RecordRuns.AbandonedLeavesByRetirement | server/deployment_records.py:1554-1585 | a record leaves abandoned only by the retirement of a planned successor naming it |
| RecordJournals.JournalHistory | server/deployment_records.py:1778-2150 | every journal in every reachable store is where a run of event and cleanup calls for that very record led; no other call writes, moves or drops a journal |
| RecordJournals.StoreRestoresOnlyItsOwn | server/deployment_records.py:1928-2053 | over every run of the store, a record whose journal intends or completed a restore had earlier calls for it, in this order, that read verification enabled and intended the disable, confirmed that very disable, and still read it disabled; the confirmation, the restore intent and a completed restore's confirmation each carried a capability issued for that event |
| RecordStore.RecoverCollapses | server/deployment_records.py:1626-1692 | after recovery a record is active iff it was and, unless its row does not fit the recovery note, it is the newest of its device, duplicates of older releases included |
| RecordStore.RecoverKeepsOneActive | server/deployment_records.py:1626-1692 | a device that had an active record keeps one that is no older, whichever rows fit |
| RecordStore.DeploymentRecordStore.Create | server/deployment_records.py:1263-1283 | the authority rules keep holding, one active record per device is kept, and every record continues its history; it fails iff the record is malformed or its id is taken, and then changes nothing; the stored row is planned now and otherwise as given |
| RecordStore.DeploymentRecordStore.SupersedeOtherActives | server/deployment_records.py:1229-1261 | the loop supersedes every other active record of the device and nothing else |
| RecordStore.DeploymentRecordStore.Adopt | server/deployment_records.py:1403-1426 | the authority rules keep holding, one active record per device is kept, and every record continues its history; it fails iff the record is malformed or its id is taken; afterwards it is the device's only active record; every other row is displaced as activation tells, state by state |
| RecordStore.DeploymentRecordStore.Transition | server/deployment_records.py:1598-1624 | the authority rules keep holding, one active record per device is kept, and every record continues its history; it fails iff the record is unknown or the move is not allowed; an activated record is the device's only active one; the moved row and every other row are given field by field |
| RecordStore.DeploymentRecordStore.RetirePlanned | server/deployment_records.py:1554-1585 | the authority rules keep holding, one active record per device is kept, and every record continues its history; only the predecessor of a retired planned record may leave abandoned; it fails iff the record is unknown; exactly the planned row is removed and its predecessor unknown again |
| RecordStore.DeploymentRecordStore.RetireDevice | server/deployment_records.py:1694-1731 | the authority rules keep holding, one active record per device is kept, and every record continues its history; it never fails, leaves the device no live record, and reports exactly the ones it abandoned; each row is given |
| RecordStore.DeploymentRecordStore.NewestActives | server/deployment_records.py:1626-1692 | one pass finds the newest active record of every device |
| RecordStore.DeploymentRecordStore.RecoverInterrupted | server/deployment_records.py:1626-1692 | the authority rules keep holding, one active record per device is kept, and every record continues its history; the loops leave the recovered store, and it fails iff the clock is out of integer range and some row has to be noted; each row is given |
| RecordStore.DeploymentRecordStore.AdmitScheduled | server/deployment_records.py:1285-1401 | the authority rules keep holding, one active record per device is kept, and every record continues its history; it fails iff the arguments are malformed; a created or resumed record is stored as the device's only live one, and any other decision changes nothing; decision, reason and written rows are those told from the rows and arguments |
| RecordStore.DeploymentRecordStore.IoxBegin | server/deployment_records.py:1778-1844 | the authority rules keep holding, one active record per device is kept, and every record continues its history; a journal is opened iff the record may have one, the board is free and the evidence is well shaped; the journal is given field by field |
| RecordStore.DeploymentRecordStore.IoxEvent | server/deployment_records.py:1891-2100 | the authority rules keep holding, one active record per device is kept, and every record continues its history; checks, merge, branch, stamp, recheck and capability in the source's order give the specified store or failure, and it fails iff one of them does or the event newly takes a board another record holds; the journal it leaves is given field by field and nothing else changes |
| RecordStore.DeploymentRecordStore.IoxCleanup | server/deployment_records.py:2102-2150 | the authority rules keep holding, one active record per device is kept, and every record continues its history; it fails iff the compare-and-set refuses or, for raising, a record names this one as its predecessor or the board is held; only the obligation, the revision and the time change |
| PlanRuns.WriteKeepsPlans | server/catalog.py:1339-1451 | a write leaves plan keys equal to the approved ids, keeps the plan of every image that stays and gives arriving images a pair never used before |
| PlanRuns.WriteOutcome | server/catalog.py:1339-1451 | a refused or skipped write changes nothing; an accepted one leaves exactly the requested set and reports before and after |
| PlanRuns.PlanIdentity | server/catalog.py:1328-1451 | along any run of writes an image has the same plan and transfer id at two moments iff it was approved at every moment between |
| PolicyRows.PolicyStore.Set | server/catalog.py:1282-1451 | a write succeeds iff it names at most ten images, each once, known and not quarantined, over the row expected; the first thing wrong is the error; the row then has the ids, the first for old readers, its instruction stamp, the usable plans it had and new ones for the rest; a refused or skipped write and every other device's row stay |
| PolicyRows.WithoutSplits | server/catalog.py:1369-1370 | what is reported as removed keeps its order |
| PolicyRows.NonEmptySplits | server/catalog.py:1007-1020 | the ids read from a row keep their order |
| PolicyRows.PolicyStore.MergePlans | server/catalog.py:1395-1427 | the loop carries forward valid plans and mints the others |
| AssignmentRuns.ClaimCommitsAtMostOnce | server/assignment_service.py:300-451 | in every interleaving with crashes an unacknowledged claim commits at most one catalog write; a saved success is that write; a saved refusal other than conflict means none happened |
| AssignmentRuns.ScheduledNeverOvertakesManual | server/assignment_service.py:202-221 | no scheduled apply commits under a capture older than a manual commit on the device, even of a manual apply that crashed before raising its generation |
| AssignmentRows.RowsChangeByLawfulCommits | server/assignment_service.py:398-428 | in every step rows change only by other writers or by a commit that leaves what its order wants over the row it may be made over: a scheduled replacement the captured row, a merge or a retrying manual replacement the row it read |
| AssignmentRows.AttemptAnswers | server/assignment_service.py:398-446 | what an attempt comes to, for the ids it wants: each check in order, the reason it is refused with, and what it reports as before, after and removed |
| AssignmentRows.MergeKeepsRow | server/assignment_service.py:405-406 | a merge leaves the row as it was, followed by the requested ids it lacked in request order |
| AssignmentRows.MergeCommitKeepsRow | server/assignment_service.py:405-421 | a committed merge over a row without repetitions keeps that row as its beginning and reports nothing removed |
| AssignmentRows.CaptureTakesGeneration | server/assignment_service.py:202-221 | a capture is refused while an outcome is uncertain and otherwise takes the generation as it stands |
| AssignmentRows.ReconcileSettlesUnfinished | server/assignment_service.py:299-349 | reconciling settles an unfinished claim as a conflict and changes nothing else |
| AssignmentRows.AcknowledgeForgets | server/assignment_service.py:223-247 | an acknowledged claim is forgotten |
| AssignmentRuns.StepKeepsClaims | server/assignment_service.py:351-451 | every step keeps the correspondence between claims and commits |
| AssignmentRuns.StepKeepsAuthority | server/assignment_service.py:351-451 | every step keeps generations and pending flags ahead of manual commits |
| AssignmentService.Service.TryTwice | server/assignment_service.py:351-451 | the two-attempt compare-and-set loop is a run of protocol steps |
| AssignmentService.Service.EnterScheduled | server/assignment_service.py:351-451 | the claim is taken, replayed or refused by protocol steps, with the answer told from the claims, the generation and the pending flag |
| AssignmentService.Service.ApplyGuarded | server/assignment_service.py:351-451 | a whole apply is a run of protocol steps; a replay changes nothing; otherwise the outcome returned is the one recorded, a success is what the row now holds and honours the order (merged in order, or replaced exactly, over the row it may be made over), a refusal leaves the rows alone, and a manual apply raises the generation iff it succeeded |
| QuarantineRuns.QuarantineHoldsEverywhere | server/catalog.py:1788-1860 | with one apply run at a time and any interleaving, failures and crashes, an image quarantined with its actions complete is in no device's approved set |
| QuarantineRuns.QuarantineEndsDeliberately | server/catalog.py:1905-1944 | a quarantine ends only by release, deletion or re-publish of that image |
| QuarantineRuns.ReleasedForReason | server/catalog.py:1905-1944 | a release ends a quarantine only by override, or if the feed hash last recorded in the run is non-empty and equals the image's own, both trimmed and lower-cased |
| HashTexts.NormalIs | server/catalog.py:1916-1917 | hashes are compared without the blanks around them and in lower case |
| QuarantineRuns.QuarantineStartsByVerdict | server/catalog.py:1714-1765 | only a verdict for the image starts one, with its actions outstanding |
| QuarantineRuns.FiresExactlyWhenUnacknowledged | server/catalog.py:1714-1765 | a verdict on an unquarantined image fires iff it is a non-deferred mismatch and no earlier override release, with nothing since that settles the image, acknowledged this very feed hash, all told from the run so far |
| QuarantineRuns.AckIsHistory | server/catalog.py:1905-1944 | the stored acknowledgement is the one the run of releases, verdicts, publishes and deletions implies |
| QuarantineRuns.AckIsStandingOverride | server/catalog.py:1905-1944 | an acknowledgement of a feed hash is in force iff some earlier override release recorded it and no later action settled the image |
| QuarantineStuck.StaysIncomplete | server/catalog.py:1788-1860 | while a row holds a quarantined image together with one the catalog lacks, no number of apply runs, crashes or other writes completes the quarantine |
| QuarantineStuck.StuckIsReachable | server/catalog.py:1788-1860 | publishing two images, assigning both, deleting one and a mismatch on the other lead there |
| QuarantineCourse.QuarantineCompletes | server/catalog.py:1714-1860 | nothing in the way, an apply run takes a mismatching image out of its device's row and completes its quarantine |
| QuarantineCourse.CompletedByItsActions | server/catalog.py:1845-1860 | a quarantine is completed only as the last step of its own actions |
| QuarantineCourse.RunTakesOnOpenOnes | server/catalog.py:1766-1772 | an apply run takes on exactly the quarantines with actions outstanding |
| QuarantineStore.Catalog.SetPolicy | server/catalog.py:1339-1355 | a row is written iff every named image exists and is not quarantined |
| QuarantineStore.Catalog.WriteVerdicts | server/catalog.py:1714-1765 | each verdict on an image of the catalog leaves its finding, acknowledgement, quarantine and outstanding actions as told and is recorded; nothing else changes; exactly the newly quarantined are listed |
| QuarantineStore.Catalog.FireQuarantine | server/catalog.py:1788-1843 | true iff the image is gone or seeding stopped and every holder's row could be rewritten; then, if it is still quarantined, no row holds it; exactly the rows that held it and could be rewritten lose their quarantined images |
| QuarantineStore.Catalog.ApplyHashVerification | server/catalog.py:1700-1786 | an undisturbed run keeps completed quarantines clear of every row and records the verdicts; an open quarantine ends complete iff its seeding stopped and every row that held the image could be rewritten, whichever images were handled before it; those rows lose all their quarantined images and nothing else changes |
| QuarantineStore.Catalog.ReleaseQuarantine | server/catalog.py:1905-1944 | a release succeeds iff the image exists, is quarantined, and is overridden or its hashes agree, else the first of these is the refusal; agreeing hashes leave it verified and unacknowledged, in the entry and the record, an override acknowledges the feed hash and leaves the finding; nothing else changes |
| TokenRuns.RecoveryIffInDeadline | server/catalog.py:348-385 | the previous token is answered with the unchanged current bag iff nothing is revoked or duplicated, the current token has not expired, and the time is before its original expiry plus grace (its overlap for an old record; 0 never ends); nothing is ever written for it |
| TokenRuns.GuardAdmitsFitting | server/catalog.py:348-385 | a request gets as far as the lock iff its token is the stored current or previous one, neither revoked, duplicated nor past its end |
| TokenRuns.DeviceIsNeverStranded | server/catalog.py:3020-3202 | with lost responses, repeated and delayed requests and concurrent refreshes the device's token is always the stored current or previous one |
| TokenRuns.RotatesOnce | server/catalog.py:3051-3136 | each token value causes at most one rotation |
| TokenRuns.RevocationStays | server/catalog.py:3030-3049 | no refresh clears a revocation |
| TokenRuns.RetryReturnsSuccessor | server/catalog.py:3109-3136 | a device that never got the answer can retry until its token's original expiry and gets the successor minted then, unchanged |
| TokenRuns.LateRetryIsRefused | server/catalog.py:366-377 | after a token is rotated away, presenting it at or after its original expiry plus grace is refused in every later state and changes nothing |
| TokenRuns.ExpiredNeverRotates | server/catalog.py:348-385 | a token past its expiry plus grace, or revoked, never causes a rotation |
| TokenRuns.RevokedForGood | server/catalog.py:3030-3049 | after a revocation every handling answers so and changes nothing |
| TokenRuns.DeliveredIsCurrent | server/catalog.py:3109-3136 | the token a device takes from an answer is the stored current one |
| TokenHandler.SecretStore.HandleTokenRefresh | server/catalog.py:3020-3202 | the whole answer of the locked section is told from the stored records, the clock and the arguments: who is let in as current or previous, what a rotation writes, and each refusal |
| RefreshRuns.AtMostOneRun | server/bulkhash_refresh.py:302-312 | in every interleaving at most one refresh is under way |
| RefreshRuns.WaiterSawItsImage | server/bulkhash_refresh.py:383-443 | a waiting call that returns ok was served by a successful run for the same directory whose listing held every image durable before the call and not deleted since |
| RefreshRuns.CallsStay | server/bulkhash_refresh.py:435-443 | coverage of a directory never goes back |
| RefreshGuard.Guard.Register | server/bulkhash_refresh.py:395-397 | a waiting call raises the generation and takes it as its ticket; any other call changes nothing |
| RefreshGuard.Guard.TakeTurn | server/bulkhash_refresh.py:398-419 | one turn of the waiting loop changes the module state as the protocol step does; where the caller stands is told from the run flag, the coverage, its ticket and the clock |
| RefreshGuard.Guard.MarkSnapshot | server/bulkhash_refresh.py:423-427 | the stamp is the current generation, before the listing is read |
| RefreshGuard.Guard.Release | server/bulkhash_refresh.py:435-443 | only a success with a snapshot is entered as coverage |
| AuditIndexProofs.IncrementalIsFromScratch | server/audit.py:221-311 | after any sequence of appends and refreshes the incremental index has the entries, garbage count and position of one built from scratch and is always recognised as describing the file |
| AuditIndexProofs.IncrementalEqualsScratch | server/audit.py:236-311 | it is that index in every field, the remembered head included, iff the refresh that first saw a complete line saw at least 512 bytes or as much as there is now |
| AuditIndexProofs.ShortHead | server/audit.py:257-258 | after two appends of a newline, each followed by a refresh, the incremental head is one byte and the one built from scratch is two |
| AuditIndexProofs.ShortHeadMissesRewrite | server/audit.py:221-233 | a file rewritten in place can be taken for grown by the incremental index where one built from scratch would see the difference |
| AuditIndexProofs.StreamIsIndexAndTail | server/audit.py:197-222 | a streaming read of any data finds the events of the index, in order, and then the event of the unterminated tail, if it is one |
| AuditIndexProofs.IndexIsStream | server/audit.py:197-222 | on newline-terminated data the index lists exactly the events a streaming read finds, in order |
| AuditTrail.Summarize | server/audit.py:239-261 | the newline-scanning loop computes the entries, garbage and position of the lines it passes |
| AuditTrail.TrailIndex.Grow | server/audit.py:239-261 | the index is extended to the complete lines of the file |
| AuditTrail.TrailIndex.Refresh | server/audit.py:264-311 | a file that is another one, is shorter than what was indexed, begins differently from what is remembered, or has no newline where the index ends gets the index built from scratch; any other is extended from there, and if it did only grow the index describes it as one built from scratch would |
| AuditAnswers.AnswersAgree | server/audit.py:666-746 | the indexed and the streaming answer are the same iff the trail does not end in an unterminated line that is an event the filter accepts |
| AuditAnswers.ReadEvents | server/audit.py:666-746 | the answer is the newest fitting events of the index or the stream, by position, with nothing that fits passed over before the limit; and those of the stream either way unless the unterminated tail matches |
| AuditAnswers.TalliesAgree | server/audit.py:461-528 | the indexed and the streaming histogram are the same iff the trail does not end in an unterminated line that is an event of the window |
| AuditAnswers.Histogram | server/audit.py:461-528 | each bucket is labelled with its beginning, rounded toward zero, and counts exactly the indexed or streamed events of the category with a time in its span; the streamed ones either way unless the unterminated tail falls into the window |
| AuditQueries.BucketIsItsSpan | server/audit.py:461-528 | an event of the window is in a bucket iff its time lies between that bucket's beginning and the next one's; the first begins with the window and the last ends with it |
| AuditQueries.BucketsAddUp | server/audit.py:461-528 | the buckets add up to the number of events in the window |
| AuditPrune.CheapReturnIsExact | server/audit.py:398-455 | the early return is taken only when a full prune drops nothing, and on newline-terminated data exactly then |
| AuditAnswers.PruneLines | server/audit.py:418-455 | the full prune keeps, in order, the last objects with a usable time that has not aged out, up to the cap, and counts what it drops |
| AuditPageProofs.PagesShowSnapshot | server/audit.py:587-663 | under arbitrary appends page k shows the k-th stretch of the first snapshot's matching events and has a next cursor iff some are left |
| AuditPageProofs.WalkIsComplete | server/audit.py:587-663 | following cursors no cursor expires, and exactly as many pages as the first snapshot's matching events divided by the limit, rounded up (at least one), show each of those events once in reverse append order; the last has no next cursor |
| AuditPageProofs.PlacesDescend | server/audit.py:632-652 | every matching entry is listed exactly once, later ones first, whatever the timestamps |
| AuditDecks.GrowingFileWalk | server/audit.py:587-663 | a file that is only appended to satisfies the assumptions of the paging results |
| AuditDecks.SnapshotIsPlainRead | server/audit.py:666-746 | the events shown are those of an unlimited indexed read of the first snapshot that takes only lines whose bytes parse as they stand, and those of the plain read iff the file does not end in an unterminated line such a read would take |
| AuditPaging.ReadPage | server/audit.py:587-663 | a cursor has expired iff no entry has its file, place and digest; otherwise the page holds the fitting entries below it, later ones first, up to the limit, and there is a next cursor, naming the last of them, iff something is left |
| BencodeRoundTrip.DecodesEncoded | server/bencode.py:56-79 | decoding stops exactly at the end of an encoded value, whatever follows |
| BencodeRoundTrip.RoundTrip | server/bencode.py:11-79 | decoding an encoding gives the value back |
| BencodeRoundTrip.PrefixFree | server/bencode.py:11-42 | no encoding is a proper prefix of another and encoding is injective |
| BencodeCanonical.SortedKeysAscend | server/bencode.py:33-37 | dictionary keys are emitted in strictly ascending byte order |
| BencodeReencode.ReencodesIffCanonical | server/bencode.py:5-8 | a decoded value re-encodes to its own bytes iff those bytes are canonical |
| BencodeReencode.LenientDictionary | server/bencode.py:56-79 | the dictionary `d1:ai007ee` decodes to {a: 7}, which encodes differently |
| BencodeLenient.ParseNatIs | server/bencode.py:56-79 | a number is digits with single underscores between them, and has the value its digits make |
| BencodeLenient.TrailingBytesRefused | server/bencode.py:49-53 | anything after a value is refused |
| BencodeLenient.LaterEntryCounts | server/bencode.py:66-72 | of two entries with one key the later one counts |
| BencodeLenient.IntegerKeysRead | server/bencode.py:66-72 | an integer is taken for a key, giving a dictionary that cannot be encoded |
| BencodeLenient.OtherKeysRefused | server/bencode.py:66-72 | a list or dictionary is not |
| BencodeLenient.ShortStringRefused | server/bencode.py:73-79 | a string shorter than its length says is refused |
| BencodeCodec.EncodeValue | server/bencode.py:11-42 | encoding into the shared buffer succeeds iff the value is encodable and gives its encoding |
| BencodeCodec.DecodeValue | server/bencode.py:49-79 | the index-moving decoder ends on every input and returns what the specification does |
| LimiterRuns.SweepIsExact | server/catalog.py:164-168 | rows stay ordered by timestamp and sweeping from the front removes exactly the idle ones |
| LimiterRuns.EvictionIsInvisible | server/catalog.py:151-185 | every call of every run is answered as an unbounded table would, if idle time is at least burst times refill time and the cap is not reached |
| LimiterRuns.ConfiguredLimitersQualify | server/catalog.py:2352-2356 | the three limiters set up by the catalog meet that condition |
| LimiterTable.InstructionLimiter.ChargeDevice | server/catalog.py:162-185 | a device with a token pays it and is let in; one without pays nothing and is told the shortest wait in whole seconds; its level is what its live row had and one token per refill time since, up to the burst; idle rows go, and the oldest if they are too many |
| ApiRateLimit.BurstPlusRate | server/api_rate_limit.py:76-111 | for any clock readings an enabled bucket admits between two of its calls at most burst plus rate times the difference of their recorded timestamps |
| ApiRateLimit.RefusalDebitsNothing | server/api_rate_limit.py:100-106 | a refusal debits neither bucket and one of them really is short |
| ApiRateLimit.RetryIsAdmitted | server/api_rate_limit.py:100-106 | an undisturbed retry made retry_after past the recorded timestamp is admitted |
| ApiRateLimit.AggregateRateLimiter.AdmitCall | server/api_rate_limit.py:76-111 | a call is let in iff both its buckets, filled at their rate since their timestamps up to capacity, have a token, and then both pay one; otherwise neither does and the wait told is the shortest that suffices in whole seconds, at least one; the third bucket is untouched |
| ApiRateLimit.NewLimiter | server/api_rate_limit.py:47-62 | a limiter is made iff every rate and burst is in range, and it is well formed |
| Blocklist.DeniedAndConflictsPartition | server/blocklist_reconciler.py:155-209 | denied and conflicting addresses are disjoint and together exactly the unprotected addresses with a denied principal |
| Blocklist.DeniedStaysDenied | server/blocklist_reconciler.py:211-229 | with a known origin every denied address is prospectively denied |
| Blocklist.EmergencyCoversDenied | server/blocklist_reconciler.py:232-260 | the fail-closed list holds a denied address iff it is attributed to a non-service principal or such a participant is active there |
| BlocklistMeaning.DerivationMeans | server/blocklist_reconciler.py:84-260 | the whole derived set told from the endpoints: which addresses are blocked now and prospectively, which are conflicts and whose, which devices are newly affected, and the fail-closed list; every list ascending |
| BlocklistLoops.DeriveDeniedSet | server/blocklist_reconciler.py:84-100 | the loops compute that set, a function of the set of endpoints, so snapshot order makes no difference |

## Left out

- HTTP routes, TLS, subprocesses, SSH sessions, the device agent and the user interface.
- Locks, fsync, file modes, inode checks and SQLite schema checks below the level of one atomic step or one durable write.
- JSON sizes and size or count caps of the record store: whether a record fits after recovery's note is the parameter `fits`; the obligation cap is not modelled.
- Secret-key scanning of records, the transcript loader and the command-order rules of `_validate_journal_relations`: their verdict is the request's `transcriptsAgree`.
- `update_planned`, `update_scheduled_recovery` and `iox_scp_state`: single guarded field updates or reads.
- Fleet membership, registration identity and audit events around assignment: they refuse or report but write nothing the results speak of.
- Instruction keys in token refresh: their condition is a parameter of each handling, and their contents are not modelled.
- Bencode text strings and keys, which are encoded as UTF-8 before the model starts, and Python's digit and recursion limits.
- Byte codes are unbounded integers in the codec and the audit trail; nothing there depends on the bound.
- Differences between reading a trail as text and as bytes (carriage returns, other control characters, bytes that are not UTF-8): a line's classification is one given function for both.
- Float rounding: times, rates and tokens are `real`.
- The instruction cache, telemetry, feed download, signature verification and cryptography.
- BlocklistLoops.DeriveDeniedSet: names the principals of a conflict by their keys, without splitting a key into type and id; whether the origin address is a valid IPv4 address is given.
- QuarantineStore.Catalog.FireQuarantine: describes a firing that nothing interrupts; interruptions are covered by the run results.
- RecordAcceptance.EventAccepted: the cap of 512 obligations in all, which the whole-store check also enforces, is not modelled; the same holds of RecordLineage.CleanupAccepted.
- RecordAdmission.AdmissionIsDecided: the refusal to resume a row too large for its lifecycle metadata is not modelled, because sizes are not.
- QuarantineStore.Catalog.SetPolicy: the missing-catalog bootstrap, the size cap and the compare-and-set of the same write are in PolicyRows.PolicyStore.Set.
- QuarantineStore.Catalog.ApplyHashVerification: describes a run that nothing interrupts; interleavings and crashes are covered by the run results.
- IoxRuns.CapabilityUsedOnce: speaks of what a capability is bound to; the registry that burns its token is in IoxCapabilities.
- IoxCapabilities.CapabilityRegistry.Consume: the process id in the binding is not modelled, because the registry is one process's memory.
- AssignmentService.Service.ApplyGuarded: describes an apply without a crash; crashes are covered by the run results.
- TokenRuns.DeviceIsNeverStranded: a response to an attempt the device has given up is never taken, because its client waits for one response at a time; re-enrolment is not modelled.
- RefreshRuns.WaiterSawItsImage: a state directory stands for the catalog kept in it.
- RefreshGuard.Guard.TakeTurn: one turn of the loop per call, because what happens while the condition waits is other callers' steps.
- ApiRateLimit.AggregateRateLimiter.AdmitCall: reading the configuration from the environment is not part of this model.
