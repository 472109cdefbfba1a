# A verified model of limewire-purge

limewire-purge removes the pieces of one Greenfield bucket from the object storage of one
storage provider. It works in batches, re-verifies every batch, survives crashes between any
two of its writes, and finally reports ALL_DONE. This project models the tool and proves what
its operators rely on.

`dafny verify dfyconfig.toml` checks everything.

## What is modelled

**The ledger** (`Ledger`, `LedgerInvariants`, `LedgerTheorems`, `LedgerOutcomes`). The six tables are maps from
their primary keys; every transaction is a function from the tables to the new tables or to the
refusal that the program returns. `LedgerInvariants.Inv` is the invariant that every transaction
keeps; `LedgerOutcomes` says when each transaction goes through and what it means. `ProgressDb.Database` is the same database as an object whose tables are changed in place;
each of its methods is proved to be the transaction of its name and to keep that invariant, so the
theorems about the ledger hold of the object.

**The tool over time** (`System`, `SystemInvariants`, `SystemOutcomes`, `Histories`, `Targets`,
`SafetyLatch`, `Evidence`, `Batches`, `Accounting`, `Removals`, `ObjectZero`, `Witnesses`). A state is the ledger, the physical
store, and the command that holds the execution lock. One event is one transaction, one storage
request, or the end of a command. `Exit` may come at any point, so a command can die between any
two of its writes; `WriteBack` is somebody else putting a key into the bucket. Theorems speak of
every history that starts with an empty database and any bucket.

**No dead ends** (`Completion`, `DeadEnds`). From every state a history can reach with a sealed
list, the tool's own commands can still lead to ALL_DONE, exactly unless object 0 is listed or
something that is not a piece lies under an object whose empty check does not stand.

**The deletion engine** (`Storage`, `Traffic`, `Interrupts`, `Engine`, `EngineSteps`). `Storage.Bucket` answers
adversarially: a request may fail before or after its effect, any key of a batch may be refused,
and a refused key may be gone all the same. The clearing loop, its retry budgets, the dry run, the
identity check and the final re-check are methods over it. Whether a method ends well, and with
which error, is tied to the requests it sent and to the consents and refusals of the context.

**The concurrent run** (`Protocol`, `ProtocolInvariants`, `ProtocolTheorems`, `ProtocolOutcomes`,
`ProtocolStorage`, `ProtocolProgress`). Feeder, channel, workers, stop, halt, result writes and the write-backs of
others as a step relation in which goroutines interleave freely.

**Verification and scan** (`VerifyRun`, `VerifyCommand`, `ScanRun`) as loops over the database, the
bucket and a source table that may change while it is read; `CommandSteps` shows that what they do
is a history of the tool.

**The key grammar** (`PieceKeys`), **capacity selection** (`Capacity`), **the shard size formula**
(`ShardSize`), and **keyset paging** (`Keyset`), on which three loops rest.

## Main results

- ALL_DONE is evidence, and can be had: each listed object was seen empty in both prefixes after the
  last deletion pass on it (`Evidence.AllDoneEvidence`), what is left was written back by others
  (`Evidence.ResidueWasWrittenBack`), the report is given exactly when everything is cleared
  (`LedgerOutcomes.AllDoneExact`), and it can be reached from every state exactly unless
  something stands in the way (`DeadEnds.CanFinishExactly`).
- Nothing else is touched: every key that disappears in any history is a piece of an active member
  of the task being purged (`Removals.EveryRemovalIsOfAMember`), and a command keeps to its task
  (`Targets.CommandKeepsToItsTask`).
- A hold holds (`SafetyLatch.LatchHolds`, `SafetyLatch.LatchBlocksPurge`), and a violation makes one:
  `Engine.ViolationExactly`, `EngineSteps.PurgeObject`, `ProtocolOutcomes.ViolationHalts`,
  `ProtocolOutcomes.AlarmIsLatched`.
- The clearing loop ends under any failures within its budgets (`Engine.EmptyPrefix`), asks before
  every request, and counts exactly.
- Every interleaving of the concurrent run is a history (`ProtocolTheorems.RunIsHistory`), does not
  deadlock (`ProtocolProgress.NoDeadlock`), admits nothing after a failure
  (`ProtocolOutcomes.NothingAdmittedAfter`), and succeeds exactly when nothing went wrong
  (`ProtocolOutcomes.SuccessIsClean`); then everything claimable is recorded and gone
  (`ProtocolTheorems.SuccessIsComplete`, `ProtocolStorage.SuccessLeavesNothing`).
- Counters balance over every history with crashes and write-backs (`Accounting.AlwaysBalanced`).
- Batches cut the list in object order without gaps (`Batches.BatchesPartitionTheList`).
- A verification succeeds exactly when everything due was seen empty (`VerifyCommand.RunVerify`),
  and a scan fails exactly for the listed reasons (`ScanRun.RunScan`).

## Hypotheses

- Object ids and primary keys start at 1. The cursors start at 0 and compare with `>`, so 0 is
  never reached; the theorems give the exact condition instead of assuming it away
  (`ProtocolTheorems.SuccessThenMilestone`, `VerifyCommand.RunThenComplete`), and `ObjectZero` says
  what becomes of it.
- A key that a delete request confirms is gone, and a listing shows what is stored at that moment:
  object storage is strongly consistent.
- A delete request that returns no error names every key of its batch exactly once. Without this
  the clearing loop does not progress: `Traffic.ProgressIsExact` says exactly when a round does.
- Nobody writes keys back, as the repository's own README demands (line 351). Where this matters
  the theorems do not assume it but name the write-back that explains a residue.
- `purged` is a milestone that later repairs keep; it does not claim that everything is processed now.
- One command at a time holds the execution lock. Batches are numbered from 1, as AUTO_INCREMENT does.

## Findings

- "Re-running scan is harmless" (internal/progress/progress.go:188): a row left by an interrupted
  scan keeps its first snapshot, so a list can be sealed with stale sizes or versions.
  `Witnesses.StaleSnapshotIsSealed` is a history that does so, `ScanRun.SnapshotsAreExact` gives the
  exact condition; the identity check before deletion then refuses the object
  (`Engine.IdentityIsExact`).
- The count comparison before sealing (internal/progress/task.go:168-174) does not show that the
  list is the one just read when an object id occurs twice in the source.
  `Witnesses.WrongListIsSealed` is a history that seals a list with an object that was not read,
  `ScanRun.SealIsExact` gives the exact condition.
- Object 0 is listed and put into a task like any other (`Witnesses.ZeroIsTaken`), but no cursor
  reaches it: in every history the task that holds it has no milestone while the object is active
  in it, and the tool never reports ALL_DONE for its list (`ObjectZero.ZeroBlocksItsTask`,
  `ObjectZero.ZeroBlocksAllDone`).
- A target above 2^63 can make an ordinary list fail with an overflow unless a batch is a single
  object (`Capacity.OverflowThreshold`, which constructs the list), and the shard size is wrong
  when the larger of the segments that occur is within k of 2^64
  (`ShardSize.ExpectedSecondaryBytes`): such a segment counts nothing (`ShardSize.ShardExact`).

## Model

| member | source | states |
|---|---|---|
| PieceKeys.RoundTrip | internal/pieceop/key.go:34-107 | printing then parsing returns the piece if and only if its version is not negative and a primary carries no redundancy index |
| PieceKeys.ParsedKey | internal/pieceop/key.go:48-107 | whatever parses renders back to the same key, and fits the machine widths |
| PieceKeys.PrefixesDisjoint | internal/pieceop/key.go:9-23 | no key is listed under the prefixes of two different objects |
| PieceKeys.PieceUnderPrefix | internal/pieceop/key.go:19-46 | a well-formed piece lies under the prefix of its own object and role |
| PieceKeys.ListedPieces | internal/pieceop/key.go:109-121 | among the keys listed for an object the deletable ones are exactly the well-formed ones |
| PieceKeys.KeepOnly | internal/pieceop/key.go:109-121 | the loop splits a listing, in order, into the pieces of the object and all other keys |
| Capacity.SelectCapacity | internal/progress/subtask.go:81-103 | the loop returns the selected prefix and its exact total, or the refusal |
| Capacity.SelectFacts | internal/progress/subtask.go:81-103 | the selection is a prefix within the limit, empty only for no candidates, a single object or below twice the target with no oversize member, and stops only for a reason |
| Capacity.OverflowThreshold | internal/progress/subtask.go:96-98 | no list of candidates can overflow the 64-bit total if and only if the target is at most 2^63 or a batch is a single object |
| ShardSize.ExpectedSecondaryBytes | internal/purge/sizecheck.go:22-40 | the 64-bit loop never exceeds the exact shard total and equals it if and only if the payload is empty or the rounding-up addition does not wrap |
| ShardSize.ShardExact | internal/purge/sizecheck.go:33-36 | one segment counts exactly unless the rounding-up addition leaves 64 bits, and then it counts nothing |
| ShardSize.ShardsClosedForm | internal/purge/sizecheck.go:22-40 | the sum over segments equals (payload/seg)*ceil(seg/k)+ceil((payload mod seg)/k) |
| ShardSize.ClosedFormBounds | internal/purge/sizecheck.go:22-40 | the shards cover the payload, exceed it by less than k bytes per segment, and one shard set never holds more than the payload |
| Keyset.PageIsExact | internal/progress/subtask.go:387-406 | one page holds exactly the least keys above the cursor, and is empty exactly when there are none |
| Keyset.NextIsLeast | internal/progress/subtask.go:514-530 | going through a page key by key never skips a key of the paged set |
| Keyset.PageContinues | internal/bsdb/scan.go:68-75 | every page continues the sorted list of the keys already passed |
| LedgerInvariants.BindKeepsInv | internal/progress/task.go:74-101 | binding keeps the invariant |
| LedgerInvariants.BeginScanKeepsInv | internal/progress/task.go:134-156 | so does marking the list incomplete, which happens only before any task exists |
| LedgerInvariants.InsertScanKeepsInv | internal/progress/progress.go:188-208 | so does inserting scan rows while nothing is sealed |
| LedgerInvariants.FinishScanKeepsInv | internal/progress/task.go:160-178 | so does sealing, which records the number of listed objects |
| LedgerInvariants.CreateKeepsInv | internal/progress/subtask.go:267-362 | so does allocation: manifests, object order, one active assignment per object and one open batch survive it |
| LedgerInvariants.BeginPurgeKeepsInv | internal/progress/subtask.go:408-438 | so does starting a deletion pass, although it fails results that other tasks share |
| LedgerInvariants.RecordDoneKeepsInv | internal/progress/subtask.go:680-706 | so does recording a completion |
| LedgerInvariants.RecordFailKeepsInv | internal/progress/progress.go:263-274 | so does recording a failure: it cannot reach an object of a finished task |
| LedgerInvariants.CompletePurgeKeepsInv | internal/progress/subtask.go:440-467 | so does the deletion milestone |
| LedgerInvariants.HoldKeepsInv | internal/progress/subtask.go:469-479 | so does a safety hold |
| LedgerInvariants.DeferKeepsInv | internal/progress/subtask.go:569-609 | so does setting an object aside, with its audit record |
| LedgerInvariants.ResumeKeepsInv | internal/progress/subtask.go:623-645 | so does releasing a hold |
| LedgerInvariants.BeginVerifyKeepsInv | internal/progress/subtask.go:481-510 | so does starting or restarting a verification |
| LedgerInvariants.RecordVerifyKeepsInv | internal/progress/subtask.go:532-542 | so does recording a check of an unfinished task in its own generation |
| LedgerInvariants.CompleteVerifyKeepsInv | internal/progress/subtask.go:544-567 | so does finishing a task: every active member is then processed and passed in its generation |
| LedgerInvariants.RecoverKeepsInv | internal/progress/progress.go:169-177 | so does the recovery at the start of a command |
| LedgerInvariants.ManifestAccepted | internal/progress/subtask.go:364-385 | under the invariant the join of members and list reproduces the recorded manifest |
| LedgerTheorems.Conservation | internal/progress/subtask.go:670-678 | listed objects = unassigned + active + deferred and unresolved, as the outstanding counts say |
| LedgerTheorems.ActiveIsNewest | internal/progress/subtask.go:303-309 | an object has at most one active assignment, and it is its newest |
| LedgerTheorems.OneOpenTask | internal/progress/subtask.go:221-232 | at most one task is in its first deletion pass, it has the highest number, and the refusal for several unfinished tasks cannot occur |
| LedgerTheorems.LedgerIsSound | internal/progress/subtask.go:287-293 | no result without an assignment ever exists and every manifest check passes |
| LedgerTheorems.RetryPoolIsUnresolved | internal/progress/subtask.go:303-309 | whenever allocation proceeds, the retry candidates are exactly the unresolved deferred objects and as many as reported |
| LedgerTheorems.CompletePurgeExact | internal/progress/subtask.go:440-467 | the deletion milestone is granted if and only if every active member is processed and the task is neither finished nor held |
| LedgerTheorems.CompleteVerifyExact | internal/progress/subtask.go:544-567 | a running verification can be completed if and only if every active member is processed and passed in the task's generation |
| LedgerTheorems.RecoveryIsExact | internal/progress/progress.go:169-177 | recovery marks a task if and only if the interrupted completion would have succeeded and the task was being worked on, or was never purged and every member was set aside; it changes nothing else of the task |
| LedgerTheorems.AllDoneIsBacked | cmd/limewire-purge/main.go:580-588 | ALL_DONE means every listed object has exactly one active assignment, in a finished task, processed and passed in its generation, and nothing is held |
| LedgerOutcomes.AllDoneExact | cmd/limewire-purge/main.go:580-588 | ALL_DONE is reported if and only if no command runs, the list is sealed, every task is finished and every listed object is an active, processed and passed member of a finished task |
| LedgerOutcomes.ResolvePurgeExact | internal/progress/subtask.go:149-177 | a purge gets task t if and only if nothing is held, t is unfinished, and t is either the one named and deletion-complete or the only open task and not contradicted by the number given; each refusal has its exact cause |
| LedgerOutcomes.ResolveVerifyExact | internal/progress/subtask.go:179-189 | a verification gets the task named, or the lowest number among those deleted and not finished |
| LedgerOutcomes.ResolveAdminExact | internal/progress/subtask.go:191-207 | an operator's decision goes to the task named, else the lowest held one, else the only open one, else the lowest awaiting verification |
| LedgerOutcomes.ManifestOkExact | internal/progress/subtask.go:364-385 | the manifest check passes if and only if the recorded rows are in object order, are what the list says, and are exactly the listed members, as many as recorded |
| LedgerOutcomes.CountsPartition | internal/progress/subtask.go:251-265 | every member is counted exactly once as deferred, pending, failed or processed |
| LedgerOutcomes.ChecksPartition | internal/progress/subtask.go:251-265 | every member checked in the present generation is counted exactly once, by its result |
| LedgerOutcomes.CreateGuards | internal/progress/subtask.go:267-293 | in a sound ledger each refusal of an allocation, and the referral to the open batch, happens exactly under its condition |
| LedgerOutcomes.LegacyIsRefused | internal/progress/subtask.go:287-293 | past the other guards allocation is refused for old results if and only if some result belongs to no batch |
| LedgerOutcomes.SelectedAreClaimable | internal/progress/subtask.go:338-352 | every object a new batch takes is due in it, first-time and retried objects alike, also one that was done before it was set aside |
| LedgerOutcomes.BeginPurgeExact | internal/progress/subtask.go:408-438 | a deletion pass starts if and only if the task exists, is not finished, and nothing is held |
| LedgerOutcomes.BeginPurgeMeans | internal/progress/subtask.go:408-438 | what is due afterwards are the active members that were unprocessed or showed residue; no check of the task counts any more, and those of other tasks count as before |
| LedgerOutcomes.RecordDoneExact | internal/progress/subtask.go:680-706 | a completion is taken if and only if the member is active; the object is then processed, unchecked and not due, and no other member's state or claim changes |
| LedgerOutcomes.RecordFailExact | cmd/limewire-purge/main.go:275-280 | so is a failure; the object is then unprocessed and due again, and no check changes |
| LedgerOutcomes.HoldExact | internal/progress/subtask.go:469-479 | a hold latches an unfinished task under the object it names with a prefix of its reason, the whole if it fits, and changes nothing else |
| LedgerOutcomes.DeferExact | internal/progress/subtask.go:569-609 | setting aside succeeds if and only if the member is active, the task unfinished, the reason acceptable, and a hold names this object; only that member and that hold change |
| LedgerOutcomes.ResumeExact | internal/progress/subtask.go:623-645 | a release succeeds if and only if the task is held and a reason is given; the audit trail gains both reasons and nothing else changes |
| LedgerOutcomes.BlankIsTrimmedEmpty | internal/progress/subtask.go:570-572 | a reason counts as missing exactly when trimming its white space leaves nothing |
| LedgerOutcomes.BeginVerifyExact | internal/progress/subtask.go:481-510 | a verification starts if and only if the task exists, is not held, and is finished and not restarted or has every active member processed |
| LedgerOutcomes.BeginVerifyMeans | internal/progress/subtask.go:481-510 | a restart voids every check of the task, otherwise what passed in this generation stays passed; other tasks are untouched |
| LedgerOutcomes.VerifiedMeans | internal/progress/subtask.go:544-567 | in any tables completion succeeds if and only if the rows are all there, every active member is processed and passed, and the task is finished or in the verified phase and generation without a hold |
| LedgerOutcomes.MilestoneMeans | internal/progress/subtask.go:440-467 | in any tables the deletion milestone is set only with all rows there and every active member processed, and changes that one row |
| LedgerOutcomes.DamagedIsNotMarked | internal/progress/progress.go:169-177 | a task whose rows are not as many as recorded gets neither milestone, and one without rows no deletion milestone, by command or by recovery |
| LedgerOutcomes.ResidueIsRequeued | internal/progress/subtask.go:425-432 | an object whose check records residue is due in the next deletion pass |
| SystemInvariants.AlwaysGood | cmd/limewire-purge/main.go:282-422 | every state of every history, crashes included, satisfies the ledger invariant and what the running command relies on |
| SystemInvariants.ResolvesToTask | internal/progress/subtask.go:126-207 | every task selection yields an existing task, and one for purging only when nothing is held |
| SystemOutcomes.StartPurgeExact | internal/progress/subtask.go:408-438 | in every reachable state a deletion pass can start if and only if the database is the command's own and sealed, nothing is held and there is a task for it, and it starts on that task |
| SystemOutcomes.StartVerifyExact | cmd/limewire-purge/verify.go:45-71 | a verification can start if and only if its task is not held and is all processed, or finished and not restarted |
| SystemOutcomes.CreateTaskExact | internal/progress/subtask.go:267-362 | an allocation goes through if and only if nothing is held and a batch is open, which is then named, or its pool is not empty |
| SystemOutcomes.AdmitExact | internal/progress/subtask.go:387-406 | a pass can take up an object if and only if it is an active member, unprocessed or with residue, not object 0, not in work, and the pass is not halted |
| SystemOutcomes.ResultsAreTaken | internal/purge/purge.go:366-383 | whatever was admitted can be recorded as done or as failed, once, also after a halt |
| SystemOutcomes.HoldOidLatches | internal/purge/purge.go:225-240 | a violation can latch the task under its object exactly once per pass |
| SystemOutcomes.LookExact | internal/progress/subtask.go:514-530 | a check can begin with exactly the active members, object 0 excepted, that have not passed in this generation, and only with a true answer |
| SystemOutcomes.FinishPurgeExact | cmd/limewire-purge/main.go:402-420 | a pass can end with its milestone if and only if it was not halted, nothing is in work and every active member is processed |
| SystemOutcomes.FinishDeferExact | internal/progress/subtask.go:610-621 | a deferral ends with the milestone if and only if the task is all processed, unfinished and not held |
| SystemOutcomes.FinishVerifyExact | internal/progress/subtask.go:544-567 | a verification can end with its task finished if and only if every active member has passed in its generation |
| SystemOutcomes.HoldTaskLatches | internal/progress/subtask.go:469-479 | a command that stops before it deletes anything leaves its task on a hold without an object |
| Targets.CommandKeepsToItsTask | internal/progress/subtask.go:126-207 | over any history, from its first transaction to its end a command that was given a task number leaves the row, the members and the checks of every other task as they were |
| Targets.ForeignRunsChangeNothing | internal/progress/task.go:74-101 | over any history a command opened for another bucket changes no table |
| Targets.EveryCommandWasOpened | internal/progress/task.go:104-131 | in every history the command at work was opened after the last one ended, for the bucket the database is bound to, and a task command works on a sealed list |
| Histories.AlwaysForward | internal/progress/subtask.go:440-441 | over any history bindings, manifests, memberships, deferrals, milestones, generations, counters and the audit trail are never undone |
| SafetyLatch.LatchHolds | internal/progress/subtask.go:209-219 | from a hold until its release no task is created and the held task gains neither milestone, in any history |
| SafetyLatch.LatchBlocksPurge | internal/progress/subtask.go:408-417 | in that time no deletion pass begins on any task |
| SafetyLatch.GlobalHoldNeedsResume | internal/progress/subtask.go:580-582 | a hold that names no object is released only by an explicit resume of that task |
| SafetyLatch.AdminFindsTheHold | internal/progress/subtask.go:191-207 | an administrative command without a number goes to a held task, then the open one, then the oldest unverified one |
| SafetyLatch.DoneIsStable | internal/progress/subtask.go:544-567 | until its verification is restarted a finished task keeps all its rows, its members stay processed and passed, and it is never held, whatever other tasks do |
| Evidence.PassIsFresh | internal/progress/subtask.go:433 | a PASS that counts was recorded in this history by a check of both prefixes, and the generation has not moved since |
| Evidence.PassFollowsLastPurge | internal/progress/subtask.go:539-555 | every PASS that counts was recorded after the last deletion pass and the last restart of its task |
| Evidence.NoReopening | internal/progress/subtask.go:481-505 | while the generation stands still no deletion pass and no restart of the task begins |
| Evidence.PassWasSeen | internal/verify/verify.go:77-97 | behind a PASS that counts both prefixes were seen empty during the task's present generation |
| Evidence.AllDoneEvidence | cmd/limewire-purge/main.go:586-588 | at ALL_DONE this holds of every listed object, in its one active assignment |
| Evidence.ResidueWasWrittenBack | README.md:351 | at ALL_DONE any key left under a listed object was written back by somebody after the check that saw its prefix empty |
| Evidence.AllDoneIsEmpty | README.md:351 | if nobody writes keys back, nothing is left of any listed object at ALL_DONE |
| DeadEnds.CanFinishExactly | cmd/limewire-purge/main.go:580-588 | between any two commands of any history with a sealed list, some continuation by the tool alone reaches ALL_DONE if and only if object 0 is not listed and every listed object with a foreign key under it is an active member whose deletion and empty check stand |
| DeadEnds.CanStillFinish | cmd/limewire-purge/main.go:580-588 | that condition suffices in the middle of a command too: holds, crashes, deferrals, failed checks and unfinished deletions never leave the tool stuck |
| Completion.FinishTask | internal/progress/subtask.go:408-567 | an unfinished task with nothing but pieces under its objects can always be brought to its verification by two deletion passes and two checks |
| Removals.EveryRemovalIsOfAMember | internal/purge/purge.go:603-682 | over any history every key that disappears goes as a well-formed piece of an object that is at that moment an active member of the unfinished task being purged, on the sealed list |
| ObjectZero.ZeroBlocksItsTask | internal/progress/subtask.go:387-396 | in every history a task has neither milestone while object 0 is an active member of it |
| ObjectZero.ZeroBlocksAllDone | cmd/limewire-purge/main.go:580-588 | in every history ALL_DONE is not reported while object 0 is on the list |
| Witnesses.ZeroIsTaken | internal/progress/subtask.go:303-333 | a history that lists object 0, seals the list and allocates the object, whatever the valid limits |
| Witnesses.WrongListIsSealed | internal/progress/task.go:160-178 | a history, with an interrupted scan and a repeated row, that seals a list holding an object the sealing scan did not read |
| Witnesses.StaleSnapshotIsSealed | internal/progress/progress.go:188-208 | a history whose sealed list shows an older snapshot than the one the sealing scan read, with all ids distinct |
| Batches.EveryTaskIsShaped | internal/progress/subtask.go:327-337 | every task of every history has 1 to 100000 objects, its exact total, and is one object or below twice its target with no oversize member |
| Batches.BatchesPartitionTheList | internal/progress/subtask.go:303-333 | first-time batches concatenated in order of creation, followed by the unassigned objects, are the object list in object order; there are never more batches than objects |
| Batches.CreateEndsExactly | internal/progress/subtask.go:327-333 | allocation succeeds exactly while its pool is not empty, and reports that nothing is unassigned exactly when it is |
| Accounting.StepBalance | internal/purge/purge.go:618-628 | one event: known before and supplied = known after and lost, per object, in keys and bytes |
| Accounting.AlwaysBalanced | internal/progress/progress.go:248-274 | over any history: recorded + in progress + stored + lost = initially stored + supplied |
| Accounting.CountersAreHonest | internal/progress/progress.go:248-274 | recorded counters and what is stored never exceed what was there, and between commands are exact if and only if nothing was lost to an interrupted attempt or an unconfirmed deletion |
| Storage.Bucket.List | internal/s3store/s3store.go:78-88 | an answered listing reports stored keys of the prefix with their sizes, each once, and is empty only for an empty prefix |
| Storage.Bucket.Empty | internal/s3store/s3store.go:112-116 | an answer tells whether anything is stored under the prefix |
| Storage.Bucket.NextPage | internal/s3store/s3store.go:90-110 | one page of a paging over a prefix: some of the keys not shown yet, each once with its size, none only when none are left |
| Storage.Bucket.Delete | internal/s3store/s3store.go:157-198 | nothing is sent or removed for an empty batch, an oversize one, or one holding anything but pieces of the object; otherwise only keys of the batch can go |
| Traffic.RoundProgress | internal/purge/purge.go:549-556 | a round that removes a key or charges one uses up the remaining attempts, whatever other keys do |
| Traffic.ProgressIsExact | internal/purge/purge.go:642-649 | a round brings the loop closer to its end if and only if the reply accounts for at least one key |
| Engine.IdentityIsExact | internal/purge/purge.go:495-516 | no difference is found if and only if the chain reports exactly the approved object in the target bucket |
| Engine.Count | internal/purge/purge.go:622-628 | confirmed keys are counted with their listed sizes and their failures forgotten, no others |
| Engine.Charge | internal/purge/purge.go:652-663 | exactly the failed keys of the batch get one more failure; stuck are those beyond the retries |
| Engine.Round | internal/purge/purge.go:603-682 | the round ends in the unknown-keys error if and only if the listing holds a foreign key, and then deletes nothing; otherwise, unless refused, the whole listing is submitted once and every listed key is gone or charged |
| Engine.EmptyPrefix | internal/purge/purge.go:526-683 | the loop ends under any failures; each key is submitted at most retries+1 times, deletes are at most n*(retries+1), listings at most (retries+1)*(deletes+1); only pieces of the object go; counters are exact; every request was consented to at its moment; no error means an empty prefix, the unknown-keys error means exactly that a listing showed a foreign key, an interruption exactly that the context refused, and every other error is justified by the requests |
| Engine.ForeignKeysStay | internal/purge/purge.go:609-614 | a foreign key under a prefix is there after the loop if and only if it was there before |
| Engine.PreviewPrefix | internal/purge/purge.go:530-547 | page by page, a dry run sends only listings of the prefix, counts all pieces exactly, fails exactly when a listing does, and otherwise reports foreign keys exactly when some page shows one |
| Engine.ClearPrefix | internal/purge/purge.go:526-683 | the preview in a dry run, the clearing loop otherwise, each with its exact outcome |
| Engine.Recheck | internal/purge/purge.go:476-491 | the prefixes are asked in order until one is not seen empty; no error means both were, by exactly two listings, and each error is the answer of the last one |
| Engine.ProcessOne | internal/purge/purge.go:431-493 | the store only shrinks, by pieces of this object; a dry run or a failed identity check removes nothing; counters are exact and split by prefix; it is interrupted exactly when refused; otherwise a missing chain answer, a mismatch, and the requests for first prefix, second prefix and re-check, in this order, decide the outcome |
| Engine.ViolationExactly | internal/purge/purge.go:446-456 | an attempt that was not interrupted ends in the mismatch if and only if the chain reports another object than the approved one, and in the unknown-keys error if and only if a listing showed a foreign key |
| EngineSteps.AttemptIsRemove | internal/purge/purge.go:457-471 | what an attempt removes and counts is one removal event of the tool's state machine |
| EngineSteps.PurgeObject | internal/purge/purge.go:321-353 | a worker's attempt removes only pieces of its object and leaves those of every other untouched; no error leaves nothing of it; it is a safety violation for the run if and only if it was not refused and the chain reported another object or a listing showed a foreign key |
| EngineSteps.OutcomeIsExact | internal/purge/purge.go:344-356 | the outcome the worker acts on is a violation exactly in these cases and a success exactly without an error |
| EngineSteps.AttemptReturns | internal/purge/purge.go:321-357 | what an attempt returns is what a worker of the concurrent run may do next: two re-checks and success, or an ordinary or a safety error |
| EngineSteps.OthersUntouched | internal/pieceop/key.go:9-23 | deleting pieces of one object leaves the listing of every other object as it was |
| EngineSteps.ClearedLeavesNothing | internal/purge/purge.go:476-491 | two empty prefixes mean that nothing is stored of the object |
| ProtocolInvariants.CoreKept | internal/purge/purge.go:287-315 | no two workers hold the same object, and each received object is held, dropped, abandoned, or written once |
| ProtocolInvariants.OrderStays | internal/purge/purge.go:171-200 | objects reach the workers in ascending order and the cursor never falls behind what was handed out |
| ProtocolInvariants.AlarmKept | internal/purge/purge.go:225-240 | one worker is inside the halt, everything is cancelled before the alarm, and the alarm is raised once |
| ProtocolInvariants.LateKept | internal/purge/purge.go:685-698 | after the halt, requests already past their check and those sent since stay below the number of workers |
| ProtocolTheorems.RunIsHistory | internal/purge/purge.go:126-211 | every interleaving of a concurrent run, with write-backs of others at any point, continues a history of the tool's state machine |
| ProtocolTheorems.AlwaysInStep | internal/purge/purge.go:321-384 | the attempts in progress of the state machine are exactly the objects in the workers' hands |
| ProtocolTheorems.AdmittedOnce | internal/purge/purge.go:295-308 | no object is let through twice in any interleaving |
| ProtocolTheorems.AlwaysInLine | internal/purge/purge.go:171-200 | in every interleaving, objects on their way to a worker are still claimable members of the task |
| ProtocolTheorems.StopEndsAdmission | internal/purge/purge.go:213-223 | after a stop, a halt or a cancellation the set of objects let through never grows |
| ProtocolOutcomes.FailureEndsAdmission | internal/purge/purge.go:352-359 | in every interleaving, once a failed object has been written, or a worker is about to write one, admission has been stopped or everything cancelled |
| ProtocolOutcomes.NothingAdmittedAfter | internal/purge/purge.go:213-223 | after the first failed write, after a completion that was not recorded, and after a refused claim no object is let through |
| ProtocolOutcomes.FailedAttemptStops | internal/purge/purge.go:344-356 | the next step of a worker whose attempt failed without a cancellation leads to the stop, and that of one whose attempt violated to the halt |
| ProtocolOutcomes.FailureWasDecided | internal/purge/purge.go:344-359 | in every interleaving a failure is recorded only if its attempt ended before any cancellation; what a halt or the operator cut short stays without a result |
| ProtocolOutcomes.ViolationHalts | internal/purge/purge.go:225-240 | in every finished run in which an attempt violated, the run has halted |
| ProtocolOutcomes.RunEndsAsItFailed | internal/purge/purge.go:242-285 | a finished run in which an attempt failed does not report success |
| ProtocolOutcomes.SuccessIsClean | internal/purge/purge.go:242-285 | a finished run reports success if and only if nothing went wrong in it: no failed attempt that counted, no unsaved result, no refused claim, no cancellation |
| ProtocolOutcomes.FailedCounts | internal/purge/purge.go:359-368 | the number of failures reported is that of the failed results written |
| ProtocolOutcomes.RecordsKept | internal/purge/purge.go:366-383 | the objects reported as not recorded are exactly those whose last result write was reported lost |
| ProtocolOutcomes.ResultsReachTheTable | internal/purge/purge.go:366-383 | a result write that was reported good is in the table: done for a success, failed for a failure |
| ProtocolOutcomes.AlarmIsLatched | internal/purge/purge.go:225-240 | the alarm puts a hold on the task that names the object, with its reason |
| ProtocolOutcomes.EveryObjectGoesThrough | internal/purge/purge.go:321-384 | each step takes one worker's object exactly one phase on, in the order of the program, and moves no other worker |
| ProtocolOutcomes.AlwaysBuffered | internal/purge/purge.go:171-200 | in every interleaving at most two objects per worker are in the channel and four in the page being offered |
| ProtocolOutcomes.ClaimIsExact | internal/purge/purge.go:181-190 | an answered claim offers the claimable objects above the cursor in order, four per worker or all that are left, and closes the feed exactly when there is none |
| ProtocolOutcomes.FewClaims | internal/purge/purge.go:173-190 | after a stop or a cancellation at most the claim in progress is still made |
| ProtocolTheorems.OneResultEach | internal/purge/purge.go:357-383 | when an uncancelled run is over every object let through had exactly one result write, and no other object had any |
| ProtocolTheorems.OneAlarm | internal/purge/purge.go:225-240 | the alarm is raised at most once, and exactly once if the run halted |
| ProtocolTheorems.FewLateDeletes | internal/purge/purge.go:685-698 | after a halt at most one delete request per other worker still goes out |
| ProtocolTheorems.SuccessIsComplete | internal/purge/purge.go:242-285 | a run that reports success has recorded the completion of every object claimable at its start, except object 0 |
| ProtocolTheorems.SuccessThenMilestone | cmd/limewire-purge/main.go:402-420 | after a successful run the deletion milestone is granted if and only if object 0 was not left to process |
| ProtocolStorage.SuccessLeavesNothing | internal/purge/purge.go:242-285 | after a successful run all that is stored of an object it could claim was supplied by others meanwhile; with no write-back nothing is left of any |
| ProtocolProgress.NoDeadlock | internal/purge/purge.go:171-211 | in every reachable state that is not the end some goroutine of the run can take a step |
| ProgressDb.Database.EnsureSchema | internal/progress/progress.go:165-178 | recovery, row by row, equals the recovery transaction |
| ProgressDb.Database.Bind | internal/progress/task.go:74-101 | binds an empty unbound database, accepts the same binding, refuses all else without a change |
| ProgressDb.Database.BeginScan | internal/progress/task.go:134-156 | marks the list incomplete unless it is sealed or tasks exist |
| ProgressDb.Database.InsertScan | internal/progress/progress.go:188-208 | inserts rows in order, and a row already present keeps its first snapshot |
| ProgressDb.Database.FinishScan | internal/progress/task.go:160-178 | seals a list of exactly the expected positive size and refuses any other |
| ProgressDb.Database.CreateSubtask | internal/progress/subtask.go:267-362 | the guards in order, then one batch selected and inserted with its members, all or nothing |
| ProgressDb.Database.ClaimSubtask | internal/progress/subtask.go:387-406 | a page of claimable objects above the cursor, in object order, with their snapshots; none is left out before the end of a full page |
| ProgressDb.Database.BeginPurge | internal/progress/subtask.go:408-438 | requeues residue and moves the generation on, or refuses without a change; the manifest check never refuses |
| ProgressDb.Database.CountRows | internal/progress/subtask.go:251-265 | one pass over the rows yields the counts |
| ProgressDb.Database.CompletePurge | internal/progress/subtask.go:440-467 | sets the milestone or refuses without a change |
| ProgressDb.Database.Hold | internal/progress/subtask.go:469-479 | latches an unfinished task with a reason cut to 3900 characters |
| ProgressDb.Database.BeginVerify | internal/progress/subtask.go:481-510 | leaves a finished task alone unless restarted, else checks and enters the verification phase; the manifest check never refuses |
| ProgressDb.Database.RecordVerify | internal/progress/subtask.go:532-542 | writes one result of an active member and refuses any other status |
| ProgressDb.Database.CompleteVerify | internal/progress/subtask.go:544-567 | finishes the task only in the phase and generation that was verified |
| ProgressDb.Database.DeferObject | internal/progress/subtask.go:569-621 | sets one active object aside with an audit record, releases a hold that names it, and sets the milestone exactly when nothing is left to process; it never fails half way |
| ProgressDb.Database.ResumeSafety | internal/progress/subtask.go:623-645 | releases a hold and keeps its reason in the audit trail |
| ProgressDb.Database.DoneSubtask | internal/progress/subtask.go:680-706 | adds to the counters and clears a stale check in one transaction, for active members only |
| ProgressDb.Database.Fail | cmd/limewire-purge/main.go:275-280 | adds to the counters of an active member and marks it failed |
| VerifyRun.Retry | internal/verify/verify.go:106-144 | an answer is true and ends a row of failed listings of this prefix; no answer means that the context refused, or exactly retries+1 failed ones; every listing was consented to at its moment |
| VerifyRun.CheckObject | internal/verify/verify.go:77-97 | the verdict of two true replies, residue before error before pass; sent are the attempts for the first prefix and those for the second, nothing else; unless refused no check gives up early |
| VerifyRun.VerdictIsExact | internal/verify/verify.go:77-97 | an examination records residue if and only if an answered prefix holds something, an error if and only if none did and one was not answered, and a pass if and only if both were answered and nothing is stored of the object |
| VerifyRun.CheckNext | internal/verify/verify.go:54-68 | the next member is recorded exactly if the context consents before and after its examination; what was cut off is not recorded |
| VerifyRun.Run | internal/verify/verify.go:38-75 | everything it sends is one examination after the other of the first pending members in ascending order, at most retries+1 listings per prefix; it stops only when refused, and otherwise examines all of them, once each; their verdicts are recorded in that order, and only an examination cut off at the end goes unrecorded |
| VerifyRun.OnlyOwnListings | internal/verify/verify.go:77-97 | no request is a delete, and none concerns an object that is not examined, so members that have passed are not asked about again |
| VerifyCommand.WholeRun | internal/verify/verify.go:59-68 | after a whole run every member that was pending has an honest result of this generation and all other rows are as they were |
| VerifyCommand.RunThenComplete | internal/progress/subtask.go:544-567 | completion then succeeds if and only if every pending member passed and object 0 was not pending |
| VerifyCommand.WholeRunDecides | internal/progress/subtask.go:544-567 | after a whole run completion succeeds if and only if object 0 was not due and every examination saw both prefixes empty |
| VerifyCommand.RunVerify | cmd/limewire-purge/verify.go:45-97 | an unbound, foreign or unsealed database, a task that cannot be chosen and one that BeginVerify refuses are refused for exactly that reason; the manifest is never found changed and no hold is set; once begun, a run that is not interrupted examines every due member and succeeds if and only if all were seen empty; the tables left are those of the recorded examinations, and success finishes the task with nothing stored of any due member |
| CommandSteps.RunHappens | internal/verify/verify.go:38-75 | the examinations a run records, in its order, are looks and judgements of a history of the tool, and its tables are those of that history |
| ScanRun.Scan | internal/bsdb/scan.go:68-119 | from a table that may change between queries each primary key is read at most once, in order, as it then was, and inserted; it fails exactly when a query does, and otherwise none that was there throughout is missing |
| ScanRun.UnchangedIsReadWhole | internal/bsdb/scan.go:68-70 | if the table does not change, that is every live row exactly once |
| ScanRun.RunScan | cmd/limewire-purge/main.go:172-230 | success means both counts, the rows read and the sealed list agree and nothing present throughout is missing; failure never seals; an empty bucket, a refused binding or list, a failed query, counts that disagree and a list of another size each give exactly their own error, and nothing else fails |
| CommandSteps.ScanHappens | cmd/limewire-purge/main.go:172-230 | a scan that ends well is a history of the tool, and its tables are those of that history |
| ScanRun.SealIsExact | internal/progress/task.go:160-178 | a successful seal lists exactly the objects read by this scan if and only if no object id was read twice |
| ScanRun.SnapshotsAreExact | internal/progress/progress.go:188-208 | the list shows what this scan read of every object if and only if all leftovers already said the same and no two rows of one object differ |

## Left out

- Chain client and deadlines (internal/chain, internal/deadline): the chain is an oracle that returns a head or nothing.
- Session locking (internal/progress/lock.go): commands run one at a time; lock loss appears only as an interruption, and exclusion after lock loss is not claimed.
- AWS client, credentials, versioned buckets (internal/s3store): only listing, deleting and the delete guard are modelled.
- Configuration, flags and URL handling (internal/spconfig, cmd): refused flag combinations do not reach the model.
- SHA-256 digest and murmur3 table names: a manifest digest is the row list itself, and the shard is given.
- SQL text, DDL and column migration: each statement is modelled by its meaning on the tables.
- Rate limits, backoff durations, heartbeat, logging, status printing and TSV reports.
- Subtask.State, Binding.Diff, ParseCapacity and checkSize: case splits without a property beyond their branches.
- Columns that nothing decides on: role, expected_bytes, fail_reason, verify_detail, defer_reason, timestamps, execution_connection_id.
- ProgressDb.Database.Fail: the membership check and the write are one step here; the program sends two statements.
- Accounting.CountersAreHonest: counters are unbounded, while deleted_keys is a 32-bit column.
- Engine.Turn: the pause after a failure is a look at the context without a duration; that the program looks both during the pause and before the next request is not told apart.
- Engine.EmptyPrefix: nobody else changes the prefix while the loop runs; over whole histories `System` lets others add keys.
- VerifyRun.Run: the store is fixed while the loop runs; over whole histories `Evidence` lets it change between any two requests.
- Concurrent dry run: workers that only list and write nothing are not part of the step relation.
- Memory model of Go and the goroutine scheduler: a step of the concurrent run is atomic, and fairness is not modelled.
