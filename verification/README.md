# Verified model of the batch-ingestion protocol and its companion scripts

AI_Brain ingests a drive in bounded batches. Several workers claim rows of a few shared tables under
leases, each grant carries a fencing generation, and work is charged to per-batch ledgers. Nothing
spans more than one short committed transaction, so every guarantee has to survive any interleaving of
those transactions, crashes between them, and workers that wake up after their lease is gone. Around
this core sit scripts that decide which files and folders of a drive may be removed.

The project models that behaviour in Dafny and proves what it promises. `dafny verify dfyconfig.toml`
checks all of it.

## How it is organised

- `Tables` holds the rows and one function per committed transaction; `WorkerClaims` is the claim
  service statement by statement, proved to leave exactly those transactions behind.
- `Protocol` is a transition system over the tables: one action per committed transaction of one call
  in flight, plus crashes, operator control and the clock. An action that is not enabled changes
  nothing, so every sequence of actions is an interleaving and every interleaving is such a sequence.
  `Pipeline`, `Evolution`, `Fencing`, `Leases`, `Ledger`, `ByteLedger`, `Completion`, `Report`, `Recovery` and
  `ArchiveRecovery` prove statements about every reachable state and every continuation.
- `Stages`, `RootCalls` and `Orchestrator` are the services as loops and statements over a session. Each
  call of the document stages, of identity resolution, of archive processing and of the completion check
  is proved to be a run of the protocol, and so is a whole invocation of the orchestrator (`Runs`);
  `RootProgress`, `StageProgress` and `EmbeddingStage` say how the stages come to an end and what they leave.
- `ArchiveWalk` is the recursive walk of an archive with its idempotent micro-commits and crashes, and
  `ArchiveTables` shows that this is what the archive service does to the tables.
- `BatchControl` (status machine and runtime accounting), `RemovalPlan`, `NewFolders`, `Merkle`,
  `Extraction`, `CleanReads` and `Retirement`, `Selection`, `Pilot`, `Chunker` and `Ranking` each model
  one service or script or a part of one. `Collections`, `TextOrder` and `Arithmetic` are shared helpers.

## What is false of the code, and when it holds

- The report raises on consistent data if a root finishes between two of its queries
  (`Report.ReportCanRaiseFalsely`). On one snapshot, and for a check during which nothing moves, it raises
  exactly under the condition of `Report.SnapshotRaisesExactly` and `Report.QuietCheckRaisesExactly`.
- A crash between the identity commit and the attempt commit can leave a batch that never completes as
  exhausted; `Recovery.CrashInTheGapExactly` says exactly when. A crash in the middle of an archive walk
  leaves the estimate charged and can do the same (`ArchiveRecovery.CrashInTheWalkCanBlock`);
  `ArchiveRecovery.CrashInTheWalkExactly` says exactly when.
- Recorded runtime is exact for one service instance and never too large across restarts, but two live
  instances over-count, by closing a RUNNING period they did not begin
  (`BatchControl.TwoInstancesOverCount`) or by aborting a batch that another one paused
  (`BatchControl.PausedAbortOverCounts`). `BatchControl.RecordedIsExactIff` says of every call exactly when
  it records too much, and `BatchControl.RuntimeDrifts` that nothing else moves the runtime away from the
  closed RUNNING time.
- The embedding stage never ends if the client, from some call on, only answers with no vectors and by then
  no RUNNING batch owns an oldest waiting group with chunks to embed. With every other client and in every
  other case it ends (`EmbeddingStage.StageEndsExactly`).
- The node reported as the root of an archive ignores the archive's folders
  (`Merkle.ArchiveRootSeesTopFilesOnly`), although the script's own description says it stands for
  everything inside.
- A folder that lies inside another input folder breaks the safety of the new-folder comparison
  (`NewFolders.NestedFoldersLoseContent`); `NewFolders.BadFileCoveredExactly` says for which files. So does a
  verified extraction inside an input folder (`NewFolders.VerifiedInsideLosesContent`), although the
  script's own description speaks of copies outside the given folders; `NewFolders.KeeperGoesExactly` says
  exactly when the copy relied on is lost.
- Two archive members of one name that are written at the same time leave a copy with mixed bytes that a
  later archive is judged by (`Retirement.TwoWritersVerifyGarbage`), exactly if two needed members that
  are finished together go to one new file (`Extraction.TogetherIsSafeExactly`). A reader that gives up
  with members open can spoil what the fallback extracts (`Retirement.LateWriteLosesContent`), exactly if
  the fallback extracts a needed member to a file the first reader had opened
  (`Extraction.FallbackIsSafeExactly`, and `Extraction.LateWriteIsSafeExactly` for any steps).
- If a whole drive holds only repeats the removal plan lists no folder at all
  (`RemovalPlan.ListedExactlyWhen`); every file is then listed by itself, so nothing is lost.

## Conventions

- A group is keyed by its identity hash and a document by its group, which is what the tables' unique
  constraints make of them; a lost insert race is the same as finding the row.
- A worker's generation is the value its grant returned. A group's text is fixed, so the number of its
  chunks (`pieces`) is a property of the group.
- Exceptions that no handler catches are the actions `Raise` and `Abandon`, possible at any point of a
  call.
- The outcomes of file reads, text extraction, archive readers, the embedding client, the resource
  probes and the clock are parameters.
- Paths are sequences of components in the folder algorithms and texts where they are sorted.
- That no member is extracted to a partial file's name or onto an archive of the run, and no archive has
  such a name, is the assumption `SoundLayout`; members may share a destination.

## Model

| member | source | states |
|---|---|---|
| `Ledger.EmbeddingLedger` | backend/app/classification/worker_claim_service.py:617-794 | in every interleaving of calls, crashes, operator steps and reclaims a batch's `embeddings_reserved` is exactly what groups now reserve against it plus everything it ever consumed, between 0 and `max_embeddings` |
| `Ledger.AbandonedReservationsReturn` | backend/app/classification/worker_claim_service.py:198-245 | a reservation left behind is credited, in full and to the batch the row names and no other, by the next claim once the lease has run out; the generation moves on by one |
| `Ledger.MoveKeepsLedger` | backend/app/classification/worker_claim_service.py:617-665 | a transaction that writes one group row keeps every batch's ledger balanced if the counter moves by exactly what the row's reservation and the consumed total move by |
| `Pipeline.PipelineSafety` | backend/app/classification/pipeline_embedding_service.py:136-286 | at every moment a group past EXTRACTED that has not failed has its Document, a chunked one all its chunk rows, an ingested one every embedding, and no terminal group a reservation |
| `Pipeline.InvKept` | backend/app/classification/normalization_service.py:102-126 | every action of every call keeps what each group state and each delayed call promises about documents, chunks, embeddings, attempts and reservations |
| `Evolution.StatesMoveForward` | backend/app/classification/chunking_service.py:92-148 | between any two moments of any run a group's state only moves forward or to FAILED and a terminal state is never left |
| `Evolution.LaterEvolves` | backend/app/classification/content_identity_service.py:174-189 | over any run identities are write-once, generations never go back, attempts and embeddings are never removed, roots of a batch are fixed, finished batches stay as they are |
| `Fencing.GenerationsNeverRepeat` | backend/app/classification/worker_claim_service.py:228-244 | over any run the generations granted on a row, group or instance, strictly increase, so none is granted twice |
| `Fencing.OneHolder` | backend/app/classification/worker_claim_service.py:371-424 | at most one call in flight holds a row's current generation |
| `Fencing.LostRowStaysLost` | backend/app/classification/worker_claim_service.py:278-297 | a group call whose row was reclaimed is locked out for good: whatever happens meanwhile, its reserve, consume, credit and release change no group row and no batch counter |
| `Fencing.LostInstanceReleasesNothing` | backend/app/classification/worker_claim_service.py:438-451 | an instance call whose row was reclaimed takes the claim from nobody when it releases, whatever happens meanwhile |
| `Fencing.GrantGate` | backend/app/classification/worker_claim_service.py:371-424 | between a candidate SELECT and its UPDATE the row cannot change, so the grant goes through exactly when the run's batch is RUNNING at the UPDATE, even if it was paused after the SELECT |
| `Leases.OnlyClaimsTakeGroups` | backend/app/classification/worker_claim_service.py:200-226 | of all actions only a claim whose lease has run out gives a claimed group to another call; every other one leaves generation and claim alone or gives the claim up |
| `Leases.GroupLeaseHolds` | backend/app/classification/worker_claim_service.py:200-226 | over any run in which every claim has at least this lease, a claimed group keeps its generation and claim as long as its claim is no older, unless the holder gives it up |
| `Leases.OnlySelectsTakeInstances` | backend/app/classification/worker_claim_service.py:371-424 | of all actions only the UPDATE after a candidate SELECT gives a claimed instance to another call |
| `Leases.GrantTakesExpired` | backend/app/classification/worker_claim_service.py:408-424 | such an UPDATE takes only a row whose claim is empty or older than the limit its SELECT computed from the lease |
| `Leases.InstanceLeaseHolds` | backend/app/classification/worker_claim_service.py:371-424 | over any run in which every SELECT has at least this lease, an instance that no SELECT has picked yet keeps its generation and claim as long as its claim is no older, unless the holder gives it up |
| `ByteLedger.ExtractedBytesLedger` | backend/app/classification/archive_processing_service.py:279-324 | a batch's `extracted_bytes_consumed` is always the measured bytes of its finished archive attempts plus the estimates in flight plus what crashed attempts left charged, so it is never negative |
| `ByteLedger.CrashFreeBytes` | backend/app/classification/archive_processing_service.py:353-369 | without crashes and uncaught exceptions the counter is measured bytes plus estimates in flight and nothing else; failed attempts net to zero |
| `ByteLedger.OnlyThisRaises` | backend/app/classification/archive_processing_service.py:256-324 | of all actions only two lift a batch's counter: an admission, by the declared size, while RUNNING and never past the envelope, and the settlement of a walk that measured more than its estimate |
| `Completion.CompletionIsSound` | backend/app/classification/batch_completion_reconciliation_service.py:88-103 | although the report is several reads, a batch completed as SOURCE_WORK_EXHAUSTED has only terminal selected roots, then and at every later moment |
| `Completion.CompletionAppliesOnce` | backend/app/classification/batch_completion_reconciliation_service.py:96-103 | of any number of racing checks exactly one is told `applied=True`, and only if the batch stands completed as exhausted |
| `Completion.NextCountOk` | backend/app/classification/batch_report_service.py:257-292 | counts read one query after another stay lower bounds of what they count, because finished archives are counted before dead ones and excluded from them |
| `Completion.TerminalStays` | backend/app/classification/batch_report_service.py:228-292 | a terminal root stays terminal under every step of every call |
| `Report.SnapshotRaisesExactly` | backend/app/classification/batch_report_service.py:312-340 | on a single snapshot the report's consistency check raises exactly when roots finished without an attempt on record outnumber attempted unfinished ones |
| `Report.ReportCanRaiseFalsely` | backend/app/classification/batch_report_service.py:144-165 | a reachable run in which the report raises although every committed state it read was consistent: a root finishes between its first two queries |
| `Report.QuietCheckRaisesExactly` | backend/app/classification/batch_report_service.py:144-165 | in any interleaving: if no attempt is recorded and no root becomes attempted or terminal while a check counts, it raises exactly when roots finished without an attempt on record outnumber attempted unfinished ones |
| `Recovery.AssignedRootFinishesExactly` | backend/app/classification/identity_resolution_service.py:167-173 | at any moment of any interleaving a root with an identity can still be brought to an attempt on record and a terminal state exactly if it is not stuck: an archive-category root without an attempt that settles it, or a loose one in an excluded or unsupported group without any attempt, and no call about to record one |
| `Recovery.CrashInTheGapExactly` | backend/app/classification/identity_resolution_service.py:167-173 | a crash between the identity commit and the attempt commit is harmless exactly if the call was not the root's last chance of an attempt |
| `Recovery.CrashInTheGapBlocksForEver` | backend/app/classification/identity_resolution_service.py:167-173 | after a crash that took the last chance no sequence of claims, retries, reclaims and checks ever completes the batch as exhausted |
| `ArchiveRecovery.ArchiveRootFinishesExactly` | backend/app/classification/archive_processing_service.py:279-324 | at any moment of any interleaving, with claims in the name of a run, an archive can still be finished exactly if it is settled, or past admission, or its batch is not over and its declared size fits above what the counter can never go below again |
| `ArchiveRecovery.CrashInTheWalkExactly` | backend/app/classification/archive_processing_service.py:279-294 | a crash between the admission commit and the settlement can be recovered from, with nothing else of the batch in flight, exactly if the batch is not over and the estimate fits once more on top of the counter |
| `ArchiveRecovery.CrashInTheWalkCanBlock` | backend/app/classification/archive_processing_service.py:279-294 | a reachable walk, 8 of 10 bytes charged, whose crash no later claim in the name of the run recovers from |
| `ArchiveRecovery.FloorRises` | backend/app/classification/archive_processing_service.py:296-324 | what finished and crashed attempts have put on a batch's counter for good, and finished walks are about to, never comes down again |
| `Recovery.BlockedRootBlocksBatch` | backend/app/classification/batch_completion_reconciliation_service.py:88-103 | a root that nothing can finish any more keeps its batch from ever being completed as exhausted |
| `Recovery.TheGapIsReachable` | backend/app/classification/identity_resolution_service.py:140-173 | an ordinary claim of an ordinary root in a running batch reaches a call that is its root's last chance |
| `WorkerClaims.WorkerClaimService.ClaimContentIdentityGroup` | backend/app/classification/worker_claim_service.py:198-245 | claims the oldest eligible row not locked by another transaction whose claim is empty or older than the lease (`at + lease < now`), or nothing if there is none; the new claim is the caller's, made now; credits and clears an abandoned reservation and advances the generation |
| `WorkerClaims.WorkerClaimService.ReleaseContentIdentityGroupClaim` | backend/app/classification/worker_claim_service.py:278-297 | applies exactly when the caller's generation is current; a superseded caller changes nothing |
| `WorkerClaims.WorkerClaimService.ClaimSourceInstance` | backend/app/classification/worker_claim_service.py:371-424 | for both instance queues: grants the oldest candidate not excluded whose claim is empty or older than the lease, exactly when there is one and the run's batch is still RUNNING at the UPDATE; every other waiting row is excluded, locked or claimed within its lease |
| `WorkerClaims.WorkerClaimService.ReleaseSourceInstanceClaim` | backend/app/classification/worker_claim_service.py:438-451 | generation-fenced release of an instance claim |
| `WorkerClaims.WorkerClaimService.ReserveEmbeddings` | backend/app/classification/worker_claim_service.py:617-669 | all of `n` or nothing: both rows are written or the group write is rolled back and the claim released, with the reason that holds |
| `WorkerClaims.WorkerClaimService.ConsumeEmbeddingReservation` | backend/app/classification/worker_claim_service.py:691-711 | clears the reservation and releases into the new state exactly when the caller holds the row and a reservation; the batch counter keeps what was consumed |
| `WorkerClaims.WorkerClaimService.ReleaseEmbeddingReservation` | backend/app/classification/worker_claim_service.py:763-794 | credits the batch the row itself names exactly when the caller holds the row and a reservation; otherwise changes nothing |
| `Stages.NormalizeIsARun` | backend/app/classification/normalization_service.py:69-126 | a normalization call is a run of the protocol, whatever the workspace holds |
| `Stages.ChunkIsARun` | backend/app/classification/chunking_service.py:71-148 | a chunking call is a run of the protocol |
| `Stages.EmbedIsARun` | backend/app/classification/pipeline_embedding_service.py:112-224 | an embedding call is a run of the protocol, whatever the guard, the envelope and the client answer |
| `Stages.ChunkCallMeans` | backend/app/classification/chunking_service.py:92-148 | a chunking call, in terms of state, rows and attempts: CHUNKED exactly if the document has chunk rows or its text can be had and inserted, with a success; else FAILED with a retryable failure and nothing inserted; claim and reservation cleared, one generation on, every other group and batch as it was but for the credit of an abandoned reservation |
| `Stages.NormalizeCallMeans` | backend/app/classification/normalization_service.py:69-126 | the same for a normalization call: NORMALIZED exactly if the workspace holds text, with the document it had or a new one without chunk rows; else FAILED |
| `Stages.EmbedCallMeans` | backend/app/classification/pipeline_embedding_service.py:112-224 | the same for an embedding call: INGESTED at once if nothing is left to embed, untouched if deferred, FAILED if the client fails, else INGESTED or EMBEDDED by whether every chunk has its vector |
| `Stages.DeferredExactly` | backend/app/classification/pipeline_embedding_service.py:155-187 | a call is deferred exactly if there is something to embed, a batch owns the group, and the guard stops it or the batch is not RUNNING or its envelope cannot take all of it |
| `Stages.FirstGetVectors` | backend/app/classification/pipeline_embedding_service.py:189-191 | the chunks that get a vector are the first of those without one, as many as there are vectors |
| `Stages.EmbedCallSettles` | backend/app/classification/pipeline_embedding_service.py:251-323 | run to its end, an embedding call leaves its group unclaimed and unreserved one generation on; unless deferred it is FAILED, EMBEDDED or INGESTED, and INGESTED only with every chunk embedded |
| `Stages.ReservedSettles` | backend/app/classification/pipeline_embedding_service.py:275-323 | a reserved call that embedded charges its batch for exactly what it reserved; one that failed leaves every batch as it found it |
| `Stages.StageServices.NormalizeNext` | backend/app/classification/normalization_service.py:45-67 | works on the oldest EXTRACTED candidate, or reports that there is none; the group becomes NORMALIZED with a document exactly if its text could be had, else FAILED, with the attempt that belongs to it |
| `Stages.StageServices.ChunkNext` | backend/app/classification/chunking_service.py:47-69 | works on the oldest NORMALIZED candidate; a group whose document has chunk rows, or has readable text with rows that can be inserted, becomes CHUNKED with a success and exactly the chunk rows of its text, every other one FAILED with a retryable failure and the rows it had |
| `Stages.StageServices.EmbedNext` | backend/app/classification/pipeline_embedding_service.py:72-110 | works on the oldest CHUNKED or EMBEDDED candidate with the lowest-id RUNNING owner, and says whether it was deferred |
| `Stages.StageServices.ResolveOwningRunningBatch` | backend/app/classification/pipeline_embedding_service.py:226-249 | the lowest id among the RUNNING batches one of whose instances, root or member, resolves to the group; none exactly if there is none |
| `Stages.StageServices.StoreVectors` | backend/app/classification/pipeline_embedding_service.py:189-191 | vectors go to the unembedded chunks in chunk order, up to the shorter of the two lists |
| `ArchiveWalk.ResumeEqualsUninterrupted` | backend/app/classification/archive_processing_service.py:386-497 | any number of crashed attempts followed by one full walk leaves exactly the rows, assignments and groups of one uninterrupted walk, for every tree and every earlier content of the tables |
| `ArchiveWalk.WalkExtends` | backend/app/classification/content_identity_service.py:174-189 | no walk removes a row or a group or changes an assignment |
| `ArchiveWalk.WalkSucceedsExactly` | backend/app/classification/archive_processing_service.py:400-403 | the walk returns exactly when every archive in the tree is readable and nesting is at most `max_depth`; the outcome depends on the tree alone, so too deep is too deep on every retry; on success it has counted the bytes of the whole tree |
| `ArchiveWalk.MemberPathsDistinct` | backend/app/classification/archive_processing_service.py:420-426 | full member paths are distinct over the whole tree when each extraction's paths are prefix-free |
| `ArchiveWalk.WalkLeavesExactlyTheTree` | backend/app/classification/archive_processing_service.py:431-497 | a finished walk adds one row per member, gives each file row the group of its own content and each archive row none, and touches no other row |
| `ArchiveWalk.ArchiveExtraction.ExtractRecursive` | backend/app/classification/archive_processing_service.py:386-497 | the recursive loop commits exactly the operations of the walk, or as many of them as the process lives for, and ends as the tree says |
| `ArchiveTables.WalkOnTables` | backend/app/classification/archive_processing_service.py:431-497 | what the operations of a walk, or the first of them, do to the instance and group rows is exactly what they do to the walk's own rows, so everything proved about the walk holds of the tables |
| `ArchiveTables.ResumeOnTables` | backend/app/classification/archive_processing_service.py:386-497 | however often the walk was cut off on these tables before, one full walk leaves the rows that one uninterrupted walk would have left |
| `ArchiveTables.TablesHoldTheTree` | backend/app/classification/archive_processing_service.py:431-497 | a walk that returns, on tables without its rows, leaves one member row in the root's run for every member of the whole tree, a file's with the group of its own content, an archive's without any |
| `BatchControl.AppliesExactlyWhenLegal` | backend/app/classification/batch_control_service.py:17-54 | a call goes through exactly when the frozen graph has its edge with its reason, the reasons and source states listed one by one |
| `BatchControl.TraceFollowsGraph` | backend/app/classification/batch_control_service.py:120-266 | in every run of any callers the status trace is a path of the frozen graph, terminal statuses absorb, `stop_reason` is null exactly in PLANNED and RUNNING |
| `BatchControl.TerminalAbsorbs` | backend/app/classification/batch_control_service.py:286-333 | once COMPLETED or ABORTED no later call changes the row |
| `BatchControl.SingleInstanceIsExact` | backend/app/classification/batch_control_service.py:268-284 | one service instance that never crashes records exactly the closed RUNNING time |
| `BatchControl.RestartsNeverOverCount` | backend/app/classification/batch_control_service.py:93-105 | across restarts with one live instance at a time recorded runtime never exceeds the closed RUNNING time |
| `BatchControl.RecordedIsExactIff` | backend/app/classification/batch_control_service.py:134-284 | what a call that pauses, completes or aborts records is the RUNNING time it ends (none from PAUSED) exactly when the caller's session began with that time, too much exactly when the session is older, and nothing without a session |
| `BatchControl.RuntimeDrifts` | backend/app/classification/batch_control_service.py:268-284 | over every run of any number of instances the recorded runtime is the closed RUNNING time plus what the recording calls got wrong, and nothing else |
| `BatchControl.PausedAbortOverCounts` | backend/app/classification/batch_control_service.py:196-235 | a run in which a batch that another instance paused is aborted by the one that started it: 20 seconds recorded for 10 |
| `BatchControl.NeverOverCounts` | backend/app/classification/batch_control_service.py:268-284 | with any number of instances runtime can exceed the closed RUNNING time only through a caller whose session is older than the RUNNING time it should account for |
| `BatchControl.TwoInstancesOverCount` | backend/app/classification/batch_control_service.py:268-284 | a run with two live instances that records 30 seconds for 20 seconds of RUNNING |
| `BatchControl.BatchControlService.StartBatch` | backend/app/classification/batch_control_service.py:120-132 | PLANNED to RUNNING, begins this instance's session |
| `BatchControl.BatchControlService.PauseBatch` | backend/app/classification/batch_control_service.py:134-156 | RUNNING to PAUSED with a pause reason, adds this instance's session to the runtime; any other reason raises |
| `BatchControl.BatchControlService.ResumeBatch` | backend/app/classification/batch_control_service.py:158-194 | a paused batch is aborted exactly with under 10 GiB free for the workspace or 5 GiB for Postgres, with the workspace's reason if it is short, left alone with under 15 or 8 GiB, and otherwise resumes; if other callers changed the row between probe and update, exactly if that transition is still legal |
| `BatchControl.BatchControlService.AbortBatch` | backend/app/classification/batch_control_service.py:196-235 | aborts from the states the reason is legal in, and only from those |
| `BatchControl.BatchControlService.CompleteBatch` | backend/app/classification/batch_control_service.py:237-264 | RUNNING to COMPLETED with a completion reason only |
| `BatchControl.BatchResourceGuard.CheckOllamaForEmbedding` | backend/app/classification/resource_guard.py:250-276 | hard stop exactly when the last three probes all failed |
| `Orchestrator.Orchestrator.RunIdentityStage` | backend/app/classification/batch_orchestrator_service.py:234-293 | the loop ends, every root claimable at its start is attempted exactly once however often older ones fail: a readable one ends with the group of its content and a success on record, another with a retryable failure, and every other root is as it was; the whole stage is a run of the protocol |
| `Orchestrator.Orchestrator.RunArchiveStage` | backend/app/classification/batch_orchestrator_service.py:175-186 | the same for archives unless an admission is refused, which ends the stage: success, durable or retryable failure on record as the archive's tree has it; a refusal is reported only if some claimable archive not attempted would be turned away; no loose root is touched |
| `Orchestrator.Orchestrator.RunNormalizationStage` | backend/app/classification/batch_orchestrator_service.py:196-201 | every waiting group is worked on exactly once and ends NORMALIZED exactly if its content allows it, else FAILED, and stays so to the end of the stage |
| `Orchestrator.Orchestrator.RunChunkingStage` | backend/app/classification/batch_orchestrator_service.py:202-205 | every waiting group is worked on exactly once and ends CHUNKED exactly if it has a document that was chunked before or whose text can be had, else FAILED, and stays so to the end of the stage |
| `Orchestrator.Orchestrator.RunEmbeddingStage` | backend/app/classification/batch_orchestrator_service.py:206-210 | ends unless, from a call on from which the client only answers with nothing, an oldest group it would be asked about has no RUNNING owner; then leaves nothing in its queue, or reports a deferral with some waiting group's owner lacking the envelope for it; and is a run of the protocol |
| `Orchestrator.Orchestrator.RunOnce` | backend/app/classification/batch_orchestrator_service.py:150-232 | one invocation returns and is a run of the protocol, has attempted every root claimable at its start exactly once (archives unless an admission was refused) and left each as its content has it, leaves no group waiting to be normalized or chunked, nor to be embedded unless some waiting group's owner lacks the envelope for it, and, from tables that are reached, completes the batch exactly if after that it is RUNNING with all selected roots attempted and terminal |
| `Orchestrator.BatchCompletionService.CheckAndComplete` | backend/app/classification/batch_completion_reconciliation_service.py:75-103 | alone, the check completes a batch exactly when it is RUNNING and of every selected root an attempt is on record and an archive succeeded or failed durably, any other root's content is ingested, excluded, unsupported, failed or needs review; otherwise it changes nothing |
| `Runs.CheckIsARun` | backend/app/classification/batch_completion_reconciliation_service.py:88-103 | a check that completes the batch is a run of the protocol: five counting queries, the decision, the update |
| `Runs.ReachedIsOk` | backend/app/classification/batch_creation_service.py:99-121 | in tables that some moment of the protocol has, a batch's selected count is the number of its roots and an exhausted one has only terminal roots |
| `EmbeddingStage.EmbedProgresses` | backend/app/classification/pipeline_embedding_service.py:136-224 | a call that is not deferred takes its group out of the queue or leaves it fewer chunks to embed, unless the client is asked and answers with nothing |
| `EmbeddingStage.OwnedTurn` | backend/app/classification/pipeline_embedding_service.py:155-224 | where every group the client would be asked about has a RUNNING owner it stays so, and every turn uses up work or envelope whatever the client answers |
| `EmbeddingStage.StageEndsExactly` | backend/app/classification/pipeline_embedding_service.py:136-224 | for every client, and however ties in age are broken, the stage ends exactly if, from a call on from which the client only answers with nothing, every oldest group it would be asked about has a RUNNING owner |
| `EmbeddingStage.EmptyClientEndsExactly` | backend/app/classification/pipeline_embedding_service.py:136-224 | with a client that only ever answers with nothing the stage ends exactly if every oldest waiting group with chunks to embed has a RUNNING owner, or there is none |
| `EmbeddingStage.OwnedStageEnds` | backend/app/classification/pipeline_embedding_service.py:155-224 | with any client the stage ends if every waiting group with chunks to embed has a RUNNING owner |
| `EmbeddingStage.StageNeverEnds` | backend/app/classification/pipeline_embedding_service.py:155-224 | from a call on from which the client only answers with nothing, an oldest waiting group that no RUNNING batch owns leaves any number of turns to take |
| `RootCalls.CandidatesShrink` | backend/app/classification/worker_claim_service.py:380-406 | an attempt at one root leaves every other root claimable or not as it was, so excluding it is all that changes |
| `RootCalls.ResolveIsARun` | backend/app/classification/identity_resolution_service.py:110-173 | an uninterrupted identity call is a run of the protocol |
| `RootCalls.ArchiveIsARun` | backend/app/classification/archive_processing_service.py:169-369 | an uninterrupted archive call is a run of the protocol: admission, the commits of the walk one by one, settlement, attempt, release |
| `RootCalls.RootServices.ResolveNext` | backend/app/classification/identity_resolution_service.py:51-108 | attempts the oldest candidate not excluded: assigns its identity and records success, or records the read failure, and releases the claim |
| `RootCalls.RootServices.PreflightAdmit` | backend/app/classification/archive_processing_service.py:237-294 | admits exactly when neither guard nor envelope nor status refuses; a refusal writes nothing |
| `RootCalls.RootServices.ProcessNextArchive` | backend/app/classification/archive_processing_service.py:169-235 | charges the declared size, commits exactly the walk of the archive's own tree, then reconciles to the measured bytes or gives the estimate back, records one attempt (a success exactly if the whole tree is readable and not too deep, a durable failure exactly if the walk ended too deep, a retryable one exactly if something was unreadable) and releases; a refused admission only releases |
| `RootCalls.OnlyTooDeepIsDead` | backend/app/classification/archive_processing_service.py:353-369 | an archive nested too deep is terminal as failed after the call, and one without a durable failure before that met something unreadable is not |
| `RootCalls.ArchiveCallMeans` | backend/app/classification/archive_processing_service.py:514-523 | what an archive call that is not turned away leaves behind: the attempt, the bytes its batch pays, the root released with one generation more |
| `RootCalls.ResolveCallMeans` | backend/app/classification/identity_resolution_service.py:110-173 | what an identity call leaves behind: a readable root has a group, an existing one or one created in the state its content gets, and a success; an unreadable one a retryable failure; either way it is released |
| `RootCalls.RootServices.ExtractRecursive` | backend/app/classification/archive_processing_service.py:386-497 | the recursion over an archive and its nested archives commits to the tables exactly the operations of the walk, in order, ends as the tree says, and measures the tree's bytes |
| `RemovalPlan.BuildPlan` | scripts/build_removal_plan_from_hashes.py:54-78 | keeps one best-ranked copy per content not in a verified archive, lists exactly the maximal removable folders with true counts, all below the scanned root, and as single files exactly the other repeats |
| `RemovalPlan.FoldersMean` | scripts/build_removal_plan_from_hashes.py:75-76 | a folder is listed exactly if it is below the scanned root and holds files, none of them kept, while the folder above it holds a kept one |
| `RemovalPlan.SinglesMean` | scripts/build_removal_plan_from_hashes.py:77-78 | a file is listed by itself exactly if it is hashed, not kept and below no listed folder |
| `RemovalPlan.FilesCounted` | scripts/build_removal_plan_from_hashes.py:67-74 | the number of files reported for a folder is the number of hashed files below it |
| `RemovalPlan.CountUp` | scripts/build_removal_plan_from_hashes.py:67-74 | the climb adds to the counter of every proper ancestor and of no other folder |
| `RemovalPlan.OneCopySurvives` | scripts/build_removal_plan_from_hashes.py:58-78 | after removing everything listed exactly one hashed copy of each content not in a verified archive is left, and none of the others |
| `RemovalPlan.PlanPartitionsAndConserves` | scripts/build_removal_plan_from_hashes.py:92-103 | every file is in exactly one of kept, under one listed folder, or single; total bytes are kept plus folder plus single bytes |
| `RemovalPlan.MaximalDisjoint` | scripts/build_removal_plan_from_hashes.py:75-77 | no file lies under two listed folders |
| `RemovalPlan.KeptFilesAreSafe` | scripts/build_removal_plan_from_hashes.py:75-78 | no kept file is or lies under a listed folder |
| `RemovalPlan.ListedExactlyWhen` | scripts/build_removal_plan_from_hashes.py:75-76 | some folder at or above a removable one is maximal exactly when the topmost folder is not removable too; so a drive of repeats only lists no folder |
| `Merkle.FingerprintsAreCanonical` | scripts/build_unique_manifest.py:77-96 | with an injective hash two fingerprints are equal exactly for equal relative paths with equal content hashes, whatever the insertion order |
| `Merkle.FoldersComparedByContent` | scripts/build_unique_manifest.py:180-205 | two folders of one tree or two get the same fingerprint exactly when the files below them agree |
| `Merkle.Tree.AddFile` | scripts/build_unique_manifest.py:65-75 | keeps the ancestor-closure invariant although the climb stops at the first folder already registered |
| `Merkle.Tree.Fingerprints` | scripts/build_unique_manifest.py:77-96 | reports every folder that holds files, each with the fingerprint, file count and byte count of its whole subtree |
| `Merkle.BelowSplits` | scripts/build_unique_manifest.py:81-95 | what lies below a folder is its own files plus what lies below its subfolders, for counts and bytes alike |
| `Merkle.ArchiveRootSeesTopFilesOnly` | scripts/build_unique_manifest.py:188-200 | the "" node of an archive covers the whole archive exactly when every member is without a folder or has a path that begins with "/" |
| `Merkle.DifferentArchivesSameRootPrint` | scripts/build_unique_manifest.py:188-200 | two different archives whose "" nodes get the same fingerprint |
| `Retirement.Retirer.RetireArchives` | scripts/extract_unique_and_retire_archives.py:402-463 | every archive gets its turn, in order, unless the run stops for lack of space; and however readers break off, give up and fall back, and wherever the run stops, every leaf content of every deleted archive that is not itself the content of an archive of the run still exists as a file, and all other files are as they were; if no two members finished together go to one file that was not there and no late write changes a file put in place over a writer left open on it |
| `Retirement.Retirer.RetireOne` | scripts/extract_unique_and_retire_archives.py:402-463 | one archive keeps what the run has established; a dry run changes nothing, lack of space stops the run before anything is written, and an archive is deleted exactly if deleting is asked for, the steps of its extraction, if it needs one, met no error and verified every needed member, and it is unchanged and deletable; every verified hash is noted in any case |
| `Retirement.CleanIsSafe` | scripts/extract_unique_and_retire_archives.py:437-460 | after an extraction without error that verified every needed member the final check can only fail because the archive changed or may not be deleted: every leaf is covered |
| `Retirement.GoodReadsAreClean` | scripts/extract_unique_and_retire_archives.py:437-450 | an archive whose needed members are read one at a time and come out as recorded is extracted without error, unless a file there has other content or two of them differ and share a destination |
| `CleanReads.CleanExactly` | scripts/extract_unique_and_retire_archives.py:149-323 | an extraction counts no error only if in no step a reader raised, a needed member was found with other content or came out with another hash; with members taken one at a time exactly then |
| `Retirement.DeletionKeepsRun` | scripts/extract_unique_and_retire_archives.py:453-460 | deleting an unchanged archive all of whose leaves are covered loses nothing |
| `Retirement.TwoWritersVerifyGarbage` | scripts/extract_unique_and_retire_archives.py:216-296 | two members of one name finished together leave a file with mixed bytes recorded as verified; a later archive with that content then counts as covered although no file has the content |
| `Retirement.LateWriteLosesContent` | scripts/extract_unique_and_retire_archives.py:149-160 | a reader that gives up with a member open, a fallback that extracts it without error, and a wrong late write of the first: the archive is judged clean and the content is gone |
| `Extraction.ExtractionIsFaithful` | scripts/extract_unique_and_retire_archives.py:149-323 | through readers that break off, give up with members open and are replaced by another reader: everything recorded as verified holds its recorded content and no file but partial ones is changed or lost, if no two needed members finished together go to one new file and no late write changes a file put in place over a writer left open on it |
| `Extraction.TogetherIsSafeExactly` | scripts/extract_unique_and_retire_archives.py:216-296 | whatever hashes members finished together come out with, everything recorded as verified holds its content: exactly if no two needed ones go to one file that is not there yet |
| `Extraction.LateWriteIsSafeExactly` | scripts/extract_unique_and_retire_archives.py:149-160 | after any such steps a late write that changes bytes leaves everything recorded as verified intact exactly if its file was not left open by one step and put in place by a later one; both are told from the steps alone |
| `Extraction.FallbackIsSafeExactly` | scripts/extract_unique_and_retire_archives.py:149-160 | whatever abandoned writers still write after a fallback, everything recorded as verified holds its content: exactly if no member that comes out of the second reader as recorded goes to a file the first one had opened |
| `Extraction.FallbackAlwaysSafeExactly` | scripts/extract_unique_and_retire_archives.py:149-160 | and whatever comes out of the second reader: exactly if no needed member it reads goes to a file the first one had opened |
| `Extraction.NothingOverwritten` | scripts/extract_unique_and_retire_archives.py:104-126 | whatever the readers do, clashing names, exceptions and late writes included, no file that was there, partial ones aside, is changed or removed |
| `Extraction.Job.Start` | scripts/extract_unique_and_retire_archives.py:104-116 | an existing file is never changed: it counts as verified exactly with its recorded content and is an error otherwise; only the member's own partial file is written |
| `Extraction.Job.Finish` | scripts/extract_unique_and_retire_archives.py:118-126 | puts a file in place and notes it only if the stream hashed to the recorded value, leaves no partial file, touches nothing else |
| `Extraction.Job.Read` | scripts/extract_unique_and_retire_archives.py:176-211 | one member opened, read and finished: a read that breaks off puts nothing in place and is one error, no partial file of a member that was written is left, an existing file stays as it was |
| `Selection.Select` | backend/app/classification/deterministic_selector.py:125-152 | returns the longest prefix of the admitted candidates in path order that fits both limits, with the exact counts of admitted candidates and of those that fit the byte limit alone |
| `Selection.SelectionStopsAtTheFirst` | backend/app/classification/deterministic_selector.py:137-144 | in terms of the candidates alone: the selection is within both limits and in path order, nothing passed over comes before anything selected, and the first admitted candidate not selected would have broken a limit |
| `Selection.PermutingChangesNothing` | backend/app/classification/deterministic_selector.py:125-152 | with distinct paths the selection does not depend on the order of the input |
| `Selection.LargerEnvelopeExtends` | backend/app/classification/deterministic_selector.py:137-144 | a larger envelope extends the selection and exchanges nothing in it |
| `Selection.SelectArchiveDuplicateDeferrals` | backend/app/classification/deterministic_selector.py:155-194 | defers exactly the archives that come after another of the same duplicate group |
| `Selection.OneOfEachGroupStays` | backend/app/classification/deterministic_selector.py:155-194 | of every duplicate group exactly one archive is left in, the first in path order, and nothing but archives of such groups is deferred |
| `Selection.BatchCreationService.CreateBatch` | backend/app/classification/batch_creation_service.py:99-121 | selects among the candidates not materialized yet and materializes exactly what it selected; an empty selection writes nothing |
| `Selection.CreateBatches` | backend/app/classification/batch_creation_service.py:204-224 | without archives, successive calls pick disjoint consecutive segments of one ordered list, each as much as its envelope holds |
| `NewFolders.Classify` | scripts/compare_new_folders.py:105-121 | each file is an error, a duplicate of a live copy, the first of its content, or a repeat pointing at that first |
| `NewFolders.ListRemovable` | scripts/compare_new_folders.py:127-143 | lists exactly the maximal folders in which no counted file is unique or unreadable |
| `NewFolders.ListFiles` | scripts/compare_new_folders.py:50-59 | lists every file once for each input folder it lies below |
| `NewFolders.BadFileCoveredExactly` | scripts/compare_new_folders.py:127-139 | a unique or unreadable file lies under a listed folder exactly if an input folder inside that listed folder lies between the two; told from the input, exactly if an input folder above the file lies below a folder of repeats only (unless "/" itself is an input folder) |
| `NewFolders.KeeperGoesExactly` | scripts/compare_new_folders.py:91-103 | for any input folders and any live copies: the one copy the comparison relies on for a content lies under a listed folder exactly if some folder above it holds only repeats (unless "/" itself is an input folder) |
| `NewFolders.VerifiedInsideLosesContent` | scripts/compare_new_folders.py:91-103 | a verified extraction inside an input folder is taken for a duplicate of itself, and the folder with the only copy is listed |
| `NewFolders.ComparisonIsSafe` | scripts/compare_new_folders.py:105-143 | for disjoint folders and live copies outside them, deleting every listed folder leaves a copy of every readable non-empty content |
| `NewFolders.NestedFoldersLoseContent` | scripts/compare_new_folders.py:50-139 | with one input folder inside another, and so its files listed twice, a folder holding the only copies of a content is listed |
| `Pilot.PickPilot` | scripts/build_master_selection.py:126-142 | takes exactly min(K, available) files, in turns from the folders in the order of their names, and of each folder a prefix of its own files in checksum order |
| `Pilot.SortByChecksum` | scripts/build_master_selection.py:132-133 | the same files in checksum order, those of one checksum in the order they had |
| `Pilot.PilotIsBalanced` | scripts/build_master_selection.py:136-141 | any two folders' counts differ by at most one unless the smaller one is exhausted |
| `Chunker.ChunkText` | backend/app/embeddings/chunker.py:7-42 | splits the stretch of the text that is left when exactly the white space at both ends is cut off, and raises exactly for a non-positive size or an overlap outside 0..size-1 |
| `Chunker.ChunksRejoin` | backend/app/embeddings/chunker.py:31-42 | dropping each later chunk's overlap and joining restores the stripped text |
| `Chunker.ChunkShapes` | backend/app/embeddings/chunker.py:31-42 | every chunk but the last has exactly the size and consecutive chunks share exactly the overlap |
| `Chunker.ChunkCount` | backend/app/embeddings/chunker.py:31-42 | the number of chunks is 1 up to the size, else 1 + ceil((length - size) / (size - overlap)) |
| `Ranking.CollapseToDocs` | scripts/exp001/exp001_common.py:110-116 | every document once, in the order of its best-ranked chunk |
| `Ranking.RrfFuse` | scripts/exp001/exp001_common.py:119-128 | over duplicate-free rankings lists every item of the union exactly once, by score, best rank, item |
| `Ranking.FusionRespectsDominance` | scripts/exp001/exp001_common.py:119-128 | whatever beats an item in every list containing it comes before it |
| `Ranking.SameRanksByDocument` | scripts/exp001/exp001_common.py:119-128 | of two documents with the same ranks, in whichever lists, the one first in item order comes first |
| `Ranking.SameScoreByBestRank` | scripts/exp001/exp001_common.py:119-128 | of two documents with equal scores the one that stands higher in some list than the other in any comes first |
| `Ranking.NdcgBounds` | scripts/exp001/exp001_common.py:147-152 | lies in [0, 1] and is 1, for a non-empty relevant set, exactly when the first k results (or as many as there are relevant items, if fewer) exist and are all relevant |
| `Ranking.NdcgOfOne` | scripts/exp001/exp001_common.py:147-152 | with one relevant document the value is the weight of its place relative to the first place, and nothing from place k on |

## Left out

- HTTP routers, schemas, the front end, chat, voice and web search: plumbing around other services.
- SQLAlchemy session mechanics: a commit is one atomic step, and row locks appear only where two
  statements of one transaction depend on them.
- Database CHECK constraints: not modelled as rejecting a write.
- `Protocol` leaves open which of several claimable rows a claim takes; the order by creation time is
  in `WorkerClaims` and `Stages`.
- Workspace files and the staging tree: the tables do not depend on them beyond the read outcomes.
- Time passing inside one batch-control call, between reading the clock and the update, is not modelled.
- Archive extraction, text extraction and hashing internals: uninterpreted, with an injective hash where
  a statement needs one.
- Suffix and risk classification of candidates: a policy is any predicate on a candidate.
- The selection fingerprint, progress counters and log files.
- Orchestrator.Orchestrator.RunOnce: requires a client that does not answer with nothing for ever; which
  groups normalization and chunking work on includes those the earlier stages created, so how each of them
  comes out is stated stage by stage.
- Crashes in the middle of an archive call are actions of `Protocol` and prefixes of the walk in
  `ArchiveTables`; the service methods themselves run to their end.
- ArchiveRecovery.ArchiveRootFinishesExactly: speaks of claims that name their run, as the orchestrator
  makes them; a claim without one is not admitted against any envelope.
- Retirement.Retirer.RetireArchives: requires that no two members the 7z reader finishes together go to one
  file that was not there and that no late write changes a file put in place over a writer left open on it,
  said of all members since which are needed is only known when an archive's turn comes; otherwise it is
  false, and `TogetherIsSafeExactly` and `LateWriteIsSafeExactly` say exactly when.
- Retirement.Retirer.RetireOne: the same for one archive, said of the members it needs.
- Extraction.ExtractionIsFaithful: the same for one job.
- Retirement: free-space estimates, temporary files and symbolic links enter only as given outcomes.
- Ranking.NdcgBounds: uses exact reals and any positive strictly decreasing weight instead of
  floating-point logarithms; `k` is positive, since the original divides by zero otherwise.
- The dedup execution chain, operator scripts that edit state by hand, OCR and transcription scripts,
  recall and reciprocal-rank metrics: they would only add easy members or deliberately break the protocol.
