/** The rows of the ingestion tables and the transactions that change them. Each function below is
    one committed transaction: it returns the tables as that commit leaves them. */
module Tables {
  import opened Collections

  /** A group is keyed by its identity hash, which the table's unique constraint makes a key. */
  type GroupId = nat
  type BatchId = nat
  type RunId = nat
  type InstanceId = nat
  type WorkerId = nat

  datatype PipelineState =
    | Discovered | Classified | Extracting | Extracted | Normalized | Chunked | Embedded | Ingested
    | NeedsReview | Unsupported | Excluded | Failed

  /** The states a group can be created in: eligible files start past extraction. */
  predicate Initial(state: PipelineState)
  {
    state == Extracted || state == Excluded || state == Unsupported
  }

  type InitialState = s: PipelineState | Initial(s) witness Extracted

  datatype BatchStatus = Planned | Running | Paused | Completed | Aborted

  datatype StopReason =
    | SourceWorkExhausted | ExtractedBytesEnvelopeExhausted | EmbeddingsEnvelopeExhausted
    | RuntimeBudgetExceeded
    | WorkspaceSoftStop | PostgresSoftStop | ManualPause
    | WorkspaceHardStop | PostgresHardStop | OllamaPersistentlyUnreachable
    | SafetyInvariantViolationDetected | ManualAbort

  /** How bad the resource guard finds things. */
  datatype Tier = Normal | SoftStop | HardStop

  /** `claimed_by` and `claimed_at`, always written and cleared together. */
  datatype Claim = Claim(worker: WorkerId, at: int)

  /** `reserved_embeddings` and `reserved_embeddings_batch_id`, both set or both null. */
  datatype Reservation = Reservation(amount: nat, batch: BatchId)

  /** `pieces` is the number of chunks the group's (fixed) text splits into. */
  datatype Group = Group(state: PipelineState, claim: Option<Claim>, gen: nat,
                         reserved: Option<Reservation>, pieces: nat, created: nat)

  datatype Batch = Batch(run: RunId, status: BatchStatus, stopReason: Option<StopReason>,
                         maxEmbeddings: nat, embeddingsReserved: int,
                         maxExtracted: Option<nat>, extracted: int, selected: nat)

  /** `declared` is the size the evidence snapshot gives, which nothing ever changes; `lock` is the row
      lock a candidate SELECT ... FOR UPDATE holds until its transaction ends. */
  datatype Instance = Instance(run: RunId, member: bool, archiveSuffix: bool, archiveCategory: bool, declared: nat,
                               group: Option<GroupId>, claim: Option<Claim>, gen: nat,
                               lock: Option<nat>, created: nat)

  datatype Subject = OfInstance(instance: InstanceId) | OfGroup(group: GroupId)
  datatype Outcome = Succeeded | FailedRetryable | FailedDurable
  datatype Attempt = Attempt(subject: Subject, outcome: Outcome)

  /** `docs[g]` is the Document of group `g` (unique per group): one flag per chunk row, true when
      the chunk has an embedding. */
  datatype Db = Db(groups: map<GroupId, Group>, batches: map<BatchId, Batch>,
                   instances: map<InstanceId, Instance>, attempts: set<Attempt>,
                   docs: map<GroupId, seq<bool>>)

  predicate FreeOrStale(claim: Option<Claim>, staleBefore: int)
  {
    claim.None? || claim.value.at < staleBefore
  }

  // ----- content identity groups ---------------------------------------------------------------

  /** `UPDATE ingestion_batches SET embeddings_reserved = embeddings_reserved - amount WHERE id`. */
  function Credit(batches: map<BatchId, Batch>, b: BatchId, amount: nat): map<BatchId, Batch>
  {
    if b in batches
    then batches[b := batches[b].(embeddingsReserved := batches[b].embeddingsReserved - amount)]
    else batches
  }

  /** Granting a claim: credits an abandoned reservation back to the batch the row names, clears it,
      and advances the generation, all in one transaction. */
  function GrantGroup(db: Db, g: GroupId, who: WorkerId, now: int, marker: Option<PipelineState>): Db
    requires g in db.groups
  {
    var row := db.groups[g];
    db.(batches := if row.reserved.Some? then Credit(db.batches, row.reserved.value.batch, row.reserved.value.amount)
                   else db.batches,
        groups := db.groups[g := row.(claim := Some(Claim(who, now)), gen := row.gen + 1, reserved := None,
                                      state := if marker.Some? then marker.value else row.state)])
  }

  predicate HoldsGroup(db: Db, g: GroupId, gen: nat)
  {
    g in db.groups && db.groups[g].gen == gen
  }

  /** The generation-fenced release, optionally advancing the pipeline state. */
  function ReleaseGroup(db: Db, g: GroupId, gen: nat, to: Option<PipelineState>): Db
  {
    if HoldsGroup(db, g, gen) then
      db.(groups := db.groups[g := db.groups[g].(claim := None,
                                                 state := if to.Some? then to.value else db.groups[g].state)])
    else db
  }

  predicate CanReserve(db: Db, g: GroupId, gen: nat, b: BatchId, n: nat)
  {
    HoldsGroup(db, g, gen) && b in db.batches && db.batches[b].status == Running &&
    db.batches[b].embeddingsReserved + n <= db.batches[b].maxEmbeddings
  }

  /** Both writes of `reserve_embeddings`, or neither. */
  function Reserve(db: Db, g: GroupId, gen: nat, b: BatchId, n: nat): Db
  {
    if CanReserve(db, g, gen, b, n) then
      db.(groups := db.groups[g := db.groups[g].(reserved := Some(Reservation(n, b)))],
          batches := db.batches[b := db.batches[b].(embeddingsReserved := db.batches[b].embeddingsReserved + n)])
    else db
  }

  predicate HoldsReservation(db: Db, g: GroupId, gen: nat)
  {
    HoldsGroup(db, g, gen) && db.groups[g].reserved.Some?
  }

  /** First transaction of `consume_embedding_reservation`: the batch counter is not touched. */
  function ClearReservation(db: Db, g: GroupId, gen: nat): Db
  {
    if HoldsReservation(db, g, gen) then db.(groups := db.groups[g := db.groups[g].(reserved := None)])
    else db
  }

  /** First transaction of `release_embedding_reservation`: credits the batch the row itself names. */
  function FreeReservation(db: Db, g: GroupId, gen: nat): Db
  {
    if HoldsReservation(db, g, gen) then
      var r := db.groups[g].reserved.value;
      ClearReservation(db, g, gen).(batches := Credit(db.batches, r.batch, r.amount))
    else db
  }

  /** `get_or_create_group`: an existing row wins, whatever state it is in. */
  function GetOrCreateGroup(db: Db, g: GroupId, initial: PipelineState, pieces: nat, created: nat): Db
  {
    if g in db.groups then db
    else db.(groups := db.groups[g := Group(initial, None, 0, None, pieces, created)])
  }

  // ----- source instances ----------------------------------------------------------------------

  /** A RUNNING batch owns this classification run. */
  predicate RunIsRunning(db: Db, run: RunId)
  {
    exists b :: b in db.batches && db.batches[b].run == run && db.batches[b].status == Running
  }

  predicate SucceededBefore(db: Db, i: InstanceId)
  {
    Attempt(OfInstance(i), Succeeded) in db.attempts
  }

  /** The columns both candidate SELECTs look at, apart from the batch gate. */
  predicate IdentityCandidate(db: Db, i: InstanceId, staleBefore: int)
  {
    i in db.instances && db.instances[i].group.None? && !db.instances[i].member &&
    !db.instances[i].archiveSuffix && FreeOrStale(db.instances[i].claim, staleBefore)
  }

  predicate ArchiveCandidate(db: Db, i: InstanceId, staleBefore: int)
  {
    i in db.instances && db.instances[i].group.None? && !db.instances[i].member &&
    db.instances[i].archiveSuffix && !SucceededBefore(db, i) &&
    FreeOrStale(db.instances[i].claim, staleBefore)
  }

  function GrantInstance(db: Db, i: InstanceId, who: WorkerId, now: int): Db
    requires i in db.instances
  {
    db.(instances := db.instances[i := db.instances[i].(claim := Some(Claim(who, now)),
                                                        gen := db.instances[i].gen + 1)])
  }

  predicate HoldsInstance(db: Db, i: InstanceId, gen: nat)
  {
    i in db.instances && db.instances[i].gen == gen
  }

  function ReleaseInstance(db: Db, i: InstanceId, gen: nat): Db
  {
    if HoldsInstance(db, i, gen) then db.(instances := db.instances[i := db.instances[i].(claim := None)])
    else db
  }

  /** `assign_content_identity` is write-once: an assigned row is left alone. */
  function AssignIdentity(db: Db, i: InstanceId, g: GroupId): Db
  {
    if i in db.instances && db.instances[i].group.None? then
      db.(instances := db.instances[i := db.instances[i].(group := Some(g))])
    else db
  }

  function Record(db: Db, subject: Subject, outcome: Outcome): Db
  {
    db.(attempts := db.attempts + {Attempt(subject, outcome)})
  }

  // ----- batches -------------------------------------------------------------------------------

  const PAUSE_REASONS := {WorkspaceSoftStop, PostgresSoftStop, ManualPause}
  const COMPLETE_REASONS :=
    {SourceWorkExhausted, ExtractedBytesEnvelopeExhausted, EmbeddingsEnvelopeExhausted, RuntimeBudgetExceeded}

  /** The states each abort reason is legal from; empty for a reason that is not an abort reason. */
  function AbortSources(reason: StopReason): set<BatchStatus>
  {
    if reason in {WorkspaceHardStop, PostgresHardStop, OllamaPersistentlyUnreachable, SafetyInvariantViolationDetected}
    then {Running, Paused}
    else if reason == ManualAbort then {Paused}
    else {}
  }

  /** The frozen transition graph, with the reasons each edge admits. */
  predicate LegalTransition(from: BatchStatus, to: BatchStatus, reason: Option<StopReason>)
  {
    match to
    case Planned => false
    case Running => (from == Planned || from == Paused) && reason.None?
    case Paused => from == Running && reason.Some? && reason.value in PAUSE_REASONS
    case Completed => from == Running && reason.Some? && reason.value in COMPLETE_REASONS
    case Aborted => reason.Some? && from in AbortSources(reason.value)
  }

  function Transition(db: Db, b: BatchId, to: BatchStatus, reason: Option<StopReason>): Db
  {
    if b in db.batches && LegalTransition(db.batches[b].status, to, reason) then
      db.(batches := db.batches[b := db.batches[b].(status := to, stopReason := reason)])
    else db
  }

  predicate Admits(batch: Batch, estimate: nat)
  {
    batch.status == Running &&
    (batch.maxExtracted.Some? ==> batch.extracted + estimate <= batch.maxExtracted.value)
  }

  /** Adds `delta` (which may be negative) to a batch's extracted-bytes counter. */
  function AddExtracted(db: Db, b: BatchId, delta: int): Db
  {
    if b in db.batches then
      db.(batches := db.batches[b := db.batches[b].(extracted := db.batches[b].extracted + delta)])
    else db
  }
}
