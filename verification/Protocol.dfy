/** The ingestion protocol as a transition system: one action per committed transaction of one call
    in flight, plus crashes, operator control and the passing of time. `Do` is total (an action that
    is not enabled changes nothing), so every interleaving is some sequence of actions and every
    sequence of actions is an interleaving. */
module Protocol {
  import opened Collections
  import opened Tables

  /** Identifies one call in flight; a call that returns or crashes gives its token up. */
  type Token = nat

  datatype Queue = IdentityQueue | ArchiveQueue
  datatype Stage = Normalizing | Chunking | Embedding

  datatype Charge = Charge(batch: BatchId, amount: nat)

  datatype InstancePc =
    | Reading                                            // claimed; about to read the source file
    | Identified(group: GroupId)                         // get_or_create_group has committed
    | Assigned                                           // assign_content_identity has committed
    | Admitting                                          // archive claimed; before the byte admission
    | Walking(charge: Option<Charge>, bytes: nat)        // inside the recursive extraction
    | WalkFailed(charge: Option<Charge>)                 // extraction raised; before the bytes are released
    | Discharged                                         // before the FAILED attempt is recorded
    | Walked(charge: Option<Charge>, bytes: nat)         // extraction returned; before reconciliation
    | Reconciled                                         // before the SUCCEEDED attempt is recorded
    | Leaving                                            // in `finally`: about to release the claim

  datatype GroupPc =
    | Working                                            // claimed, nothing committed yet
    | Prepared                                           // document (or chunks) exist; before the attempt
    | Pending(todo: set<nat>)                            // the chunk indexes read with a null embedding
    | Reserving(todo: set<nat>, batch: BatchId)
    | Calling(todo: set<nat>, reserved: bool)            // about to embed and commit the vectors
    | Stored(reserved: bool)                             // vectors committed; before the attempt
    | Counting(reserved: bool)                           // attempt recorded; before the remaining count
    | Consuming(final: PipelineState)                    // before the reservation is consumed
    | Failing(reserved: bool)                            // before the FAILED attempt
    | Freeing                                            // FAILED recorded; before the reservation is released
    | Freed                                              // reservation credited; before that claim release
    | Releasing(to: Option<PipelineState>)               // before the final fenced release

  /** The counts a completion check has read so far, one query after another. */
  datatype CheckPc =
    | CountAttempted(selected: nat)
    | CountLoose(selected: nat, attempted: nat)
    | CountIngested(selected: nat, attempted: nat, loose: nat)
    | CountArchives(selected: nat, attempted: nat, loose: nat, ingested: nat)
    | CountFailed(selected: nat, attempted: nat, loose: nat, ingested: nat, archives: nat)
    | Deciding(selected: nat, attempted: nat, terminal: nat, successful: nat)
    | Completing

  datatype Worker =
    | Selecting(inst: InstanceId, who: WorkerId, queue: Queue, run: Option<RunId>, staleBefore: int)
    | OnInstance(inst: InstanceId, gen: nat, run: Option<RunId>, queue: Queue, ipc: InstancePc)
    | OnGroup(group: GroupId, gen: nat, stage: Stage, pc: GroupPc)
    | Checking(batch: BatchId, cpc: CheckPc)

  datatype Row = GroupRow(group: GroupId) | InstanceRow(instance: InstanceId)
  datatype Grant = Grant(row: Row, gen: nat)

  /** History variables: they record what happened and no transaction reads them. */
  datatype History = History(consumed: map<BatchId, nat>, measured: map<BatchId, nat>,
                             lost: map<BatchId, nat>, grants: seq<Grant>, completions: multiset<BatchId>)

  datatype State = State(db: Db, workers: map<Token, Worker>, now: int, hist: History)

  const EMPTY: State :=
    State(Db(map[], map[], map[], {}, map[]), map[], 0, History(map[], map[], map[], [], multiset{}))

  datatype Pick = Pick(archiveSuffix: bool, archiveCategory: bool, declared: nat, created: nat)

  datatype EnvironmentAction =
    | Tick
    | Crash(lost: Token)
    | CreateBatch(b: BatchId, run: RunId, picks: map<InstanceId, Pick>, maxEmbeddings: nat, maxExtracted: Option<nat>)
    | CreateUnbatched(run: RunId, i: InstanceId, pick: Pick)
    | Control(b: BatchId, to: BatchStatus, reason: Option<StopReason>)

  datatype InstanceAction =
    | ReadFails
    | Identify(g: GroupId, initial: PipelineState, pieces: nat, created: nat)
    | Assign
    | RecordIdentity
    | Abandon
    | Leave

  datatype ArchiveAction =
    | Admit(charged: Option<BatchId>, guarded: bool)
    | Extract(measured: nat)
    | CreateMember(m: InstanceId, pick: Pick)
    | IdentifyMember(g: GroupId, initial: PipelineState, pieces: nat, created: nat)
    | AssignMember(m: InstanceId, g: GroupId)
    | WalkRaises
    | WalkReturns
    | Discharge
    | RecordArchiveFailure(retryable: bool)
    | Reconcile
    | RecordArchive

  datatype GroupAction =
    | Raise
    | Fail
    | WriteDocument
    | WriteChunks
    | RecordPrepared
    | ReadPending
    | ResolveBatch(owner: Option<BatchId>)
    | ReserveFor(guarded: bool)
    | Embed(stored: set<nat>)
    | RecordStored
    | CountRemaining
    | Consume
    | RecordFailure
    | Free
    | ReleaseFreed
    | Release

  datatype CheckAction = ReadCount | Decide | CompleteChecked

  datatype Action =
    | Environment(env: EnvironmentAction)
    | SelectInstance(t: Token, i: InstanceId, who: WorkerId, queue: Queue, forRun: Option<RunId>, lease: nat)
    | GrantSelected(t: Token)
    | InstanceStep(t: Token, ia: InstanceAction)
    | ArchiveStep(t: Token, aa: ArchiveAction)
    | ClaimGroup(t: Token, g: GroupId, stage: Stage, who: WorkerId, lease: nat)
    | GroupStep(t: Token, ga: GroupAction)
    | StartCheck(t: Token, b: BatchId)
    | CheckStep(t: Token, ca: CheckAction)

  // ----- helpers -------------------------------------------------------------------------------

  function Put(s: State, t: Token, w: Worker): State
  {
    s.(workers := s.workers[t := w])
  }

  function Gone(s: State, t: Token): State
  {
    s.(workers := s.workers - {t})
  }

  function Eligible(stage: Stage): set<PipelineState>
  {
    match stage
    case Normalizing => {Extracted}
    case Chunking => {Normalized}
    case Embedding => {Chunked, Embedded}
  }

  function Tally(m: map<BatchId, nat>, b: BatchId): nat
  {
    if b in m then m[b] else 0
  }

  function AddTally(m: map<BatchId, nat>, b: BatchId, n: nat): map<BatchId, nat>
  {
    m[b := Tally(m, b) + n]
  }

  function Unembedded(chunks: seq<bool>): set<nat>
  {
    set k: nat | k < |chunks| && !chunks[k]
  }

  function WithVectors(chunks: seq<bool>, stored: set<nat>): (r: seq<bool>)
    ensures |r| == |chunks|
    ensures forall k :: 0 <= k < |r| ==> r[k] == (chunks[k] || k in stored)
  {
    seq(|chunks|, k requires 0 <= k < |chunks| => chunks[k] || k in stored)
  }

  /** One of the run's instances (roots and members alike) resolves to the group. */
  predicate Owns(db: Db, b: BatchId, g: GroupId)
  {
    b in db.batches &&
    exists i :: i in db.instances && db.instances[i].run == db.batches[b].run && db.instances[i].group == Some(g)
  }

  /** The lowest-id RUNNING batch that owns the group, if there is one. */
  predicate Resolves(db: Db, g: GroupId, owner: Option<BatchId>)
  {
    match owner
    case Some(b) => b in db.batches && Owns(db, b, g) && db.batches[b].status == Running &&
      forall c :: c in db.batches && c < b && db.batches[c].status == Running ==> !Owns(db, c, g)
    case None => forall c :: c in db.batches && db.batches[c].status == Running ==> !Owns(db, c, g)
  }

  function Roots(db: Db, run: RunId): set<InstanceId>
  {
    set i | i in db.instances && db.instances[i].run == run && !db.instances[i].member
  }

  // ----- what the report counts ----------------------------------------------------------------

  const TERMINAL: set<PipelineState> := {Ingested, Excluded, Unsupported, Failed, NeedsReview}

  predicate Tried(db: Db, subject: Subject)
  {
    Attempt(subject, Succeeded) in db.attempts || Attempt(subject, FailedRetryable) in db.attempts ||
    Attempt(subject, FailedDurable) in db.attempts
  }

  predicate IsAttempted(db: Db, i: InstanceId)
    requires i in db.instances
  {
    Tried(db, OfInstance(i)) ||
    (db.instances[i].group.Some? && Tried(db, OfGroup(db.instances[i].group.value)))
  }

  predicate LooseIn(db: Db, i: InstanceId, states: set<PipelineState>)
    requires i in db.instances
  {
    !db.instances[i].archiveCategory && db.instances[i].group.Some? &&
    db.instances[i].group.value in db.groups && db.groups[db.instances[i].group.value].state in states
  }

  predicate ArchiveDone(db: Db, i: InstanceId)
    requires i in db.instances
  {
    db.instances[i].archiveCategory && SucceededBefore(db, i)
  }

  predicate ArchiveDead(db: Db, i: InstanceId)
    requires i in db.instances
  {
    db.instances[i].archiveCategory && !SucceededBefore(db, i) && Attempt(OfInstance(i), FailedDurable) in db.attempts
  }

  predicate IsTerminal(db: Db, i: InstanceId)
    requires i in db.instances
  {
    LooseIn(db, i, TERMINAL) || ArchiveDone(db, i) || ArchiveDead(db, i)
  }

  function AttemptedRoots(db: Db, run: RunId): set<InstanceId>
  {
    set i | i in db.instances && i in Roots(db, run) && IsAttempted(db, i)
  }

  function LooseRootsIn(db: Db, run: RunId, states: set<PipelineState>): set<InstanceId>
  {
    set i | i in db.instances && i in Roots(db, run) && LooseIn(db, i, states)
  }

  function DoneArchives(db: Db, run: RunId): set<InstanceId>
  {
    set i | i in db.instances && i in Roots(db, run) && ArchiveDone(db, i)
  }

  function DeadArchives(db: Db, run: RunId): set<InstanceId>
  {
    set i | i in db.instances && i in Roots(db, run) && ArchiveDead(db, i)
  }

  // ----- environment ---------------------------------------------------------------------------

  /** A crash loses the call; a row lock it held is rolled back, an in-flight byte charge stays
      on the counter (the history notes it as lost). */
  function DoCrash(s: State, t: Token): State
  {
    if t !in s.workers then s else
      match s.workers[t]
      case Selecting(i, _, _, _, _) => Gone(Unlock(s, i), t)
      case OnInstance(_, _, _, _, ipc) => Gone(s.(hist := Lose(s.hist, InFlight(ipc))), t)
      case _ => Gone(s, t)
  }

  function Unlock(s: State, i: InstanceId): State
  {
    if i in s.db.instances then s.(db := s.db.(instances := s.db.instances[i := s.db.instances[i].(lock := None)]))
    else s
  }

  /** The charge a call has on a batch's extracted-bytes counter and has not settled. */
  function InFlight(ipc: InstancePc): Option<Charge>
  {
    match ipc
    case Walking(charge, _) => charge
    case WalkFailed(charge) => charge
    case Walked(charge, _) => charge
    case _ => None
  }

  function Lose(h: History, charge: Option<Charge>): History
  {
    match charge
    case None => h
    case Some(c) => h.(lost := AddTally(h.lost, c.batch, c.amount))
  }

  predicate FreshRun(db: Db, run: RunId)
  {
    (forall i :: i in db.instances ==> db.instances[i].run != run) &&
    (forall b :: b in db.batches ==> db.batches[b].run != run)
  }

  function NewRoot(run: RunId, p: Pick): Instance
  {
    Instance(run, false, p.archiveSuffix, p.archiveCategory, p.declared, None, None, 0, None, p.created)
  }

  /** `create_batch`: run, selected instances and batch row in one commit. */
  function DoCreateBatch(s: State, b: BatchId, run: RunId, picks: map<InstanceId, Pick>,
                         maxEmbeddings: nat, maxExtracted: Option<nat>): State
  {
    if b in s.db.batches || !FreshRun(s.db, run) || !(picks.Keys !! s.db.instances.Keys) || |picks.Keys| == 0 then s
    else
      s.(db := s.db.(
           batches := s.db.batches[b := Batch(run, Planned, None, maxEmbeddings, 0, maxExtracted, 0, |picks.Keys|)],
           instances := s.db.instances + map i | i in picks :: NewRoot(run, picks[i])))
  }

  /** A root of a classification run that has no batch. */
  function DoCreateUnbatched(s: State, run: RunId, i: InstanceId, pick: Pick): State
  {
    if i in s.db.instances || (exists b :: b in s.db.batches && s.db.batches[b].run == run) then s
    else s.(db := s.db.(instances := s.db.instances[i := NewRoot(run, pick)]))
  }

  /** Operator and guard transitions. SOURCE_WORK_EXHAUSTED is only ever supplied by a completion check. */
  function DoControl(s: State, b: BatchId, to: BatchStatus, reason: Option<StopReason>): State
  {
    if reason == Some(SourceWorkExhausted) then s else s.(db := Transition(s.db, b, to, reason))
  }

  // ----- source instance calls -----------------------------------------------------------------

  predicate Candidate(db: Db, queue: Queue, i: InstanceId, staleBefore: int)
  {
    match queue
    case IdentityQueue => IdentityCandidate(db, i, staleBefore)
    case ArchiveQueue => ArchiveCandidate(db, i, staleBefore)
  }

  predicate Gate(db: Db, run: Option<RunId>)
  {
    run.Some? ==> RunIsRunning(db, run.value)
  }

  /** The candidate SELECT ... FOR UPDATE SKIP LOCKED. */
  function DoSelectInstance(s: State, t: Token, i: InstanceId, who: WorkerId, queue: Queue,
                            run: Option<RunId>, lease: nat): State
  {
    var staleBefore := s.now - lease;
    if t in s.workers || !Candidate(s.db, queue, i, staleBefore) || s.db.instances[i].lock.Some? ||
       !Gate(s.db, run) || (run.Some? && s.db.instances[i].run != run.value)
    then s
    else
      Put(s.(db := s.db.(instances := s.db.instances[i := s.db.instances[i].(lock := Some(t))])),
          t, Selecting(i, who, queue, run, staleBefore))
  }

  /** The UPDATE that follows it: re-checks the claim and the batch gate at its own execution time. */
  predicate GrantApplies(s: State, t: Token)
  {
    t in s.workers && s.workers[t].Selecting? && s.workers[t].inst in s.db.instances &&
    FreeOrStale(s.db.instances[s.workers[t].inst].claim, s.workers[t].staleBefore) &&
    Gate(s.db, s.workers[t].run)
  }

  function DoGrantSelected(s: State, t: Token): State
  {
    if t !in s.workers || !s.workers[t].Selecting? then s else
      var w := s.workers[t];
      if !GrantApplies(s, t) then Gone(Unlock(s, w.inst), t) else
        var granted := GrantInstance(s.db, w.inst, w.who, s.now);
        var s' := Unlock(s.(db := granted), w.inst);
        var gen := granted.instances[w.inst].gen;
        var pc := if w.queue.IdentityQueue? then Reading else Admitting;
        Put(s'.(hist := s.hist.(grants := s.hist.grants + [Grant(InstanceRow(w.inst), gen)])),
            t, OnInstance(w.inst, gen, w.run, w.queue, pc))
  }

  predicate AtInstance(s: State, t: Token)
  {
    t in s.workers && s.workers[t].OnInstance?
  }

  function Go(s: State, t: Token, ipc: InstancePc): State
    requires AtInstance(s, t)
  {
    Put(s, t, s.workers[t].(ipc := ipc))
  }

  /** A write to an instance row waits while another transaction holds its lock. */
  predicate Unlocked(db: Db, i: InstanceId)
  {
    i in db.instances && db.instances[i].lock.None?
  }

  function DoReadFails(s: State, t: Token): State
    requires AtInstance(s, t)
  {
    if !s.workers[t].ipc.Reading? then s
    else Go(s.(db := Record(s.db, OfInstance(s.workers[t].inst), FailedRetryable)), t, Leaving)
  }

  function DoIdentify(s: State, t: Token, g: GroupId, initial: PipelineState, pieces: nat, created: nat): State
    requires AtInstance(s, t)
  {
    if !s.workers[t].ipc.Reading? || !Initial(initial) then s
    else Go(s.(db := GetOrCreateGroup(s.db, g, initial, pieces, created)), t, Identified(g))
  }

  /** A second assignment raises; the `finally` block still releases the claim. */
  function DoAssign(s: State, t: Token): State
    requires AtInstance(s, t)
  {
    if !s.workers[t].ipc.Identified? || !Unlocked(s.db, s.workers[t].inst) then s else
      var i := s.workers[t].inst;
      if s.db.instances[i].group.Some? then Go(s, t, Leaving)
      else Go(s.(db := AssignIdentity(s.db, i, s.workers[t].ipc.group)), t, Assigned)
  }

  function DoRecordIdentity(s: State, t: Token): State
    requires AtInstance(s, t)
  {
    if !s.workers[t].ipc.Assigned? then s
    else Go(s.(db := Record(s.db, OfInstance(s.workers[t].inst), Succeeded)), t, Leaving)
  }

  /** The estimate an archive is admitted with: the declared size of its own row. */
  function EstimateOf(db: Db, i: InstanceId): nat
  {
    if i in db.instances then db.instances[i].declared else 0
  }

  /** `_preflight_admit`. Without a classification run there is no batch and no charge; a batch
      without a byte envelope is only checked to be RUNNING. */
  function DoAdmit(s: State, t: Token, charged: Option<BatchId>, guarded: bool): State
    requires AtInstance(s, t)
  {
    if !s.workers[t].ipc.Admitting? then s else
      var estimate := EstimateOf(s.db, s.workers[t].inst);
      match (s.workers[t].run, charged)
      case (None, _) => Go(s, t, Walking(None, 0))
      case (Some(run), None) =>
        // the batch row of this run; none exists
        if forall b :: b in s.db.batches ==> s.db.batches[b].run != run then Go(s, t, Walking(None, 0)) else s
      case (Some(run), Some(b)) =>
        if b !in s.db.batches || s.db.batches[b].run != run then s
        else if guarded || !Admits(s.db.batches[b], estimate) then Go(s, t, Leaving)
        else if s.db.batches[b].maxExtracted.None? then Go(s, t, Walking(None, 0))
        else Go(s.(db := AddExtracted(s.db, b, estimate)), t, Walking(Some(Charge(b, estimate)), 0))
  }

  function DoExtract(s: State, t: Token, measured: nat): State
    requires AtInstance(s, t)
  {
    if !s.workers[t].ipc.Walking? then s
    else Go(s, t, Walking(s.workers[t].ipc.charge, s.workers[t].ipc.bytes + measured))
  }

  function DoCreateMember(s: State, t: Token, m: InstanceId, pick: Pick): State
    requires AtInstance(s, t)
  {
    if !s.workers[t].ipc.Walking? || m in s.db.instances || s.workers[t].inst !in s.db.instances then s
    else s.(db := s.db.(instances := s.db.instances[m := NewRoot(s.db.instances[s.workers[t].inst].run, pick).(member := true)]))
  }

  function DoIdentifyMember(s: State, t: Token, g: GroupId, initial: PipelineState, pieces: nat, created: nat): State
    requires AtInstance(s, t)
  {
    if !s.workers[t].ipc.Walking? || !Initial(initial) then s
    else s.(db := GetOrCreateGroup(s.db, g, initial, pieces, created))
  }

  /** A member that is already assigned makes the write-once update raise inside the walk. */
  function DoAssignMember(s: State, t: Token, m: InstanceId, g: GroupId): State
    requires AtInstance(s, t)
  {
    if !s.workers[t].ipc.Walking? || m !in s.db.instances || !s.db.instances[m].member ||
       g !in s.db.groups then s
    else if s.db.instances[m].group.Some? then Go(s, t, WalkFailed(s.workers[t].ipc.charge))
    else s.(db := AssignIdentity(s.db, m, g))
  }

  function DoWalkRaises(s: State, t: Token): State
    requires AtInstance(s, t)
  {
    if !s.workers[t].ipc.Walking? then s
    else Go(s, t, WalkFailed(s.workers[t].ipc.charge))
  }

  function DoWalkReturns(s: State, t: Token): State
    requires AtInstance(s, t)
  {
    if !s.workers[t].ipc.Walking? then s
    else Go(s, t, Walked(s.workers[t].ipc.charge, s.workers[t].ipc.bytes))
  }

  function DoDischarge(s: State, t: Token): State
    requires AtInstance(s, t)
  {
    if !s.workers[t].ipc.WalkFailed? then s else
      match s.workers[t].ipc.charge
      case None => Go(s, t, Discharged)
      case Some(c) => Go(s.(db := AddExtracted(s.db, c.batch, 0 - c.amount)), t, Discharged)
  }

  function DoRecordArchiveFailure(s: State, t: Token, retryable: bool): State
    requires AtInstance(s, t)
  {
    if !s.workers[t].ipc.Discharged? then s
    else Go(s.(db := Record(s.db, OfInstance(s.workers[t].inst), if retryable then FailedRetryable else FailedDurable)), t, Leaving)
  }

  /** Replaces the estimate on the counter by the measured total. */
  function DoReconcile(s: State, t: Token): State
    requires AtInstance(s, t)
  {
    if !s.workers[t].ipc.Walked? then s else
      match s.workers[t].ipc.charge
      case None => Go(s, t, Reconciled)
      case Some(c) =>
        var bytes := s.workers[t].ipc.bytes;
        Go(s.(db := AddExtracted(s.db, c.batch, bytes - c.amount),
              hist := s.hist.(measured := AddTally(s.hist.measured, c.batch, bytes))), t, Reconciled)
  }

  function DoRecordArchive(s: State, t: Token): State
    requires AtInstance(s, t)
  {
    if !s.workers[t].ipc.Reconciled? then s
    else Go(s.(db := Record(s.db, OfInstance(s.workers[t].inst), Succeeded)), t, Leaving)
  }

  /** An exception no handler catches: the rest of the call is skipped and only `finally` runs. */
  function DoAbandon(s: State, t: Token): State
    requires AtInstance(s, t)
  {
    Go(s.(hist := Lose(s.hist, InFlight(s.workers[t].ipc))), t, Leaving)
  }

  function DoLeaveInstance(s: State, t: Token): State
    requires AtInstance(s, t)
  {
    if !s.workers[t].ipc.Leaving? || !Unlocked(s.db, s.workers[t].inst) then s
    else Gone(s.(db := ReleaseInstance(s.db, s.workers[t].inst, s.workers[t].gen)), t)
  }

  // ----- content identity group calls ----------------------------------------------------------

  function DoClaimGroup(s: State, t: Token, g: GroupId, stage: Stage, who: WorkerId, lease: nat): State
  {
    if t in s.workers || g !in s.db.groups || s.db.groups[g].state !in Eligible(stage) ||
       !FreeOrStale(s.db.groups[g].claim, s.now - lease)
    then s
    else
      var db := GrantGroup(s.db, g, who, s.now, None);
      Put(s.(db := db, hist := s.hist.(grants := s.hist.grants + [Grant(GroupRow(g), db.groups[g].gen)])),
          t, OnGroup(g, db.groups[g].gen, stage, Working))
  }

  predicate AtGroup(s: State, t: Token)
  {
    t in s.workers && s.workers[t].OnGroup?
  }

  function Move(s: State, t: Token, pc: GroupPc): State
    requires AtGroup(s, t)
  {
    Put(s, t, s.workers[t].(pc := pc))
  }

  /** Any exception outside the handled ones: the claim is released, the state is left alone. */
  function DoRaise(s: State, t: Token): State
    requires AtGroup(s, t)
  {
    if !AtGroup(s, t) then s else Move(s, t, Releasing(None))
  }

  /** The handled failures of each stage. */
  function DoFail(s: State, t: Token): State
    requires AtGroup(s, t)
  {
      var w := s.workers[t];
      match w.pc
      case Working => if w.stage.Embedding? && w.group in s.db.docs then s else Move(s, t, Failing(false))
      case Calling(_, reserved) => Move(s, t, Failing(reserved))
      case _ => s
  }

  /** Finds the group's Document or inserts it. */
  function DoWriteDocument(s: State, t: Token): State
    requires AtGroup(s, t)
  {
    if !s.workers[t].stage.Normalizing? || !s.workers[t].pc.Working? then s else
      var g := s.workers[t].group;
      Move(if g in s.db.docs then s else s.(db := s.db.(docs := s.db.docs[g := []])), t, Prepared)
  }

  /** Inserts all chunk rows, or none when some exist already. */
  function DoWriteChunks(s: State, t: Token): State
    requires AtGroup(s, t)
  {
    if !s.workers[t].stage.Chunking? || !s.workers[t].pc.Working? || s.workers[t].group !in s.db.docs ||
       s.workers[t].group !in s.db.groups
    then s else
      var g := s.workers[t].group;
      var chunks := if s.db.docs[g] == [] then seq(s.db.groups[g].pieces, _ => false) else s.db.docs[g];
      Move(s.(db := s.db.(docs := s.db.docs[g := chunks])), t, Prepared)
  }

  function DoRecordPrepared(s: State, t: Token): State
    requires AtGroup(s, t)
  {
    if !s.workers[t].pc.Prepared? then s else
      var w := s.workers[t];
      Move(s.(db := Record(s.db, OfGroup(w.group), Succeeded)), t,
           Releasing(Some(if w.stage.Normalizing? then Normalized else Chunked)))
  }

  function DoReadPending(s: State, t: Token): State
    requires AtGroup(s, t)
  {
    if !s.workers[t].stage.Embedding? || !s.workers[t].pc.Working? || s.workers[t].group !in s.db.docs
    then s else
      var todo := Unembedded(s.db.docs[s.workers[t].group]);
      Move(s, t, if todo == {} then Stored(false) else Pending(todo))
  }

  function DoResolveBatch(s: State, t: Token, owner: Option<BatchId>): State
    requires AtGroup(s, t)
  {
    if !s.workers[t].pc.Pending? || !Resolves(s.db, s.workers[t].group, owner) then s else
      var todo := s.workers[t].pc.todo;
      Move(s, t, if owner.Some? then Reserving(todo, owner.value) else Calling(todo, false))
  }

  /** A denied reservation releases the claim and ends the call. */
  function DoReserve(s: State, t: Token, guarded: bool): State
    requires AtGroup(s, t)
  {
    if !s.workers[t].pc.Reserving? then s else
      var w := s.workers[t];
      if guarded || !CanReserve(s.db, w.group, w.gen, w.pc.batch, |w.pc.todo|) then Move(s, t, Releasing(None))
      else Move(s.(db := Reserve(s.db, w.group, w.gen, w.pc.batch, |w.pc.todo|)), t, Calling(w.pc.todo, true))
  }

  /** Commits the vectors the embedding call returned: at most one per chunk asked for. */
  function DoEmbed(s: State, t: Token, stored: set<nat>): State
    requires AtGroup(s, t)
  {
    if !s.workers[t].pc.Calling? || !(stored <= s.workers[t].pc.todo) || s.workers[t].group !in s.db.docs
    then s else
      var g := s.workers[t].group;
      Move(s.(db := s.db.(docs := s.db.docs[g := WithVectors(s.db.docs[g], stored)])), t, Stored(s.workers[t].pc.reserved))
  }

  function DoRecordStored(s: State, t: Token): State
    requires AtGroup(s, t)
  {
    if !s.workers[t].pc.Stored? then s
    else Move(s.(db := Record(s.db, OfGroup(s.workers[t].group), Succeeded)), t, Counting(s.workers[t].pc.reserved))
  }

  function DoCountRemaining(s: State, t: Token): State
    requires AtGroup(s, t)
  {
    if !s.workers[t].pc.Counting? || s.workers[t].group !in s.db.docs then s else
      var final := if Unembedded(s.db.docs[s.workers[t].group]) == {} then Ingested else Embedded;
      Move(s, t, if s.workers[t].pc.reserved then Consuming(final) else Releasing(Some(final)))
  }

  /** A consume that finds its reservation gone returns without releasing anything. */
  function DoConsume(s: State, t: Token): State
    requires AtGroup(s, t)
  {
    if !s.workers[t].pc.Consuming? then s else
      var w := s.workers[t];
      if !HoldsReservation(s.db, w.group, w.gen) then Gone(s, t) else
        var r := s.db.groups[w.group].reserved.value;
        Move(s.(db := ClearReservation(s.db, w.group, w.gen),
                hist := s.hist.(consumed := AddTally(s.hist.consumed, r.batch, r.amount))),
             t, Releasing(Some(w.pc.final)))
  }

  function DoRecordFailure(s: State, t: Token): State
    requires AtGroup(s, t)
  {
    if !s.workers[t].pc.Failing? then s
    else Move(s.(db := Record(s.db, OfGroup(s.workers[t].group), FailedRetryable)), t,
              if s.workers[t].pc.reserved then Freeing else Releasing(Some(Failed)))
  }

  function DoFree(s: State, t: Token): State
    requires AtGroup(s, t)
  {
    if !s.workers[t].pc.Freeing? then s else
      var w := s.workers[t];
      if HoldsReservation(s.db, w.group, w.gen)
      then Move(s.(db := FreeReservation(s.db, w.group, w.gen)), t, Freed)
      else Move(s, t, Releasing(Some(Failed)))
  }

  function DoReleaseFreed(s: State, t: Token): State
    requires AtGroup(s, t)
  {
    if !s.workers[t].pc.Freed? then s
    else Move(s.(db := ReleaseGroup(s.db, s.workers[t].group, s.workers[t].gen, None)), t, Releasing(Some(Failed)))
  }

  function DoRelease(s: State, t: Token): State
    requires AtGroup(s, t)
  {
    if !s.workers[t].pc.Releasing? then s
    else Gone(s.(db := ReleaseGroup(s.db, s.workers[t].group, s.workers[t].gen, s.workers[t].pc.to)), t)
  }

  // ----- completion checks ---------------------------------------------------------------------

  function DoStartCheck(s: State, t: Token, b: BatchId): State
  {
    if t in s.workers || b !in s.db.batches || s.db.batches[b].status != Running then s
    else Put(s, t, Checking(b, CountAttempted(s.db.batches[b].selected)))
  }

  predicate AtCheck(s: State, t: Token)
  {
    t in s.workers && s.workers[t].Checking? && s.workers[t].batch in s.db.batches
  }

  /** The next counting query of `generate_report`, in the order the service issues them. */
  function NextCount(db: Db, run: RunId, pc: CheckPc): CheckPc
  {
    match pc
    case CountAttempted(n) => CountLoose(n, |AttemptedRoots(db, run)|)
    case CountLoose(n, a) => CountIngested(n, a, |LooseRootsIn(db, run, TERMINAL)|)
    case CountIngested(n, a, l) => CountArchives(n, a, l, |LooseRootsIn(db, run, {Ingested})|)
    case CountArchives(n, a, l, k) => CountFailed(n, a, l, k, |DoneArchives(db, run)|)
    case CountFailed(n, a, l, k, d) => Deciding(n, a, l + d + |DeadArchives(db, run)|, k + d)
    case _ => pc
  }

  function DoReadCount(s: State, t: Token): State
    requires AtCheck(s, t)
  {
    Put(s, t, s.workers[t].(cpc := NextCount(s.db, s.db.batches[s.workers[t].batch].run, s.workers[t].cpc)))
  }

  /** `_assert_invariants` raises. */
  predicate ReportRaises(pc: CheckPc)
    requires pc.Deciding?
  {
    pc.attempted > pc.selected || pc.terminal > pc.attempted || pc.successful > pc.terminal
  }

  predicate LooksExhausted(pc: CheckPc)
    requires pc.Deciding?
  {
    pc.selected - pc.attempted == 0 && pc.terminal == pc.attempted
  }

  /** The report raises, finds work left (and the check returns None), or asks for completion. */
  function DoDecide(s: State, t: Token): State
    requires AtCheck(s, t)
  {
    if !s.workers[t].cpc.Deciding? then s
    else if ReportRaises(s.workers[t].cpc) || !LooksExhausted(s.workers[t].cpc) then Gone(s, t)
    else Put(s, t, s.workers[t].(cpc := Completing))
  }

  /** `complete()` applied: the conditional UPDATE matched. */
  predicate CompletionApplies(s: State, t: Token)
  {
    AtCheck(s, t) && s.workers[t].cpc.Completing? && s.db.batches[s.workers[t].batch].status == Running
  }

  function DoCompleteChecked(s: State, t: Token): State
    requires AtCheck(s, t)
  {
    if !s.workers[t].cpc.Completing? then s else
      var b := s.workers[t].batch;
      var h := if CompletionApplies(s, t) then s.hist.(completions := s.hist.completions + multiset{b}) else s.hist;
      Gone(s.(db := Transition(s.db, b, Completed, Some(SourceWorkExhausted)), hist := h), t)
  }

  // ----- runs ----------------------------------------------------------------------------------

  function DoEnvironment(s: State, a: EnvironmentAction): State
  {
    match a
    case Tick => s.(now := s.now + 1)
    case Crash(t) => DoCrash(s, t)
    case CreateBatch(b, run, picks, e, x) => DoCreateBatch(s, b, run, picks, e, x)
    case CreateUnbatched(run, i, pick) => DoCreateUnbatched(s, run, i, pick)
    case Control(b, to, reason) => DoControl(s, b, to, reason)
  }

  function DoInstance(s: State, t: Token, a: InstanceAction): State
    requires AtInstance(s, t)
  {
    match a
    case ReadFails => DoReadFails(s, t)
    case Identify(g, initial, pieces, created) => DoIdentify(s, t, g, initial, pieces, created)
    case Assign => DoAssign(s, t)
    case RecordIdentity => DoRecordIdentity(s, t)
    case Abandon => DoAbandon(s, t)
    case Leave => DoLeaveInstance(s, t)
  }

  function DoArchive(s: State, t: Token, a: ArchiveAction): State
    requires AtInstance(s, t)
  {
    match a
    case Admit(charged, guarded) => DoAdmit(s, t, charged, guarded)
    case Extract(measured) => DoExtract(s, t, measured)
    case CreateMember(m, pick) => DoCreateMember(s, t, m, pick)
    case IdentifyMember(g, initial, pieces, created) => DoIdentifyMember(s, t, g, initial, pieces, created)
    case AssignMember(m, g) => DoAssignMember(s, t, m, g)
    case WalkRaises => DoWalkRaises(s, t)
    case WalkReturns => DoWalkReturns(s, t)
    case Discharge => DoDischarge(s, t)
    case RecordArchiveFailure(retryable) => DoRecordArchiveFailure(s, t, retryable)
    case Reconcile => DoReconcile(s, t)
    case RecordArchive => DoRecordArchive(s, t)
  }

  function DoGroup(s: State, t: Token, a: GroupAction): State
    requires AtGroup(s, t)
  {
    match a
    case Raise => DoRaise(s, t)
    case Fail => DoFail(s, t)
    case WriteDocument => DoWriteDocument(s, t)
    case WriteChunks => DoWriteChunks(s, t)
    case RecordPrepared => DoRecordPrepared(s, t)
    case ReadPending => DoReadPending(s, t)
    case ResolveBatch(owner) => DoResolveBatch(s, t, owner)
    case ReserveFor(guarded) => DoReserve(s, t, guarded)
    case Embed(stored) => DoEmbed(s, t, stored)
    case RecordStored => DoRecordStored(s, t)
    case CountRemaining => DoCountRemaining(s, t)
    case Consume => DoConsume(s, t)
    case RecordFailure => DoRecordFailure(s, t)
    case Free => DoFree(s, t)
    case ReleaseFreed => DoReleaseFreed(s, t)
    case Release => DoRelease(s, t)
  }

  function DoCheck(s: State, t: Token, a: CheckAction): State
    requires AtCheck(s, t)
  {
    match a
    case ReadCount => DoReadCount(s, t)
    case Decide => DoDecide(s, t)
    case CompleteChecked => DoCompleteChecked(s, t)
  }

  function Do(s: State, a: Action): State
  {
    match a
    case Environment(env) => DoEnvironment(s, env)
    case SelectInstance(t, i, who, queue, run, lease) => DoSelectInstance(s, t, i, who, queue, run, lease)
    case GrantSelected(t) => DoGrantSelected(s, t)
    case InstanceStep(t, ia) => if AtInstance(s, t) then DoInstance(s, t, ia) else s
    case ArchiveStep(t, aa) => if AtInstance(s, t) then DoArchive(s, t, aa) else s
    case ClaimGroup(t, g, stage, who, lease) => DoClaimGroup(s, t, g, stage, who, lease)
    case GroupStep(t, ga) => if AtGroup(s, t) then DoGroup(s, t, ga) else s
    case StartCheck(t, b) => DoStartCheck(s, t, b)
    case CheckStep(t, ca) => if AtCheck(s, t) then DoCheck(s, t, ca) else s
  }

  function Run(s: State, actions: seq<Action>): State
  {
    if actions == [] then s else Do(Run(s, actions[..|actions| - 1]), actions[|actions| - 1])
  }

  /** Some sequence of actions leads from `s` to `s'`. */
  ghost predicate Later(s: State, s': State)
  {
    exists actions :: s' == Run(s, actions)
  }

  /** Everything the protocol can reach from empty tables, in any interleaving. */
  ghost predicate Reachable(s: State)
  {
    Later(EMPTY, s)
  }

  lemma {:induction false} RunAppend(s: State, before: seq<Action>, after: seq<Action>)
    ensures Run(s, before + after) == Run(Run(s, before), after)
    decreases |after|
  {
    if after == [] {
      assert before + after == before;
    } else {
      var last := |after| - 1;
      RunAppend(s, before, after[..last]);
      assert (before + after)[..|before + after| - 1] == before + after[..last];
    }
  }

  lemma LaterTransitive(a: State, b: State, c: State)
    requires Later(a, b) && Later(b, c)
    ensures Later(a, c)
  {
    var before :| b == Run(a, before);
    var after :| c == Run(b, after);
    RunAppend(a, before, after);
  }

  lemma LaterStep(s: State, a: Action)
    ensures Later(s, Do(s, a))
  {
    assert [a][..0] == [];
    assert Run(s, [a]) == Do(s, a);
  }

  lemma ReachableStep(s: State, a: Action)
    requires Reachable(s)
    ensures Reachable(Do(s, a))
  {
    LaterStep(s, a);
    LaterTransitive(EMPTY, s, Do(s, a));
  }
}
