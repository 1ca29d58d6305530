/** One orchestrator run: each stage is driven until its service finds nothing more to do. */
module Orchestrator {
  import opened Collections
  import opened Tables
  import opened Protocol
  import opened WorkerClaims
  import opened Stages
  import opened Completion
  import opened ArchiveTables
  import opened RootCalls
  import opened RootProgress
  import opened StageProgress
  import opened EmbeddingStage
  import opened Runs
  import Report

  // ----- the completion check ------------------------------------------------------------------------------

  datatype CheckResult = NotFound | NotRunning | ReportRaised | WorkLeft | Completes

  lemma ReportDecidesExactly(db: Db, b: BatchId)
    requires b in db.batches && BatchOk(db, b)
    ensures !ReportRaises(ReportOf(db, b)) && LooksExhausted(ReportOf(db, b)) <==>
            AllTerminal(db, db.batches[b].run) && AllAttempted(db, db.batches[b].run)
  {
    var run := db.batches[b].run;
    TerminalCount(db, run);
    if AllTerminal(db, run) && AllAttempted(db, run) {
      assert TerminalRoots(db, run) == Roots(db, run) && AttemptedRoots(db, run) == Roots(db, run);
      Report.SuccessfulAreTerminal(db, run);
    }
    if LooksExhausted(ReportOf(db, b)) && !ReportRaises(ReportOf(db, b)) {
      assert CheckOk(db, b, ReportOf(db, b));
      ExhaustedMeansAll(db, b, ReportOf(db, b));
    }
  }

  class BatchCompletionService {
    const session: Session

    constructor (session: Session)
      ensures this.session == session
    {
      this.session := session;
    }

    /** Alone, on tables the protocol can reach, the check completes a batch exactly when it is RUNNING and
        every selected root is attempted and terminal; and otherwise it changes nothing. */
    method CheckAndComplete(b: BatchId) returns (result: CheckResult)
      modifies session`db
      ensures result.NotFound? <==> b !in old(session.db.batches)
      ensures b in old(session.db.batches) && BatchOk(old(session.db), b) ==>
                (result.Completes? <==>
                   old(session.db).batches[b].status == Running && AllTerminal(old(session.db), old(session.db).batches[b].run) &&
                   AllAttempted(old(session.db), old(session.db).batches[b].run))
      ensures b in old(session.db.batches) && BatchOk(old(session.db), b) ==>
                (result.Completes? <==>
                   old(session.db).batches[b].status == Running &&
                   forall i ::
                     i in old(session.db).instances && old(session.db).instances[i].run == old(session.db).batches[b].run &&
                     !old(session.db).instances[i].member ==>
                       WorkDone(old(session.db), i))
      ensures session.db == if result.Completes? then Transition(old(session.db), b, BatchStatus.Completed, Some(SourceWorkExhausted))
                            else old(session.db)
      ensures result.Completes? ==>
                b in old(session.db).batches &&
                session.db.batches == old(session.db).batches[b :=
                  old(session.db).batches[b].(status := BatchStatus.Completed, stopReason := Some(SourceWorkExhausted))]
      ensures IsRun(old(session.db), session.db, session.now)
    {
      NoStep(session.db, session.now);
      if b !in session.db.batches { return NotFound; }
      var batch := session.db.batches[b];
      if batch.status != Running { return NotRunning; }
      var report := ReportOf(session.db, b);
      if BatchOk(session.db, b) { ReportDecidesExactly(session.db, b); }
      forall i | i in session.db.instances { WorkDoneExactly(session.db, i); }
      if report.attempted > report.selected || report.terminal > report.attempted || report.successful > report.terminal {
        return ReportRaised;
      }
      if report.selected - report.attempted != 0 || report.terminal != report.attempted { return WorkLeft; }
      CheckRuns(session.db, b, session.now);
      session.db := session.db.(batches := session.db.batches[b :=
        batch.(status := BatchStatus.Completed, stopReason := Some(SourceWorkExhausted))]);
      return Completes;
    }
  }

  /** What every stage reports: the rows it worked on, and whether an admission ended it. */
  datatype StageResults = StageResults(archives: seq<InstanceId>, refused: bool, identities: seq<InstanceId>,
                                       normalized: seq<GroupId>, chunked: seq<GroupId>, embeddingCalls: nat, deferred: bool)

  lemma NoDocument(db: Db, g: GroupId, who: WorkerId, now: int, owner: Option<BatchId>, stored: Option<set<nat>>)
    requires g !in db.docs
    ensures EmbedCall(db, g, who, now, owner, false, stored) == EmbedCall(db, g, who, now, owner, false, None)
  {}

  /** Some of the rows were worked on, once each; all of them unless the stage was cut short. */
  predicate Attempted(all: set<InstanceId>, attempted: seq<InstanceId>, cutShort: bool)
  {
    NoRepeats(attempted) && Elements(attempted) <= all && (!cutShort ==> Elements(attempted) == all)
  }

  lemma AttemptedAre(db: Db, queue: Queue, run: Option<RunId>, staleBefore: int, attempted: seq<InstanceId>, cutShort: bool)
    requires Attempted(InstanceCandidates(db, queue, run, {}, staleBefore), attempted, cutShort)
    ensures forall i :: i in attempted ==> IsRoot(db, i) && (db.instances[i].archiveSuffix <==> queue.ArchiveQueue?)
  {
    forall i | i in attempted ensures IsRoot(db, i) && (db.instances[i].archiveSuffix <==> queue.ArchiveQueue?) {
      assert i in Elements(attempted);
    }
  }

  /** Every root claimable at the start was attempted once, archives unless an admission was refused, and came out as
      its content has it. */
  ghost predicate RootsAttempted(start: Db, db: Db, b: BatchId, staleBefore: int, extractions: InstanceId -> Extraction,
                                 sources: InstanceId -> Source, archives: seq<InstanceId>, refused: bool,
                                 identities: seq<InstanceId>)
    requires b in start.batches
  {
    var run := Some(start.batches[b].run);
    (refused ==> Refusal(start, db, Some(b), InstanceCandidates(start, ArchiveQueue, run, {}, staleBefore), archives)) &&
    Attempted(InstanceCandidates(start, ArchiveQueue, run, {}, staleBefore), archives, refused) &&
    Attempted(InstanceCandidates(start, IdentityQueue, run, {}, staleBefore), identities, false) &&
    RootsEnded(start, db, extractions, sources, archives, identities)
  }

  lemma RootsStayAttempted(start: Db, middle: Db, end: Db, b: BatchId, staleBefore: int, extractions: InstanceId -> Extraction, sources: InstanceId -> Source,
                       archives: seq<InstanceId>, refused: bool, identities: seq<InstanceId>)
    requires b in start.batches && RootsAttempted(start, middle, b, staleBefore, extractions, sources, archives, refused, identities)
    requires RootsStay(middle, end)
    ensures RootsAttempted(start, end, b, staleBefore, extractions, sources, archives, refused, identities)
  {
    RootsEndedStay(start, middle, end, extractions, sources, archives, identities);
    var all := InstanceCandidates(start, ArchiveQueue, Some(start.batches[b].run), {}, staleBefore);
    if refused {
      var i :| i in all && i !in archives && i in start.instances && TurnedAway(middle, Some(b), start.instances[i].declared, false);
      assert SameEnvelope(middle.batches[b], end.batches[b]);
      assert TurnedAway(end, Some(b), start.instances[i].declared, false);
    }
  }

  lemma StagesDone(start: Db, middle: Db, end: Db, now: int, b: BatchId, staleBefore: int, extractions: InstanceId -> Extraction,
                   sources: InstanceId -> Source, archives: seq<InstanceId>, refused: bool, identities: seq<InstanceId>)
    requires b in start.batches && RootsAttempted(start, middle, b, staleBefore, extractions, sources, archives, refused, identities)
    requires RootsStay(middle, end) && middle.batches.Keys == start.batches.Keys && IsRun(start, middle, now) && IsRun(middle, end, now)
    ensures RootsAttempted(start, end, b, staleBefore, extractions, sources, archives, refused, identities)
    ensures IsRun(start, end, now) && end.batches.Keys == start.batches.Keys
  {
    RunsCompose(start, middle, end, now);
    RootsStayAttempted(start, middle, end, b, staleBefore, extractions, sources, archives, refused, identities);
  }

  lemma RootStagesDone(start: Db, middle: Db, end: Db, now: int, b: BatchId, staleBefore: int,
                       extractions: InstanceId -> Extraction, sources: InstanceId -> Source,
                       archives: seq<InstanceId>, refused: bool, identities: seq<InstanceId>)
    requires b in start.batches
    requires var run := Some(start.batches[b].run);
             Attempted(InstanceCandidates(start, ArchiveQueue, run, {}, staleBefore), archives, refused) &&
             Attempted(InstanceCandidates(middle, IdentityQueue, run, {}, staleBefore), identities, false) &&
             LeavesOthers(start, middle) && RunIfOwn(start, middle, now, run, Some(b))
    requires OnlyMore(start, middle) && forall i :: i in archives ==> ProcessedFrom(start, middle, extractions(i), i)
    requires refused ==>
               Refusal(start, middle, Some(b), InstanceCandidates(start, ArchiveQueue, Some(start.batches[b].run), {}, staleBefore), archives)
    requires RootsSoFar(middle, end, Identifying(sources), identities)
    requires IsRun(middle, end, now) && end.batches == middle.batches
    ensures RootsAttempted(start, end, b, staleBefore, extractions, sources, archives, refused, identities)
    ensures IsRun(start, end, now) && end.batches.Keys == start.batches.Keys
  {
    var run := Some(start.batches[b].run);
    IdentitiesStay(start, middle, run, staleBefore);
    AttemptedAre(start, ArchiveQueue, run, staleBefore, archives, refused);
    AttemptedAre(middle, IdentityQueue, run, staleBefore, identities, false);
    BothStagesEnd(start, middle, end, extractions, sources, archives, identities);
    RunsCompose(start, middle, end, now);
  }

  lemma AttemptedSoFar(all: set<InstanceId>, left: set<InstanceId>, seen: set<InstanceId>, attempted: seq<InstanceId>,
                       cutShort: bool)
    requires Progress(all, left, seen, attempted) && (!cutShort ==> left == {})
    ensures Attempted(all, attempted, cutShort)
  {
    if !cutShort { Finished(all, seen, attempted); }
  }

  /** What is left of a queue of roots. */
  predicate QueueLeft(db: Db, queue: Queue, run: Option<RunId>, seen: set<InstanceId>, staleBefore: int, left: set<InstanceId>)
  {
    left == InstanceCandidates(db, queue, run, seen, staleBefore)
  }

  lemma IdentityTurn(start: Db, db: Db, db': Db, i: InstanceId, who: WorkerId, now: int, lease: nat, source: Source,
                     run: Option<RunId>, seen: set<InstanceId>, left: set<InstanceId>)
    requires QueueLeft(db, IdentityQueue, run, seen, now - lease, left) && i in left
    requires db' == ResolveCall(db, i, who, now, source) && IsRun(start, db, now)
    ensures QueueLeft(db', IdentityQueue, run, seen + {i}, now - lease, left - {i})
    ensures IsRun(start, db', now) && db'.batches.Keys == db.batches.Keys
  {
    ResolveIsRootStep(db, i, who, now, source);
    CandidatesShrink(db, db', i, IdentityQueue, run, seen, now - lease);
    FewerCandidates(db, IdentityQueue, run, seen, now - lease);
    ResolveRuns(db, i, who, run, now, lease, source);
    RunsCompose(start, db, db', now);
  }

  /** If the calls are made for the batch of the run. */
  ghost predicate RunIfOwn(start: Db, db: Db, now: int, run: Option<RunId>, batch: Option<BatchId>)
  {
    BatchOfRun(start, run, batch) ==> IsRun(start, db, now)
  }

  lemma ArchiveTurn(start: Db, db: Db, db': Db, i: InstanceId, who: WorkerId, now: int, lease: nat,
                    batch: Option<BatchId>, x: Extraction, run: Option<RunId>, seen: set<InstanceId>,
                    left: set<InstanceId>)
    requires QueueLeft(db, ArchiveQueue, run, seen, now - lease, left) && i in left
    requires db' == ArchiveCall(db, i, who, now, batch, false, x)
    requires LeavesOthers(start, db) && RunIfOwn(start, db, now, run, batch)
    ensures QueueLeft(db', ArchiveQueue, run, seen + {i}, now - lease, left - {i})
    ensures LeavesOthers(start, db') && RunIfOwn(start, db', now, run, batch)
  {
    ArchiveIsRootStep(db, i, who, now, batch, false, x);
    CandidatesShrink(db, db', i, ArchiveQueue, run, seen, now - lease);
    ArchivesLeaveOthers(db, i, who, now, batch, false, x);
    LeavesOthersComposes(start, db, db');
    if BatchOfRun(start, run, batch) {
      if batch.Some? { assert SameStanding(start.batches[batch.value], db.batches[batch.value]); }
      FewerCandidates(db, ArchiveQueue, run, seen, now - lease);
      ArchiveRuns(db, i, who, run, now, lease, batch, x);
      RunsCompose(start, db, db', now);
    }
  }

  /** After some turns of the identity stage that began with the roots `all`. */
  ghost predicate IdentitiesSoFar(start: Db, db: Db, now: int, lease: nat, run: Option<RunId>, all: set<InstanceId>,
                                  seen: set<InstanceId>, attempted: seq<InstanceId>, sources: InstanceId -> Source)
  {
    QueueLeft(db, IdentityQueue, run, seen, now - lease, all - seen) && IsRun(start, db, now) &&
    Progress(all, all - seen, seen, attempted) && AreRoots(start, all) && db.batches == start.batches &&
    RootsSoFar(start, db, Identifying(sources), attempted)
  }

  predicate AreRoots(db: Db, all: set<InstanceId>)
  {
    forall i :: i in all ==> IsRoot(db, i)
  }

  ghost predicate ArchivesSoFar(start: Db, db: Db, now: int, lease: nat, run: Option<RunId>, batch: Option<BatchId>,
                                all: set<InstanceId>, seen: set<InstanceId>, attempted: seq<InstanceId>,
                                extractions: InstanceId -> Extraction)
  {
    QueueLeft(db, ArchiveQueue, run, seen, now - lease, all - seen) && LeavesOthers(start, db) &&
    RunIfOwn(start, db, now, run, batch) && Progress(all, all - seen, seen, attempted) && AreRoots(start, all) &&
    RootsSoFar(start, db, Processing(extractions), attempted)
  }

  lemma IdentityAttempted(start: Db, db: Db, db': Db, i: InstanceId, who: WorkerId, now: int, lease: nat,
                          sources: InstanceId -> Source, run: Option<RunId>, all: set<InstanceId>,
                          seen: set<InstanceId>, attempted: seq<InstanceId>)
    requires IdentitiesSoFar(start, db, now, lease, run, all, seen, attempted, sources)
    requires i in InstanceCandidates(db, IdentityQueue, run, seen, now - lease)
    requires db' == ResolveCall(db, i, who, now, sources(i)) && Resolved(db, db', i, sources(i))
    ensures IdentitiesSoFar(start, db', now, lease, run, all, seen + {i}, attempted + [i], sources)
    ensures db'.batches.Keys == db.batches.Keys && |all| - |seen + {i}| < |all| - |seen| && |seen| <= |all|
  {
    IdentityTurn(start, db, db', i, who, now, lease, sources(i), run, seen, all - seen);
    ResolveIsRootStep(db, i, who, now, sources(i));
    IdentityEnds(start, db, db', sources, attempted, i);
    OneMore(all, all - seen, seen, attempted, i);
    assert all - seen - {i} == all - (seen + {i});
  }

  lemma ArchiveAttempted(start: Db, db: Db, db': Db, i: InstanceId, who: WorkerId, now: int, lease: nat,
                         batch: Option<BatchId>, extractions: InstanceId -> Extraction, run: Option<RunId>,
                         all: set<InstanceId>, seen: set<InstanceId>, attempted: seq<InstanceId>)
    requires ArchivesSoFar(start, db, now, lease, run, batch, all, seen, attempted, extractions)
    requires i in InstanceCandidates(db, ArchiveQueue, run, seen, now - lease)
    requires db' == ArchiveCall(db, i, who, now, batch, false, extractions(i)) && Processed(db, db', i, batch, false, extractions(i))
    requires !TurnedAway(db, batch, db.instances[i].declared, false)
    ensures ArchivesSoFar(start, db', now, lease, run, batch, all, seen + {i}, attempted + [i], extractions)
    ensures db'.batches.Keys == db.batches.Keys && |all| - |seen + {i}| < |all| - |seen| && |seen| <= |all|
  {
    ArchiveTurn(start, db, db', i, who, now, lease, batch, extractions(i), run, seen, all - seen);
    ArchiveIsRootStep(db, i, who, now, batch, false, extractions(i));
    ArchiveIsMore(db, i, who, now, batch, false, extractions(i));
    ArchiveEnds(start, db, db', batch, extractions, attempted, i);
    OneMore(all, all - seen, seen, attempted, i);
    assert all - seen - {i} == all - (seen + {i});
  }

  /** Some archive that was claimable and not attempted would be turned away. */
  predicate Refusal(start: Db, db: Db, batch: Option<BatchId>, all: set<InstanceId>, attempted: seq<InstanceId>)
  {
    exists i :: i in all && i !in attempted && i in start.instances && TurnedAway(db, batch, start.instances[i].declared, false)
  }

  /** The turn in which an admission is refused. */
  lemma ArchiveTurnedAway(start: Db, db: Db, db': Db, i: InstanceId, who: WorkerId, now: int, lease: nat,
                          batch: Option<BatchId>, extractions: InstanceId -> Extraction, run: Option<RunId>,
                          all: set<InstanceId>, seen: set<InstanceId>, attempted: seq<InstanceId>)
    requires ArchivesSoFar(start, db, now, lease, run, batch, all, seen, attempted, extractions)
    requires i in InstanceCandidates(db, ArchiveQueue, run, seen, now - lease)
    requires db' == ArchiveCall(db, i, who, now, batch, false, extractions(i))
    ensures LeavesOthers(start, db') && RunIfOwn(start, db', now, run, batch) && db'.batches.Keys == db.batches.Keys
    ensures OnlyMore(start, db') && forall j :: j in attempted ==> ProcessedFrom(start, db', extractions(j), j)
    ensures Processed(db, db', i, batch, false, extractions(i)) && TurnedAway(db, batch, db.instances[i].declared, false) ==>
              Refusal(start, db', batch, all, attempted)
  {
    ArchiveTurn(start, db, db', i, who, now, lease, batch, extractions(i), run, seen, all - seen);
    ArchiveIsRootStep(db, i, who, now, batch, false, extractions(i));
    ArchiveIsMore(db, i, who, now, batch, false, extractions(i));
    ProcessingLasts(extractions);
    EndingsStand(start, db, db', Processing(extractions), attempted, i);
    assert SameRoot(start, db, i) && i in all && i !in attempted;
    forall j | j in attempted ensures ProcessedFrom(start, db', extractions(j), j) { assert Processing(extractions)(start, db', j); }
  }

  lemma SomeAttempted(start: Db, db: Db, now: int, lease: nat, run: Option<RunId>, batch: Option<BatchId>,
                      all: set<InstanceId>, seen: set<InstanceId>, attempted: seq<InstanceId>, cutShort: bool,
                      extractions: InstanceId -> Extraction)
    requires ArchivesSoFar(start, db, now, lease, run, batch, all, seen, attempted, extractions)
    requires !cutShort ==> InstanceCandidates(db, ArchiveQueue, run, seen, now - lease) == {}
    ensures Attempted(all, attempted, cutShort)
  {
    AttemptedSoFar(all, all - seen, seen, attempted, cutShort);
  }

  lemma ProcessedSoFar(start: Db, db: Db, extractions: InstanceId -> Extraction, attempted: seq<InstanceId>)
    requires RootsSoFar(start, db, Processing(extractions), attempted)
    ensures OnlyMore(start, db) && forall i :: i in attempted ==> ProcessedFrom(start, db, extractions(i), i)
  {
    forall i | i in attempted ensures ProcessedFrom(start, db, extractions(i), i) { assert Processing(extractions)(start, db, i); }
  }

  lemma GrantKeepsBatches(db: Db, g: GroupId, who: WorkerId, now: int)
    ensures Granted(db, g, who, now).batches.Keys == db.batches.Keys
  {}

  /** After some turns of the stage: what waits to be normalized is `left`. */
  ghost predicate NormalizedSoFar(start: Db, db: Db, now: int, lease: nat, workspace: GroupId -> Content, attempted: seq<GroupId>,
                               left: set<GroupId>)
  {
    GroupsSoFar(start, db, {Extracted}, PREPARED, now - lease, attempted) && db.batches.Keys == start.batches.Keys && IsRun(start, db, now) &&
    EndedSoFar(start, db, StageProgress.Normalizing(workspace), attempted) && left == GroupCandidates(db, {Extracted}, now - lease, {})
  }

  lemma NormalizeOneMore(start: Db, db: Db, db': Db, attempted: seq<GroupId>, g: GroupId, who: WorkerId, now: int, lease: nat,
                         workspace: GroupId -> Content, left: set<GroupId>)
    requires NormalizedSoFar(start, db, now, lease, workspace, attempted, left)
    requires db' == NormalizeCall(db, g, who, now, workspace(g)) && g in left
    ensures var left' := GroupCandidates(db', {Extracted}, now - lease, {});
            NormalizedSoFar(start, db', now, lease, workspace, attempted + [g], left') && left' < left
  {
    NormalizeTurn(start, db, db', now - lease, attempted, g, who, now, workspace(g));
    NormalizeEnds(start, db, db', now - lease, attempted, g, who, now, workspace);
    GrantKeepsBatches(db, g, who, now);
    NormalizeRuns(db, g, who, now, lease, workspace(g));
    RunsCompose(start, db, db', now);
  }

  lemma NormalizedSoFarEnds(start: Db, db: Db, now: int, lease: nat, workspace: GroupId -> Content, attempted: seq<GroupId>)
    requires NormalizedSoFar(start, db, now, lease, workspace, attempted, {})
    ensures NoRepeats(attempted) && Elements(attempted) == GroupCandidates(start, {Extracted}, now - lease, {})
    ensures forall g :: g in attempted ==> NormalizedFrom(start, db, workspace(g), g)
    ensures Idle(db, {Extracted}, now - lease) && RootsStay(start, db) && db.batches.Keys == start.batches.Keys && IsRun(start, db, now)
  {
    var all := GroupCandidates(start, {Extracted}, now - lease, {});
    forall g | g in all ensures g in Elements(attempted) { assert g !in all - Elements(attempted); }
    forall g | g in attempted ensures NormalizedFrom(start, db, workspace(g), g) { assert StageProgress.Normalizing(workspace)(start, db, g); }
  }

  /** After some turns of the stage: what waits to be chunked is `left`. */
  ghost predicate ChunkedSoFar(start: Db, db: Db, now: int, lease: nat, workspace: GroupId -> Content, attempted: seq<GroupId>,
                               left: set<GroupId>, idle: bool)
  {
    GroupsSoFar(start, db, {Normalized}, SPLIT, now - lease, attempted) && db.batches.Keys == start.batches.Keys && IsRun(start, db, now) &&
    EndedSoFar(start, db, StageProgress.Chunking(workspace), attempted) && left == GroupCandidates(db, {Normalized}, now - lease, {}) &&
    (idle ==> Idle(db, {Extracted}, now - lease))
  }

  lemma ChunkOneMore(start: Db, db: Db, db': Db, attempted: seq<GroupId>, g: GroupId, who: WorkerId, now: int, lease: nat,
                         workspace: GroupId -> Content, left: set<GroupId>, idle: bool)
    requires ChunkedSoFar(start, db, now, lease, workspace, attempted, left, idle)
    requires db' == ChunkCall(db, g, who, now, workspace(g)) && g in left
    ensures var left' := GroupCandidates(db', {Normalized}, now - lease, {});
            ChunkedSoFar(start, db', now, lease, workspace, attempted + [g], left', idle) && left' < left
  {
    ChunkTurn(start, db, db', now - lease, attempted, g, who, now, workspace(g));
    ChunkTurnEnds(start, db, db', now - lease, attempted, g, who, now, workspace, idle);
    GrantKeepsBatches(db, g, who, now);
    ChunkRuns(db, g, who, now, lease, workspace(g));
    RunsCompose(start, db, db', now);
  }

  lemma ChunkedSoFarEnds(start: Db, db: Db, now: int, lease: nat, workspace: GroupId -> Content, attempted: seq<GroupId>, idle: bool)
    requires ChunkedSoFar(start, db, now, lease, workspace, attempted, {}, idle)
    ensures NoRepeats(attempted) && Elements(attempted) == GroupCandidates(start, {Normalized}, now - lease, {})
    ensures forall g :: g in attempted ==> ChunkedFrom(start, db, workspace(g), g)
    ensures Idle(db, {Normalized}, now - lease) && RootsStay(start, db) && db.batches.Keys == start.batches.Keys && IsRun(start, db, now) && (idle ==> Idle(db, {Extracted}, now - lease))
  {
    var all := GroupCandidates(start, {Normalized}, now - lease, {});
    forall g | g in all ensures g in Elements(attempted) { assert g !in all - Elements(attempted); }
    forall g | g in attempted ensures ChunkedFrom(start, db, workspace(g), g) { assert StageProgress.Chunking(workspace)(start, db, g); }
  }

  lemma ReservedKeepsBatches(claimed: Db, g: GroupId, b: BatchId, n: nat, stored: Option<set<nat>>)
    ensures EmbedReserved(claimed, g, b, n, stored).batches.Keys == claimed.batches.Keys
  {
    var reserved := Reserve(claimed, g, GenOf(claimed, g), b, n);
    assert reserved.batches.Keys == claimed.batches.Keys;
    var failed := Record(reserved, OfGroup(g), FailedRetryable);
    assert FreeReservation(failed, g, GenOf(claimed, g)).batches.Keys == failed.batches.Keys;
  }

  lemma TurnKeepsBatches(db: Db, g: GroupId, owner: Option<BatchId>, who: WorkerId, now: int, reply: Option<nat>)
    ensures Turned(db, g, owner, who, now, reply).batches.Keys == db.batches.Keys
  {
    var claimed := Granted(db, g, who, now);
    GrantKeepsBatches(db, g, who, now);
    if Asks(db, g) && owner.Some? {
      ReservedKeepsBatches(claimed, g, owner.value, |Unembedded(db.docs[g])|, Vectors(db, g, reply));
    }
  }

  lemma CheckedAreOk(start: Db, check: Db, now: int, b: BatchId)
    requires IsRun(start, check, now) && b in check.batches
    ensures Reached(start, now) ==> BatchOk(check, b)
  {
    if Reached(start, now) {
      ReachedStays(start, check, now);
      ReachedIsOk(check, now, b);
    }
  }

  /** From this call on the stage cannot take that many turns. */
  ghost predicate Within(db: Db, client: Client, call: nat, who: WorkerId, now: int, lease: nat, turns: nat)
  {
    !CanTake(Turns(client, who, now, lease), Point(db, call), turns)
  }

  lemma SomeBound(db: Db, client: Client, who: WorkerId, now: int, lease: nat) returns (turns: nat)
    requires NeverStarves(db, client, who, now, lease)
    ensures Within(db, client, 0, who, now, lease, turns)
  {
    StageEndsExactly(db, client, who, now, lease);
    turns :| !CanTake(Turns(client, who, now, lease), Point(db, 0), turns);
  }

  lemma OneTurnLess(db: Db, db': Db, client: Client, call: nat, who: WorkerId, now: int, lease: nat, left: nat)
    requires Within(db, client, call, who, now, lease, left)
    requires AnsweredTurn(db, db', who, now, lease, client(call))
    ensures left > 0 && Within(db', client, call + 1, who, now, lease, left - 1)
  {
    assert Turns(client, who, now, lease)(Point(db, call), Point(db', call + 1));
  }

  class Orchestrator {
    const session: Session
    const roots: RootServices
    const stages: StageServices
    const completion: BatchCompletionService

    predicate Wired()
    {
      roots.session == session && roots.claims.session == session && stages.session == session &&
      stages.claims.session == session && completion.session == session
    }

    constructor (session: Session)
      ensures this.session == session && Wired()
    {
      this.session := session;
      roots := new RootServices(session);
      stages := new StageServices(session);
      completion := new BatchCompletionService(session);
    }

    /** One turn of the identity stage: the root attempted is the only one that leaves the queue. */
    method IdentityOnce(who: WorkerId, lease: nat, run: Option<RunId>, sources: InstanceId -> Source,
                        seen: set<InstanceId>, attempted: seq<InstanceId>, ghost start: Db, ghost all: set<InstanceId>)
      returns (more: bool, seen': set<InstanceId>, attempted': seq<InstanceId>)
      requires roots.session == session && roots.claims.session == session
      requires IdentitiesSoFar(start, session.db, session.now, lease, run, all, seen, attempted, sources)
      modifies session`db
      ensures session.db.batches.Keys == old(session.db.batches.Keys)
      ensures IdentitiesSoFar(start, session.db, session.now, lease, run, all, seen', attempted', sources)
      ensures more ==> |all| - |seen'| < |all| - |seen| && |seen| <= |all|
      ensures !more ==> Attempted(all, attempted', false)
    {
      ghost var db := session.db;
      more, seen', attempted' := false, seen, attempted;
      var claimed := roots.ResolveNext(who, lease, run, seen, sources);
      if claimed.Some? {
        var i := claimed.value;
        more, seen', attempted' := true, seen + {i}, attempted + [i];
        IdentityAttempted(start, db, session.db, i, who, session.now, lease, sources, run, all, seen, attempted);
      } else {
        AttemptedSoFar(all, all - seen, seen, attempted, false);
      }
    }

    /** However often older roots fail, every root claimable at the start is attempted exactly once, and the
        loop ends: what is left to attempt shrinks with every turn. */
    method RunIdentityStage(who: WorkerId, lease: nat, run: Option<RunId>, sources: InstanceId -> Source)
      returns (attempted: seq<InstanceId>)
      requires roots.session == session && roots.claims.session == session
      modifies session`db
      ensures Attempted(InstanceCandidates(old(session.db), IdentityQueue, run, {}, session.now - lease), attempted, false)
      ensures RootsSoFar(old(session.db), session.db, Identifying(sources), attempted) && session.db.batches == old(session.db.batches)
      ensures session.db.batches.Keys == old(session.db.batches.Keys) && IsRun(old(session.db), session.db, session.now)
    {
      ghost var start, all := session.db, InstanceCandidates(session.db, IdentityQueue, run, {}, session.now - lease);
      NoStep(start, session.now);
      NoRootsYet(start, Identifying(sources));
      var seen: set<InstanceId> := {};
      attempted := [];
      while true
        invariant session.db.batches.Keys == start.batches.Keys
        invariant IdentitiesSoFar(start, session.db, session.now, lease, run, all, seen, attempted, sources)
        decreases |all| - |seen|
      {
        var more;
        more, seen, attempted := IdentityOnce(who, lease, run, sources, seen, attempted, start, all);
        if !more { break; }
      }
    }

    /** One turn of the archive stage. */
    method ArchiveOnce(who: WorkerId, lease: nat, run: Option<RunId>, batch: Option<BatchId>,
                       extractions: InstanceId -> Extraction, seen: set<InstanceId>, attempted: seq<InstanceId>,
                       ghost start: Db, ghost all: set<InstanceId>)
      returns (more: bool, deferred: bool, seen': set<InstanceId>, attempted': seq<InstanceId>)
      requires roots.session == session && roots.claims.session == session
      requires batch.Some? ==> batch.value in session.db.batches
      requires ArchivesSoFar(start, session.db, session.now, lease, run, batch, all, seen, attempted, extractions)
      modifies session`db
      ensures session.db.batches.Keys == old(session.db.batches.Keys)
      ensures LeavesOthers(start, session.db) && RunIfOwn(start, session.db, session.now, run, batch)
      ensures more ==> ArchivesSoFar(start, session.db, session.now, lease, run, batch, all, seen', attempted', extractions)
      ensures more ==> !deferred && |all| - |seen'| < |all| - |seen| && |seen| <= |all|
      ensures !more && deferred ==> Refusal(start, session.db, batch, all, attempted')
      ensures !more ==> Attempted(all, attempted', deferred) && OnlyMore(start, session.db) &&
                        forall i :: i in attempted' ==> ProcessedFrom(start, session.db, extractions(i), i)
    {
      ghost var db := session.db;
      more, seen', attempted' := false, seen, attempted;
      var claimed;
      claimed, deferred := roots.ProcessNextArchive(who, lease, run, batch, seen, false, extractions);
      if claimed.Some? {
        var i := claimed.value;
        if !deferred {
          more, seen', attempted' := true, seen + {i}, attempted + [i];
          ArchiveAttempted(start, db, session.db, i, who, session.now, lease, batch, extractions, run, all, seen, attempted);
          return;
        }
        ArchiveTurnedAway(start, db, session.db, i, who, session.now, lease, batch, extractions, run, all, seen, attempted);
      } else {
        ProcessedSoFar(start, db, extractions, attempted);
      }
      SomeAttempted(start, db, session.now, lease, run, batch, all, seen, attempted, deferred, extractions);
    }

    /** The loop of the archive stage over the archives `all` it finds at its start. */
    method DriveArchives(who: WorkerId, lease: nat, run: Option<RunId>, batch: Option<BatchId>,
                         extractions: InstanceId -> Extraction, ghost all: set<InstanceId>)
      returns (attempted: seq<InstanceId>, deferred: bool)
      requires roots.session == session && roots.claims.session == session
      requires batch.Some? ==> batch.value in session.db.batches
      requires QueueLeft(session.db, ArchiveQueue, run, {}, session.now - lease, all)
      modifies session`db
      ensures Attempted(all, attempted, deferred) && (deferred ==> Refusal(old(session.db), session.db, batch, all, attempted))
      ensures OnlyMore(old(session.db), session.db)
      ensures forall i :: i in attempted ==> ProcessedFrom(old(session.db), session.db, extractions(i), i)
      ensures LeavesOthers(old(session.db), session.db) && RunIfOwn(old(session.db), session.db, session.now, run, batch)
    {
      ghost var start := session.db;
      NothingTouched(start);
      NoStep(start, session.now);
      NoRootsYet(start, Processing(extractions));
      var seen: set<InstanceId> := {};
      attempted, deferred := [], false;
      while true
        invariant session.db.batches.Keys == start.batches.Keys
        invariant ArchivesSoFar(start, session.db, session.now, lease, run, batch, all, seen, attempted, extractions)
        decreases |all| - |seen|
      {
        var more;
        more, deferred, seen, attempted := ArchiveOnce(who, lease, run, batch, extractions, seen, attempted, start, all);
        if !more { break; }
      }
    }

    /** The same for archives, as long as no admission is refused; a refusal ends the stage. No other root
        is touched. */
    method RunArchiveStage(who: WorkerId, lease: nat, run: Option<RunId>, batch: Option<BatchId>,
                           extractions: InstanceId -> Extraction)
      returns (attempted: seq<InstanceId>, deferred: bool)
      requires roots.session == session && roots.claims.session == session
      requires batch.Some? ==> batch.value in session.db.batches
      modifies session`db
      ensures var all := InstanceCandidates(old(session.db), ArchiveQueue, run, {}, session.now - lease);
              Attempted(all, attempted, deferred) && (deferred ==> Refusal(old(session.db), session.db, batch, all, attempted))
      ensures OnlyMore(old(session.db), session.db)
      ensures forall i :: i in attempted ==> ProcessedFrom(old(session.db), session.db, extractions(i), i)
      ensures LeavesOthers(old(session.db), session.db) && RunIfOwn(old(session.db), session.db, session.now, run, batch)
    {
      ghost var all := InstanceCandidates(session.db, ArchiveQueue, run, {}, session.now - lease);
      attempted, deferred := DriveArchives(who, lease, run, batch, extractions, all);
    }

    method NormalizeOnce(who: WorkerId, lease: nat, workspace: GroupId -> Content, attempted: seq<GroupId>, ghost start: Db,
                         ghost left: set<GroupId>)
      returns (claimed: Option<GroupId>, ghost left': set<GroupId>)
      requires stages.session == session && stages.claims.session == session
      requires NormalizedSoFar(start, session.db, session.now, lease, workspace, attempted, left)
      modifies session`db
      ensures NormalizedSoFar(start, session.db, session.now, lease, workspace,
                               if claimed.Some? then attempted + [claimed.value] else attempted, left')
      ensures if claimed.Some? then left' < left else left' == {}
    {
      ghost var db := session.db;
      left' := {};
      claimed := stages.NormalizeNext(who, lease, {}, workspace);
      if claimed.Some? {
        NormalizeOneMore(start, db, session.db, attempted, claimed.value, who, session.now, lease, workspace, left);
        left' := GroupCandidates(session.db, {Extracted}, session.now - lease, {});
      } else {
        assert session.db == db;
      }
    }

    /** Every group waiting to be normalized is worked on exactly once and leaves the queue, normalized or
        failed. */
    method RunNormalizationStage(who: WorkerId, lease: nat, workspace: GroupId -> Content)
      returns (attempted: seq<GroupId>)
      requires stages.session == session && stages.claims.session == session
      modifies session`db
      ensures NoRepeats(attempted) && Elements(attempted) == GroupCandidates(old(session.db), {Extracted}, session.now - lease, {})
      ensures forall g :: g in attempted ==> NormalizedFrom(old(session.db), session.db, workspace(g), g)
      ensures Idle(session.db, {Extracted}, session.now - lease) && RootsStay(old(session.db), session.db)
      ensures session.db.batches.Keys == old(session.db.batches.Keys) && IsRun(old(session.db), session.db, session.now)
    {
      ghost var start, left := session.db, GroupCandidates(session.db, {Extracted}, session.now - lease, {});
      attempted := [];
      NoStep(start, session.now);
      NothingYet(start, StageProgress.Normalizing(workspace));
      while true
        invariant NormalizedSoFar(start, session.db, session.now, lease, workspace, attempted, left)
        decreases left
      {
        var claimed;
        claimed, left := NormalizeOnce(who, lease, workspace, attempted, start, left);
        if claimed.None? { break; }
        attempted := attempted + [claimed.value];
      }
      NormalizedSoFarEnds(start, session.db, session.now, lease, workspace, attempted);
    }

    method ChunkOnce(who: WorkerId, lease: nat, workspace: GroupId -> Content, attempted: seq<GroupId>, ghost start: Db,
                         ghost left: set<GroupId>, ghost idle: bool)
      returns (claimed: Option<GroupId>, ghost left': set<GroupId>)
      requires stages.session == session && stages.claims.session == session
      requires ChunkedSoFar(start, session.db, session.now, lease, workspace, attempted, left, idle)
      modifies session`db
      ensures ChunkedSoFar(start, session.db, session.now, lease, workspace,
                               if claimed.Some? then attempted + [claimed.value] else attempted, left', idle)
      ensures if claimed.Some? then left' < left else left' == {}
    {
      ghost var db := session.db;
      left' := {};
      claimed := stages.ChunkNext(who, lease, {}, workspace);
      if claimed.Some? {
        ChunkOneMore(start, db, session.db, attempted, claimed.value, who, session.now, lease, workspace, left, idle);
        left' := GroupCandidates(session.db, {Normalized}, session.now - lease, {});
      } else {
        assert session.db == db;
      }
    }

    method RunChunkingStage(who: WorkerId, lease: nat, workspace: GroupId -> Content) returns (attempted: seq<GroupId>)
      requires stages.session == session && stages.claims.session == session
      modifies session`db
      ensures NoRepeats(attempted) && Elements(attempted) == GroupCandidates(old(session.db), {Normalized}, session.now - lease, {})
      ensures forall g :: g in attempted ==> ChunkedFrom(old(session.db), session.db, workspace(g), g)
      ensures Idle(session.db, {Normalized}, session.now - lease) && RootsStay(old(session.db), session.db)
      ensures Idle(old(session.db), {Extracted}, session.now - lease) ==> Idle(session.db, {Extracted}, session.now - lease)
      ensures session.db.batches.Keys == old(session.db.batches.Keys) && IsRun(old(session.db), session.db, session.now)
    {
      ghost var start, left := session.db, GroupCandidates(session.db, {Normalized}, session.now - lease, {});
      ghost var idle := Idle(start, {Extracted}, session.now - lease);
      attempted := [];
      NoStep(start, session.now);
      NothingYet(start, StageProgress.Chunking(workspace));
      while true
        invariant ChunkedSoFar(start, session.db, session.now, lease, workspace, attempted, left, idle)
        decreases left
      {
        var claimed;
        claimed, left := ChunkOnce(who, lease, workspace, attempted, start, left, idle);
        if claimed.None? { break; }
        attempted := attempted + [claimed.value];
      }
      ChunkedSoFarEnds(start, session.db, session.now, lease, workspace, attempted, idle);
    }

    /** One call of the embedding stage, as the stage sees it. */
    method EmbedTurn(who: WorkerId, lease: nat, reply: Option<nat>)
      returns (claimed: Option<GroupId>, deferred: bool, ghost owner: Option<BatchId>)
      requires stages.session == session && stages.claims.session == session
      modifies session`db
      ensures claimed.None? ==> Waiting(session.db, session.now - lease) == {} && session.db == old(session.db) && !deferred
      ensures claimed.Some? ==> TurnOn(old(session.db), claimed.value, owner, who, session.now, lease, deferred) &&
                                session.db == Turned(old(session.db), claimed.value, owner, who, session.now, reply)
    {
      ghost var now, stored := session.db, None;
      claimed, deferred, owner, stored := stages.EmbedNext(who, lease, {}, None, reply);
      if claimed.Some? && claimed.value !in now.docs { NoDocument(now, claimed.value, who, session.now, owner, stored); }
    }

    /** One turn of the embedding stage; `left` turns it could not have taken from here. */
    method EmbedOnce(who: WorkerId, lease: nat, client: Client, calls: nat, ghost start: Db, ghost left: nat, ghost idle: bool)
      returns (claimed: Option<GroupId>, deferred: bool)
      requires stages.session == session && stages.claims.session == session
      requires IsRun(start, session.db, session.now) && Within(session.db, client, calls, who, session.now, lease, left)
      requires idle ==> Idle(session.db, {Extracted, Normalized}, session.now - lease)
      modifies session`db
      ensures claimed.None? ==> Waiting(session.db, session.now - lease) == {} && !deferred
      ensures deferred ==> Refuses(session.db, session.now - lease)
      ensures session.db.batches.Keys == old(session.db.batches.Keys) && IsRun(start, session.db, session.now)
      ensures claimed.Some? && !deferred ==>
                left > 0 && Within(session.db, client, calls + 1, who, session.now, lease, left - 1)
      ensures idle ==> Idle(session.db, {Extracted, Normalized}, session.now - lease)
      ensures RootsStay(old(session.db), session.db)
    {
      ghost var db := session.db;
      ghost var owner;
      claimed, deferred, owner := EmbedTurn(who, lease, client(calls));
      if claimed.Some? {
        TurnKeepsRoots(db, claimed.value, owner, who, session.now, client(calls));
        TurnKeepsBatches(db, claimed.value, owner, who, session.now, client(calls));
        EmbedRuns(db, claimed.value, owner, who, session.now, lease, client(calls), deferred);
        RunsCompose(start, db, session.db, session.now);
        if idle { TurnStaysIdle(db, claimed.value, owner, who, session.now, lease, client(calls), deferred); }
        if deferred {
          DeferredRefuses(db, claimed.value, owner, who, session.now, lease, client(calls));
        } else {
          OneTurnLess(db, session.db, client, calls, who, session.now, lease, left);
        }
      }
    }

    /** Turns until there is nothing to embed, or an admission is refused; it cannot take more than `bound`. */
    method EmbedTurns(who: WorkerId, lease: nat, client: Client, ghost bound: nat, ghost idle: bool)
      returns (calls: nat, deferred: bool)
      requires stages.session == session && stages.claims.session == session
      requires Within(session.db, client, 0, who, session.now, lease, bound)
      requires idle ==> Idle(session.db, {Extracted, Normalized}, session.now - lease)
      modifies session`db
      ensures if deferred then Refuses(session.db, session.now - lease) else Waiting(session.db, session.now - lease) == {}
      ensures (idle ==> Idle(session.db, {Extracted, Normalized}, session.now - lease)) && RootsStay(old(session.db), session.db)
      ensures session.db.batches.Keys == old(session.db.batches.Keys) && IsRun(old(session.db), session.db, session.now)
    {
      ghost var start, left := session.db, bound;
      NoStep(start, session.now);
      calls, deferred := 0, false;
      while true
        invariant Within(session.db, client, calls, who, session.now, lease, left)
        invariant session.db.batches.Keys == start.batches.Keys && IsRun(start, session.db, session.now)
        invariant (idle ==> Idle(session.db, {Extracted, Normalized}, session.now - lease)) && RootsStay(start, session.db)
        decreases left
      {
        ghost var before := session.db;
        var claimed;
        claimed, deferred := EmbedOnce(who, lease, client, calls, start, left, idle);
        RootsStayOn(start, before, session.db);
        if claimed.None? || deferred { break; }
        calls, left := calls + 1, left - 1;
      }
    }

    /** The embedding stage ends unless, from a call on from which the client only answers with nothing, an
        oldest group it would be asked about has no RUNNING owner. Then, unless an admission was refused,
        nothing is left in its queue. */
    method RunEmbeddingStage(who: WorkerId, lease: nat, client: Client) returns (calls: nat, deferred: bool)
      requires stages.session == session && stages.claims.session == session
      requires NeverStarves(session.db, client, who, session.now, lease)
      modifies session`db
      ensures if deferred then Refuses(session.db, session.now - lease) else Waiting(session.db, session.now - lease) == {}
      ensures RootsStay(old(session.db), session.db)
      ensures Idle(old(session.db), {Extracted, Normalized}, session.now - lease) ==> Idle(session.db, {Extracted, Normalized}, session.now - lease)
      ensures session.db.batches.Keys == old(session.db.batches.Keys) && IsRun(old(session.db), session.db, session.now)
    {
      ghost var idle := Idle(session.db, {Extracted, Normalized}, session.now - lease);
      ghost var bound := SomeBound(session.db, client, who, session.now, lease);
      calls, deferred := EmbedTurns(who, lease, client, bound, idle);
    }

    /** The two stages that work on the batch's own roots. */
    method RunRootStages(b: BatchId, who: WorkerId, lease: nat, extractions: InstanceId -> Extraction,
                         sources: InstanceId -> Source)
      returns (archives: seq<InstanceId>, refused: bool, identities: seq<InstanceId>)
      requires Wired() && b in session.db.batches
      modifies session`db
      ensures session.db.batches.Keys == old(session.db.batches.Keys) && IsRun(old(session.db), session.db, session.now)
      ensures RootsAttempted(old(session.db), session.db, b, session.now - lease, extractions, sources, archives, refused, identities)
    {
      var run := Some(session.db.batches[b].run);
      ghost var start, now := session.db, session.now;
      archives, refused := RunArchiveStage(who, lease, run, Some(b), extractions);
      ghost var middle := session.db;
      identities := RunIdentityStage(who, lease, run, sources);
      RootStagesDone(start, middle, session.db, now, b, now - lease, extractions, sources, archives, refused, identities);
    }

    /** The three stages that work on whatever waits for them. */
    method RunDocumentStages(who: WorkerId, lease: nat, workspace: GroupId -> Content, client: Client)
      returns (normalized: seq<GroupId>, chunked: seq<GroupId>, calls: nat, deferred: bool)
      requires Wired() && KeepsAnswering(client)
      modifies session`db
      ensures session.db.batches.Keys == old(session.db.batches.Keys) && IsRun(old(session.db), session.db, session.now)
      ensures if deferred then Refuses(session.db, session.now - lease) else Waiting(session.db, session.now - lease) == {}
      ensures Idle(session.db, {Extracted, Normalized}, session.now - lease) && RootsStay(old(session.db), session.db)
    {
      ghost var start, now := session.db, session.now;
      normalized := RunNormalizationStage(who, lease, workspace);
      ghost var middle := session.db;
      chunked := RunChunkingStage(who, lease, workspace);
      RunsCompose(start, middle, session.db, now);
      RootsStayOn(start, middle, session.db);
      middle := session.db;
      BothIdle(middle, now - lease);
      KeepsAnsweringNeverStarves(middle, client, who, now, lease);
      calls, deferred := RunEmbeddingStage(who, lease, client);
      RunsCompose(start, middle, session.db, now);
      RootsStayOn(start, middle, session.db);
    }

    /** The five stages, each driven until it finds nothing more to do. */
    method RunStages(b: BatchId, who: WorkerId, lease: nat, extractions: InstanceId -> Extraction,
                     sources: InstanceId -> Source, workspace: GroupId -> Content, client: Client)
      returns (results: StageResults)
      requires Wired() && KeepsAnswering(client) && b in session.db.batches
      modifies session`db
      ensures session.db.batches.Keys == old(session.db.batches.Keys) && IsRun(old(session.db), session.db, session.now)
      ensures RootsAttempted(old(session.db), session.db, b, session.now - lease, extractions, sources, results.archives, results.refused, results.identities)
      ensures if results.deferred then Refuses(session.db, session.now - lease) else Waiting(session.db, session.now - lease) == {}
      ensures Idle(session.db, {Extracted, Normalized}, session.now - lease)
    {
      ghost var start := session.db;
      var archives, refused, identities := RunRootStages(b, who, lease, extractions, sources);
      ghost var middle := session.db;
      var normalized, chunked, calls, deferred := RunDocumentStages(who, lease, workspace, client);
      StagesDone(start, middle, session.db, session.now, b, session.now - lease, extractions, sources, archives, refused, identities);
      results := StageResults(archives, refused, identities, normalized, chunked, calls, deferred);
    }

    /** One invocation: every stage once, in order, each driven until it finds nothing more to do, and then
        the completion check. It always returns if the client does not answer with nothing for ever, and it
        is a run of the protocol. Roots claimable at its start are attempted once each and come out as their
        content has it, archives unless an
        admission was refused; groups that came to wait for a stage in the meantime are worked on as well, so
        that none is left waiting to be normalized or chunked, nor to be embedded unless that was deferred.
        `check` are the tables the completion check finds; from tables that are reached it completes the
        batch exactly if it is RUNNING and every selected root is attempted and terminal. */
    method RunOnce(b: BatchId, who: WorkerId, lease: nat, extractions: InstanceId -> Extraction,
                   sources: InstanceId -> Source, workspace: GroupId -> Content, client: Client)
      returns (result: CheckResult, results: StageResults, ghost check: Db)
      requires Wired() && KeepsAnswering(client)
      modifies session`db
      ensures b !in old(session.db.batches) <==> result.NotFound?
      ensures result.NotFound? ==> session.db == old(session.db)
      ensures b in old(session.db.batches) ==>
                var run, staleBefore := Some(old(session.db).batches[b].run), session.now - lease;
                Attempted(InstanceCandidates(old(session.db), ArchiveQueue, run, {}, staleBefore), results.archives, results.refused) &&
                Attempted(InstanceCandidates(old(session.db), IdentityQueue, run, {}, staleBefore), results.identities, false)
      ensures b in old(session.db.batches) ==>
                RootsAttempted(old(session.db), check, b, session.now - lease, extractions, sources,
                               results.archives, results.refused, results.identities) &&
                Idle(check, {Extracted, Normalized}, session.now - lease) &&
                if results.deferred then Refuses(check, session.now - lease) else Idle(check, {Chunked, Embedded}, session.now - lease)
      ensures IsRun(old(session.db), check, session.now) && IsRun(old(session.db), session.db, session.now)
      ensures session.db == if result.Completes? then Transition(check, b, BatchStatus.Completed, Some(SourceWorkExhausted)) else check
      ensures b in old(session.db.batches) && Reached(old(session.db), session.now) ==>
                b in check.batches &&
                (result.Completes? <==>
                   check.batches[b].status == Running && AllTerminal(check, check.batches[b].run) &&
                   AllAttempted(check, check.batches[b].run))
    {
      results := StageResults([], false, [], [], [], 0, false);
      check := session.db;
      NoStep(check, session.now);
      if b !in session.db.batches { return NotFound, results, check; }
      ghost var start := session.db;
      results := RunStages(b, who, lease, extractions, sources, workspace, client);
      check := session.db;
      CheckedAreOk(start, check, session.now, b);
      result := completion.CheckAndComplete(b);
      RunsCompose(start, check, session.db, session.now);
    }
  }
}
