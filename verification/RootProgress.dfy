/** What the two stages that work on a batch's own roots leave of every root, from turn to turn. */
module RootProgress {
  import opened Collections
  import opened Tables
  import opened Protocol
  import opened WorkerClaims
  import opened ArchiveTables
  import opened RootCalls
  import opened StageProgress
  import ArchiveWalk

  /** The row after one attempt that gave it this group. */
  function AfterOne(row: Instance, group: Option<GroupId>): Instance
  {
    row.(claim := None, gen := row.gen + 1, group := group)
  }

  /** From the tables of the start to those of now the root was attempted once: a readable file has the group of its
      content and a success on record, another one a retryable failure. */
  predicate IdentifiedFrom(start: Db, now: Db, source: Source, i: InstanceId)
  {
    i in start.instances && i in now.instances &&
    match source
    case Unreadable => now.instances[i] == AfterOne(start.instances[i], None) && Attempt(OfInstance(i), FailedRetryable) in now.attempts
    case Bytes(hash, _, _) =>
      now.instances[i] == AfterOne(start.instances[i], Some(hash)) && hash in now.groups && Attempt(OfInstance(i), Succeeded) in now.attempts
  }

  /** The same for an archive: a success on record if the whole tree could be extracted, a durable failure if the walk
      ended too deep, a retryable one if it ended at something unreadable. */
  predicate ProcessedFrom(start: Db, now: Db, x: Extraction, i: InstanceId)
  {
    i in start.instances && i in now.instances && now.instances[i] == AfterOne(start.instances[i], start.instances[i].group) &&
    (Extractable(x) ==> Attempt(OfInstance(i), Succeeded) in now.attempts) &&
    (WalkOf(x).result == ArchiveWalk.TooDeep ==> Attempt(OfInstance(i), FailedDurable) in now.attempts) &&
    (WalkOf(x).result == ArchiveWalk.Broken ==> Attempt(OfInstance(i), FailedRetryable) in now.attempts)
  }

  /** How a root comes out of a stage, told by the tables before and after. */
  type RootEnding = (Db, Db, InstanceId) -> bool

  function Identifying(sources: InstanceId -> Source): RootEnding
  {
    (start: Db, now: Db, i: InstanceId) => IdentifiedFrom(start, now, sources(i), i)
  }

  function Processing(extractions: InstanceId -> Extraction): RootEnding
  {
    (start: Db, now: Db, i: InstanceId) => ProcessedFrom(start, now, extractions(i), i)
  }

  predicate IsRoot(db: Db, i: InstanceId)
  {
    i in db.instances && !db.instances[i].member
  }

  predicate SameRoot(start: Db, now: Db, i: InstanceId)
  {
    i in start.instances && i in now.instances && now.instances[i] == start.instances[i]
  }

  /** Those that were attempted came out as the stage lets them, and the other roots are as they were. */
  ghost predicate RootsSoFar(start: Db, now: Db, ending: RootEnding, attempted: seq<InstanceId>)
  {
    OnlyMore(start, now) && (forall i :: i in attempted ==> IsRoot(start, i) && IsRoot(now, i) && ending(start, now, i)) &&
    forall i :: IsRoot(start, i) && i !in attempted ==> SameRoot(start, now, i)
  }

  lemma NoRootsYet(start: Db, ending: RootEnding)
    ensures RootsSoFar(start, start, ending, [])
  {}

  /** The endings say nothing of other roots, and nothing that more attempts or groups could change. */
  ghost predicate Lasting(ending: RootEnding)
  {
    forall start, now, next, i :: ending(start, now, i) && SameRoot(now, next, i) && OnlyMore(now, next) ==> ending(start, next, i)
  }

  lemma IdentifyingLasts(sources: InstanceId -> Source)
    ensures Lasting(Identifying(sources))
  {}

  lemma ProcessingLasts(extractions: InstanceId -> Extraction)
    ensures Lasting(Processing(extractions))
  {}

  lemma RootsOneMore(start: Db, now: Db, next: Db, ending: RootEnding, attempted: seq<InstanceId>, i: InstanceId)
    requires RootsSoFar(start, now, ending, attempted) && Lasting(ending) && RootStep(now, next, i) && OnlyMore(now, next)
    requires i !in attempted && IsRoot(start, i) && IsRoot(next, i) && ending(start, next, i)
    ensures RootsSoFar(start, next, ending, attempted + [i])
  {
    forall j | j in attempted ensures IsRoot(next, j) && ending(start, next, j) { assert SameRow(now, next, j); }
    forall j | IsRoot(start, j) && j !in attempted + [i] ensures SameRoot(start, next, j) {
      assert SameRoot(start, now, j) && SameRow(now, next, j);
    }
  }

  lemma IdentityEnds(start: Db, now: Db, next: Db, sources: InstanceId -> Source, attempted: seq<InstanceId>, i: InstanceId)
    requires RootsSoFar(start, now, Identifying(sources), attempted) && RootStep(now, next, i)
    requires Resolved(now, next, i, sources(i)) && i !in attempted && IsRoot(start, i)
    ensures RootsSoFar(start, next, Identifying(sources), attempted + [i])
  {
    assert SameRoot(start, now, i);
    IdentifyingLasts(sources);
    RootsOneMore(start, now, next, Identifying(sources), attempted, i);
  }

  lemma ArchiveIsMore(db: Db, i: InstanceId, who: WorkerId, now: int, batch: Option<BatchId>, guarded: bool, x: Extraction)
    requires i in db.instances
    ensures OnlyMore(db, ArchiveCall(db, i, who, now, batch, guarded, x))
  {
    var claimed := Claimed(db, i, who, now);
    WalkIsWalkStep(Charged(claimed, Charges(claimed, batch), EstimateOf(claimed, i)), i, x.names, WalkOf(x).ops);
  }

  lemma ArchiveEnds(start: Db, now: Db, next: Db, batch: Option<BatchId>, extractions: InstanceId -> Extraction,
                    attempted: seq<InstanceId>, i: InstanceId)
    requires RootsSoFar(start, now, Processing(extractions), attempted) && RootStep(now, next, i) && OnlyMore(now, next)
    requires Processed(now, next, i, batch, false, extractions(i)) && i !in attempted && IsRoot(start, i)
    requires !TurnedAway(now, batch, now.instances[i].declared, false)
    ensures RootsSoFar(start, next, Processing(extractions), attempted + [i])
  {
    assert SameRoot(start, now, i);
    ProcessingLasts(extractions);
    RootsOneMore(start, now, next, Processing(extractions), attempted, i);
  }

  /** A call that is turned away leaves what was attempted before as it was. */
  lemma EndingsStand(start: Db, now: Db, next: Db, ending: RootEnding, attempted: seq<InstanceId>, i: InstanceId)
    requires RootsSoFar(start, now, ending, attempted) && Lasting(ending) && RootStep(now, next, i) && OnlyMore(now, next)
    requires i !in attempted
    ensures forall j :: j in attempted ==> IsRoot(start, j) && IsRoot(next, j) && ending(start, next, j)
  {
    forall j | j in attempted ensures IsRoot(next, j) && ending(start, next, j) { assert SameRow(now, next, j); }
  }

  /** Every archive and every other root attempted came out as its content has it. */
  predicate RootsEnded(start: Db, now: Db, extractions: InstanceId -> Extraction, sources: InstanceId -> Source,
                       archives: seq<InstanceId>, identities: seq<InstanceId>)
  {
    (forall i :: i in archives ==> ProcessedFrom(start, now, extractions(i), i)) &&
    forall i :: i in identities ==> IdentifiedFrom(start, now, sources(i), i)
  }

  lemma BothStagesEnd(start: Db, middle: Db, end: Db, extractions: InstanceId -> Extraction,
                      sources: InstanceId -> Source, archives: seq<InstanceId>, identities: seq<InstanceId>)
    requires LeavesOthers(start, middle) && OnlyMore(start, middle)
    requires forall i :: i in archives ==> IsRoot(start, i) && start.instances[i].archiveSuffix && ProcessedFrom(start, middle, extractions(i), i)
    requires RootsSoFar(middle, end, Identifying(sources), identities)
    requires forall i :: i in identities ==> i in middle.instances && IsLoose(middle, i)
    ensures RootsEnded(start, end, extractions, sources, archives, identities)
  {
    forall i | i in archives ensures ProcessedFrom(start, end, extractions(i), i) { assert SameRoot(middle, end, i); }
    forall i | i in identities ensures IdentifiedFrom(start, end, sources(i), i) {
      assert SameLoose(start, middle, i) && Identifying(sources)(middle, end, i);
    }
  }

  /** And so it stays while documents are worked on. */
  lemma RootsEndedStay(start: Db, middle: Db, end: Db, extractions: InstanceId -> Extraction,
                       sources: InstanceId -> Source, archives: seq<InstanceId>, identities: seq<InstanceId>)
    requires RootsEnded(start, middle, extractions, sources, archives, identities) && RootsStay(middle, end)
    ensures RootsEnded(start, end, extractions, sources, archives, identities)
  {
    forall i | i in archives ensures ProcessedFrom(start, end, extractions(i), i) { assert ProcessedFrom(start, middle, extractions(i), i); }
    forall i | i in identities ensures IdentifiedFrom(start, end, sources(i), i) { assert IdentifiedFrom(start, middle, sources(i), i); }
  }
}
