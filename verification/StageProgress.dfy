/** How a stage's queue shrinks from turn to turn. */
module StageProgress {
  import opened Collections
  import opened Tables
  import opened Protocol
  import opened WorkerClaims
  import opened Stages

  // ----- what is attempted, once each ---------------------------------------------------------------------

  predicate NoRepeats(s: seq<nat>)
  {
    forall i, j :: 0 <= i < j < |s| ==> s[i] != s[j]
  }

  function Elements(s: seq<nat>): set<nat>
  {
    set x | x in s
  }

  /** What is left is what was there at the start and has not been attempted. */
  ghost predicate Progress(all: set<InstanceId>, left: set<InstanceId>, seen: set<InstanceId>, attempted: seq<InstanceId>)
  {
    seen == Elements(attempted) && seen <= all && left == all - seen && NoRepeats(attempted)
  }

  lemma OneMore(all: set<InstanceId>, left: set<InstanceId>, seen: set<InstanceId>, attempted: seq<InstanceId>, i: InstanceId)
    requires Progress(all, left, seen, attempted) && i in left
    ensures Progress(all, left - {i}, seen + {i}, attempted + [i])
    ensures |all| - |seen + {i}| < |all| - |seen| && |seen| <= |all|
  {
    assert i !in Elements(attempted) && Elements(attempted + [i]) == Elements(attempted) + {i};
    SubsetCardinality(seen, all);
  }

  lemma Finished(all: set<InstanceId>, seen: set<InstanceId>, attempted: seq<InstanceId>)
    requires Progress(all, {}, seen, attempted)
    ensures NoRepeats(attempted) && Elements(attempted) == all
  {
    forall i | i in all ensures i in Elements(attempted) { assert i !in all - seen; }
  }

  // ----- one call on a group ----------------------------------------------------------------------------

  predicate OnlyGroup(db: Db, db': Db, g: GroupId)
  {
    g in db.groups && db'.groups.Keys == db.groups.Keys && (forall h :: h in db.groups && h != g ==> db'.groups[h] == db.groups[h]) &&
    db'.groups[g].claim.None? && db'.groups[g].created == db.groups[g].created
  }

  predicate OnlyDoc(db: Db, db': Db, g: GroupId)
  {
    db'.docs.Keys <= db.docs.Keys + {g} && db.docs.Keys <= db'.docs.Keys &&
    forall h :: h in db.docs && h != g ==> db'.docs[h] == db.docs[h]
  }

  lemma NormalizeMoves(db: Db, g: GroupId, who: WorkerId, now: int, content: Content)
    requires g in db.groups
    ensures var db' := NormalizeCall(db, g, who, now, content);
            OnlyGroup(db, db', g) && OnlyDoc(db, db', g) && RootsStay(db, db') && NormalizedFrom(db, db', content, g)
  {
    NormalizeCallMeans(db, g, who, now, content);
  }

  lemma ChunkMoves(db: Db, g: GroupId, who: WorkerId, now: int, content: Content)
    requires g in db.groups
    ensures var db' := ChunkCall(db, g, who, now, content);
            OnlyGroup(db, db', g) && OnlyDoc(db, db', g) && RootsStay(db, db') && ChunkedFrom(db, db', content, g)
  {
    ChunkCallMeans(db, g, who, now, content);
  }

  /** From the tables of the start to those of now the group was normalized if its content is text, and failed if
      not. */
  predicate NormalizedFrom(start: Db, now: Db, content: Content, g: GroupId)
  {
    g in now.groups && now.groups[g].state == (if content.Text? then Normalized else Failed) &&
    (content.Text? ==> g in now.docs && now.docs[g] == if g in start.docs then start.docs[g] else [])
  }

  /** The group ended chunked exactly if it had a document, with chunk rows or with text that could be inserted,
      and failed otherwise; chunk rows it had are as they were, and those it got are all of its chunks, none with
      an embedding. */
  predicate ChunkedFrom(start: Db, now: Db, content: Content, g: GroupId)
  {
    g in start.groups && g in now.groups &&
    if g in start.docs && (|start.docs[g]| > 0 || content == Text(true))
    then now.groups[g].state == Chunked && g in now.docs && (|start.docs[g]| > 0 ==> now.docs[g] == start.docs[g]) &&
         (|start.docs[g]| == 0 ==> |now.docs[g]| == start.groups[g].pieces && forall k :: 0 <= k < |now.docs[g]| ==> !now.docs[g][k])
    else now.groups[g].state == Failed
  }

  /** How a group comes out of a stage, told by the tables before and after. */
  type Ending = (Db, Db, GroupId) -> bool

  function Normalizing(workspace: GroupId -> Content): Ending
  {
    (start: Db, now: Db, g: GroupId) => NormalizedFrom(start, now, workspace(g), g)
  }

  function Chunking(workspace: GroupId -> Content): Ending
  {
    (start: Db, now: Db, g: GroupId) => ChunkedFrom(start, now, workspace(g), g)
  }

  /** A group's row and its document are as they were. */
  predicate Same(start: Db, now: Db, g: GroupId)
  {
    g in start.groups && g in now.groups && now.groups[g] == start.groups[g] && (g in now.docs <==> g in start.docs) &&
    (g in start.docs ==> now.docs[g] == start.docs[g])
  }

  /** Every candidate of the start that has not been worked on is one still. */
  ghost predicate GroupsSoFar(start: Db, now: Db, eligible: set<PipelineState>, results: set<PipelineState>,
                              staleBefore: int, attempted: seq<GroupId>)
  {
    var all := GroupCandidates(start, eligible, staleBefore, {});
    Elements(attempted) <= all && NoRepeats(attempted) && GroupCandidates(now, eligible, staleBefore, {}) == all - Elements(attempted) &&
    forall g :: g in attempted ==> g in now.groups && now.groups[g].state in results
  }

  /** Attempts and groups only come. */
  predicate OnlyMore(db: Db, db': Db)
  {
    db.attempts <= db'.attempts && db.groups.Keys <= db'.groups.Keys
  }

  /** Of a batch only the embeddings counter changed. */
  predicate SameEnvelope(a: Batch, b: Batch)
  {
    b == a.(embeddingsReserved := b.embeddingsReserved)
  }

  predicate SameEnvelopes(db: Db, db': Db)
  {
    db'.batches.Keys == db.batches.Keys && forall b :: b in db.batches ==> SameEnvelope(db.batches[b], db'.batches[b])
  }

  /** Nothing happened to the instances, nor to the batches but for their embeddings counters. */
  predicate RootsStay(db: Db, db': Db)
  {
    db'.instances == db.instances && OnlyMore(db, db') && SameEnvelopes(db, db')
  }

  lemma RootsStayOn(a: Db, b: Db, c: Db)
    requires RootsStay(a, b) && RootsStay(b, c)
    ensures RootsStay(a, c)
  {
    forall k | k in a.batches ensures SameEnvelope(a.batches[k], c.batches[k]) {
      assert SameEnvelope(a.batches[k], b.batches[k]) && SameEnvelope(b.batches[k], c.batches[k]);
    }
  }

  /** Those that have been worked on came out as the stage lets them, and the others are as they were. */
  ghost predicate EndedSoFar(start: Db, now: Db, ending: Ending, attempted: seq<GroupId>)
  {
    RootsStay(start, now) && (forall g :: g in attempted ==> ending(start, now, g)) &&
    forall g :: g in start.groups && g !in attempted ==> Same(start, now, g)
  }

  lemma NothingYet(start: Db, ending: Ending)
    ensures EndedSoFar(start, start, ending, [])
  {}

  lemma OtherGroupsSame(now: Db, next: Db, g: GroupId, h: GroupId)
    requires OnlyGroup(now, next, g) && OnlyDoc(now, next, g) && h != g && h in now.groups
    ensures Same(now, next, h)
  {}

  lemma GroupOneMore(start: Db, now: Db, next: Db, eligible: set<PipelineState>, results: set<PipelineState>,
                     staleBefore: int, attempted: seq<GroupId>, g: GroupId)
    requires GroupsSoFar(start, now, eligible, results, staleBefore, attempted) && OnlyGroup(now, next, g)
    requires g in GroupCandidates(now, eligible, staleBefore, {}) && next.groups[g].state in results
    requires results !! eligible
    ensures GroupsSoFar(start, next, eligible, results, staleBefore, attempted + [g])
    ensures GroupCandidates(next, eligible, staleBefore, {}) < GroupCandidates(now, eligible, staleBefore, {})
  {
    assert Elements(attempted + [g]) == Elements(attempted) + {g};
    forall h ensures h in GroupCandidates(next, eligible, staleBefore, {}) <==> h in GroupCandidates(now, eligible, staleBefore, {}) - {g} {}
  }

  /** One more group is worked on: the endings of the others stand. */
  lemma EndedOneMore(start: Db, now: Db, next: Db, ending: Ending, attempted: seq<GroupId>, g: GroupId)
    requires EndedSoFar(start, now, ending, attempted) && OnlyGroup(now, next, g) && OnlyDoc(now, next, g) && RootsStay(now, next)
    requires start.groups.Keys <= now.groups.Keys && (forall h :: h in attempted ==> h in now.groups && h != g)
    requires ending(start, next, g)
    requires forall h :: h in attempted && ending(start, now, h) && Same(now, next, h) ==> ending(start, next, h)
    ensures EndedSoFar(start, next, ending, attempted + [g])
  {
    RootsStayOn(start, now, next);
    forall h | h in attempted + [g] ensures ending(start, next, h) {
      if h != g { OtherGroupsSame(now, next, g, h); }
    }
    forall h | h in start.groups && h !in attempted + [g] ensures Same(start, next, h) {
      assert Same(start, now, h);
      OtherGroupsSame(now, next, g, h);
    }
  }

  /** No group in these states can be claimed. */
  predicate Idle(db: Db, states: set<PipelineState>, staleBefore: int)
  {
    GroupCandidates(db, states, staleBefore, {}) == {}
  }

  /** A call on one group that does not move it into a queue leaves that queue empty. */
  lemma StaysIdle(db: Db, db': Db, g: GroupId, states: set<PipelineState>, staleBefore: int)
    requires OnlyGroup(db, db', g) && db'.groups[g].state !in states && Idle(db, states, staleBefore)
    ensures Idle(db', states, staleBefore)
  {
    forall h | h in GroupCandidates(db', states, staleBefore, {}) ensures h in GroupCandidates(db, states, staleBefore, {}) {}
  }

  lemma ChunkStaysIdle(db: Db, g: GroupId, who: WorkerId, now: int, content: Content, staleBefore: int)
    requires g in db.groups && Idle(db, {Extracted}, staleBefore)
    ensures Idle(ChunkCall(db, g, who, now, content), {Extracted}, staleBefore)
  {
    ChunkMoves(db, g, who, now, content);
    StaysIdle(db, ChunkCall(db, g, who, now, content), g, {Extracted}, staleBefore);
  }

  lemma BothIdle(db: Db, staleBefore: int)
    requires Idle(db, {Extracted}, staleBefore) && Idle(db, {Normalized}, staleBefore)
    ensures Idle(db, {Extracted, Normalized}, staleBefore)
  {
    forall g | g in GroupCandidates(db, {Extracted, Normalized}, staleBefore, {})
      ensures g in GroupCandidates(db, {Extracted}, staleBefore, {}) || g in GroupCandidates(db, {Normalized}, staleBefore, {})
    {}
  }

  const PREPARED := {Normalized, Failed}
  const SPLIT := {Chunked, Failed}

  lemma NormalizeTurn(start: Db, now: Db, next: Db, staleBefore: int, attempted: seq<GroupId>, g: GroupId,
                      who: WorkerId, time: int, content: Content)
    requires GroupsSoFar(start, now, {Extracted}, PREPARED, staleBefore, attempted)
    requires next == NormalizeCall(now, g, who, time, content)
    requires g in GroupCandidates(now, {Extracted}, staleBefore, {})
    ensures GroupsSoFar(start, next, {Extracted}, PREPARED, staleBefore, attempted + [g])
    ensures GroupCandidates(next, {Extracted}, staleBefore, {}) < GroupCandidates(now, {Extracted}, staleBefore, {})
  {
    NormalizeMoves(now, g, who, time, content);
    GroupOneMore(start, now, next, {Extracted}, PREPARED, staleBefore, attempted, g);
  }

  lemma ChunkTurn(start: Db, now: Db, next: Db, staleBefore: int, attempted: seq<GroupId>, g: GroupId, who: WorkerId,
                  time: int, content: Content)
    requires GroupsSoFar(start, now, {Normalized}, SPLIT, staleBefore, attempted)
    requires next == ChunkCall(now, g, who, time, content)
    requires g in GroupCandidates(now, {Normalized}, staleBefore, {})
    ensures GroupsSoFar(start, next, {Normalized}, SPLIT, staleBefore, attempted + [g])
    ensures GroupCandidates(next, {Normalized}, staleBefore, {}) < GroupCandidates(now, {Normalized}, staleBefore, {})
  {
    ChunkMoves(now, g, who, time, content);
    GroupOneMore(start, now, next, {Normalized}, SPLIT, staleBefore, attempted, g);
  }

  lemma NotYetAttempted(start: Db, now: Db, eligible: set<PipelineState>, results: set<PipelineState>, staleBefore: int,
                        attempted: seq<GroupId>, g: GroupId)
    requires GroupsSoFar(start, now, eligible, results, staleBefore, attempted)
    requires g in GroupCandidates(now, eligible, staleBefore, {})
    ensures g !in attempted && g in start.groups && g in now.groups && forall h :: h in attempted ==> h in now.groups
  {
    assert g !in Elements(attempted);
  }

  lemma NormalizeEnds(start: Db, now: Db, next: Db, staleBefore: int, attempted: seq<GroupId>, g: GroupId, who: WorkerId,
                      time: int, workspace: GroupId -> Content)
    requires GroupsSoFar(start, now, {Extracted}, PREPARED, staleBefore, attempted)
    requires EndedSoFar(start, now, Normalizing(workspace), attempted)
    requires next == NormalizeCall(now, g, who, time, workspace(g)) && g in GroupCandidates(now, {Extracted}, staleBefore, {})
    ensures EndedSoFar(start, next, Normalizing(workspace), attempted + [g])
  {
    NotYetAttempted(start, now, {Extracted}, PREPARED, staleBefore, attempted, g);
    NormalizeMoves(now, g, who, time, workspace(g));
    assert Same(start, now, g);
    forall h | h in start.groups ensures h in now.groups { if h !in attempted { assert Same(start, now, h); } }
    EndedOneMore(start, now, next, Normalizing(workspace), attempted, g);
  }

  lemma ChunkEnds(start: Db, now: Db, next: Db, staleBefore: int, attempted: seq<GroupId>, g: GroupId, who: WorkerId,
                  time: int, workspace: GroupId -> Content)
    requires GroupsSoFar(start, now, {Normalized}, SPLIT, staleBefore, attempted)
    requires EndedSoFar(start, now, Chunking(workspace), attempted)
    requires next == ChunkCall(now, g, who, time, workspace(g)) && g in GroupCandidates(now, {Normalized}, staleBefore, {})
    ensures EndedSoFar(start, next, Chunking(workspace), attempted + [g])
  {
    NotYetAttempted(start, now, {Normalized}, SPLIT, staleBefore, attempted, g);
    ChunkMoves(now, g, who, time, workspace(g));
    assert Same(start, now, g);
    forall h | h in start.groups ensures h in now.groups { if h !in attempted { assert Same(start, now, h); } }
    EndedOneMore(start, now, next, Chunking(workspace), attempted, g);
  }

  /** And no group comes back to be normalized. */
  lemma ChunkTurnEnds(start: Db, now: Db, next: Db, staleBefore: int, attempted: seq<GroupId>, g: GroupId, who: WorkerId,
                      time: int, workspace: GroupId -> Content, idle: bool)
    requires GroupsSoFar(start, now, {Normalized}, SPLIT, staleBefore, attempted)
    requires EndedSoFar(start, now, Chunking(workspace), attempted) && (idle ==> Idle(now, {Extracted}, staleBefore))
    requires next == ChunkCall(now, g, who, time, workspace(g)) && g in GroupCandidates(now, {Normalized}, staleBefore, {})
    ensures EndedSoFar(start, next, Chunking(workspace), attempted + [g]) && (idle ==> Idle(next, {Extracted}, staleBefore))
  {
    ChunkEnds(start, now, next, staleBefore, attempted, g, who, time, workspace);
    if idle { ChunkStaysIdle(now, g, who, time, workspace(g), staleBefore); }
  }
}
