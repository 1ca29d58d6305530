/** Whole calls of the services as runs of the protocol, one after the other: whatever else is in flight, what
    a call that is not interrupted leaves behind is reached by actions of the protocol. */
module Runs {
  import opened Collections
  import opened Tables
  import opened Protocol
  import opened WorkerClaims
  import opened Stages
  import opened ArchiveTables
  import opened RootCalls
  import opened EmbeddingStage
  import Completion

  /** From this state the protocol reaches these tables, with all other calls where they are. */
  ghost predicate RunFrom(s: State, db': Db)
  {
    exists end :: Later(s, end) && Returned(s, end, db')
  }

  /** Whatever is in flight on the tables, the protocol leads from them to the others at this moment. */
  ghost predicate IsRun(db: Db, db': Db, now: int)
  {
    forall s: State :: s.db == db && s.now == now ==> RunFrom(s, db')
  }

  /** Some reachable moment of the protocol has these tables. */
  ghost predicate Reached(db: Db, now: int)
  {
    exists s: State :: Reachable(s) && s.db == db && s.now == now
  }

  lemma NoStep(db: Db, now: int)
    ensures IsRun(db, db, now)
  {
    forall s: State | s.db == db && s.now == now ensures RunFrom(s, db) {
      assert s == Run(s, []) && Later(s, s);
      assert Returned(s, s, db);
    }
  }

  lemma RunsCompose(a: Db, b: Db, c: Db, now: int)
    requires IsRun(a, b, now) && IsRun(b, c, now)
    ensures IsRun(a, c, now)
  {
    forall s: State | s.db == a && s.now == now ensures RunFrom(s, c) {
      assert RunFrom(s, b);
      var mid :| Later(s, mid) && Returned(s, mid, b);
      assert RunFrom(mid, c);
      var end :| Later(mid, end) && Returned(mid, end, c);
      LaterTransitive(s, mid, end);
      assert Returned(s, end, c);
    }
  }

  lemma ReachedStays(db: Db, db': Db, now: int)
    requires Reached(db, now) && IsRun(db, db', now)
    ensures Reached(db', now)
  {
    var s: State :| Reachable(s) && s.db == db && s.now == now;
    assert RunFrom(s, db');
    var end :| Later(s, end) && Returned(s, end, db');
    LaterTransitive(EMPTY, s, end);
  }

  /** What the completion check relies on holds of tables that are reached. */
  lemma ReachedIsOk(db: Db, now: int, b: BatchId)
    requires Reached(db, now) && b in db.batches
    ensures Completion.BatchOk(db, b)
  {
    var s: State :| Reachable(s) && s.db == db && s.now == now;
    Completion.CompletionInvReachable(s);
  }

  lemma FreshToken(workers: map<Token, Worker>) returns (t: Token)
    ensures t !in workers
  {
    if workers.Keys == {} {
      t := 0;
    } else {
      var last := LeastExists<Token>(workers.Keys, k => -k);
      t := last + 1;
      forall k | k in workers.Keys ensures k < t {}
    }
  }

  lemma NormalizeRuns(db: Db, g: GroupId, who: WorkerId, now: int, lease: nat, content: Content)
    requires g in GroupCandidates(db, {Extracted}, now - lease, {})
    ensures IsRun(db, NormalizeCall(db, g, who, now, content), now)
  {
    forall s: State | s.db == db && s.now == now ensures RunFrom(s, NormalizeCall(db, g, who, now, content)) {
      var t := FreshToken(s.workers);
      var end := NormalizeIsARun(s, t, g, who, lease, content);
    }
  }

  lemma ChunkRuns(db: Db, g: GroupId, who: WorkerId, now: int, lease: nat, content: Content)
    requires g in GroupCandidates(db, {Normalized}, now - lease, {})
    ensures IsRun(db, ChunkCall(db, g, who, now, content), now)
  {
    forall s: State | s.db == db && s.now == now ensures RunFrom(s, ChunkCall(db, g, who, now, content)) {
      var t := FreshToken(s.workers);
      var end := ChunkIsARun(s, t, g, who, lease, content);
    }
  }

  lemma AnswerIsWithin(db: Db, g: GroupId, reply: Option<nat>)
    ensures g in db.docs && Vectors(db, g, reply).Some? ==> Vectors(db, g, reply).value <= Unembedded(db.docs[g])
  {
    if g in db.docs { TodoIsUnembedded(db.docs[g]); }
  }

  lemma EmbedRuns(db: Db, g: GroupId, owner: Option<BatchId>, who: WorkerId, now: int, lease: nat, reply: Option<nat>,
                  deferred: bool)
    requires TurnOn(db, g, owner, who, now, lease, deferred)
    ensures IsRun(db, Turned(db, g, owner, who, now, reply), now)
  {
    AnswerIsWithin(db, g, reply);
    EmbedCallRuns(db, g, owner, who, now, lease, Vectors(db, g, reply));
  }

  lemma EmbedCallRuns(db: Db, g: GroupId, owner: Option<BatchId>, who: WorkerId, now: int, lease: nat,
                      stored: Option<set<nat>>)
    requires g in Waiting(db, now - lease) && Resolves(Granted(db, g, who, now), g, owner)
    requires g in db.docs && stored.Some? ==> stored.value <= Unembedded(db.docs[g])
    ensures IsRun(db, EmbedCall(db, g, who, now, owner, false, stored), now)
  {
    forall s: State | s.db == db && s.now == now ensures RunFrom(s, EmbedCall(db, g, who, now, owner, false, stored)) {
      var t := FreshToken(s.workers);
      var end := EmbedIsARun(s, t, g, who, lease, owner, false, stored);
    }
  }

  lemma ResolveRuns(db: Db, i: InstanceId, who: WorkerId, run: Option<RunId>, now: int, lease: nat, source: Source)
    requires i in InstanceCandidates(db, IdentityQueue, run, {}, now - lease)
    ensures IsRun(db, ResolveCall(db, i, who, now, source), now)
  {
    forall s: State | s.db == db && s.now == now ensures RunFrom(s, ResolveCall(db, i, who, now, source)) {
      var t := FreshToken(s.workers);
      var end := ResolveIsARun(s, t, i, who, run, lease, source);
    }
  }

  lemma ArchiveRuns(db: Db, i: InstanceId, who: WorkerId, run: Option<RunId>, now: int, lease: nat,
                    batch: Option<BatchId>, x: Extraction)
    requires i in InstanceCandidates(db, ArchiveQueue, run, {}, now - lease) && BatchOfRun(db, run, batch)
    ensures IsRun(db, ArchiveCall(db, i, who, now, batch, false, x), now)
  {
    forall s: State | s.db == db && s.now == now ensures RunFrom(s, ArchiveCall(db, i, who, now, batch, false, x)) {
      var t := FreshToken(s.workers);
      var end := ArchiveIsARun(s, t, i, who, run, lease, batch, false, x);
    }
  }

  /** Leaving roots out leaves only candidates. */
  lemma FewerCandidates(db: Db, queue: Queue, run: Option<RunId>, seen: set<InstanceId>, staleBefore: int)
    ensures InstanceCandidates(db, queue, run, seen, staleBefore) <= InstanceCandidates(db, queue, run, {}, staleBefore)
  {}

  // ----- the completion check -----------------------------------------------------------------------------

  /** The counts of a report nobody else's commits fall between. */
  function ReportOf(db: Db, b: BatchId): CheckPc
    requires b in db.batches
  {
    var run := db.batches[b].run;
    Deciding(db.batches[b].selected, |AttemptedRoots(db, run)|,
             |LooseRootsIn(db, run, TERMINAL)| + |DoneArchives(db, run)| + |DeadArchives(db, run)|,
             |LooseRootsIn(db, run, {Ingested})| + |DoneArchives(db, run)|)
  }

  lemma CountRun(s: State, mid: State, t: Token, b: BatchId, pc: CheckPc) returns (next: State)
    requires Later(s, mid) && Calls(s, mid, t, Checking(b, pc)) && mid.db == s.db && b in s.db.batches
    ensures Later(s, next) && Calls(s, next, t, Checking(b, NextCount(s.db, s.db.batches[b].run, pc))) && next.db == s.db
  {
    Extend(s, mid, CheckStep(t, ReadCount));
    next := Do(mid, CheckStep(t, ReadCount));
    assert next == DoReadCount(mid, t);
  }

  lemma CountsRun(s: State, t: Token, b: BatchId) returns (next: State)
    requires t !in s.workers && b in s.db.batches && s.db.batches[b].status == Running
    ensures Later(s, next) && Calls(s, next, t, Checking(b, ReportOf(s.db, b))) && next.db == s.db
  {
    var n := s.db.batches[b].selected;
    LaterStep(s, StartCheck(t, b));
    next := Do(s, StartCheck(t, b));
    assert next == DoStartCheck(s, t, b);
    next := CountRun(s, next, t, b, CountAttempted(n));
    next := CountRun(s, next, t, b, next.workers[t].cpc);
    next := CountRun(s, next, t, b, next.workers[t].cpc);
    next := CountRun(s, next, t, b, next.workers[t].cpc);
    next := CountRun(s, next, t, b, next.workers[t].cpc);
  }

  lemma DecideRun(s: State, mid: State, t: Token, b: BatchId, pc: CheckPc) returns (next: State)
    requires b in s.db.batches && pc.Deciding? && !ReportRaises(pc) && LooksExhausted(pc)
    requires Later(s, mid) && Calls(s, mid, t, Checking(b, pc)) && mid.db == s.db
    ensures Later(s, next) && Calls(s, next, t, Checking(b, Completing)) && next.db == s.db
  {
    Extend(s, mid, CheckStep(t, Decide));
    next := Do(mid, CheckStep(t, Decide));
    assert next == DoDecide(mid, t);
  }

  lemma CompleteRun(s: State, mid: State, t: Token, b: BatchId) returns (end: State)
    requires b in s.db.batches && Later(s, mid) && Calls(s, mid, t, Checking(b, Completing)) && mid.db == s.db
    ensures Later(s, end) && Returned(s, end, Transition(s.db, b, Completed, Some(SourceWorkExhausted)))
  {
    Extend(s, mid, CheckStep(t, CompleteChecked));
    end := Do(mid, CheckStep(t, CompleteChecked));
    assert end == DoCompleteChecked(mid, t);
    assert s.workers[t := Checking(b, Completing)] - {t} == s.workers;
  }

  /** A check that completes the batch is a run: the five counting queries, the decision, the update. */
  lemma CheckIsARun(s: State, t: Token, b: BatchId) returns (end: State)
    requires t !in s.workers && b in s.db.batches && s.db.batches[b].status == Running
    requires !ReportRaises(ReportOf(s.db, b)) && LooksExhausted(ReportOf(s.db, b))
    ensures Later(s, end) && Returned(s, end, Transition(s.db, b, Completed, Some(SourceWorkExhausted)))
  {
    var counted := CountsRun(s, t, b);
    var decided := DecideRun(s, counted, t, b, ReportOf(s.db, b));
    end := CompleteRun(s, decided, t, b);
  }

  lemma CheckRuns(db: Db, b: BatchId, now: int)
    requires b in db.batches && db.batches[b].status == Running
    requires !ReportRaises(ReportOf(db, b)) && LooksExhausted(ReportOf(db, b))
    ensures IsRun(db, Transition(db, b, Completed, Some(SourceWorkExhausted)), now)
  {
    forall s: State | s.db == db && s.now == now ensures RunFrom(s, Transition(db, b, Completed, Some(SourceWorkExhausted))) {
      var t := FreshToken(s.workers);
      var end := CheckIsARun(s, t, b);
    }
  }
}
