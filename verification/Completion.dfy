/** Batch completion: the report is read query by query while other calls run, and yet a batch that a
    check completes has no selected root left that could still need work. */
module Completion {
  import opened Collections
  import opened Tables
  import opened Protocol
  import opened Pipeline
  import opened Evolution
  import opened Fencing

  function TerminalRoots(db: Db, run: RunId): set<InstanceId>
  {
    set i | i in db.instances && i in Roots(db, run) && IsTerminal(db, i)
  }

  ghost predicate AllTerminal(db: Db, run: RunId)
  {
    forall i :: i in Roots(db, run) ==> IsTerminal(db, i)
  }

  ghost predicate AllAttempted(db: Db, run: RunId)
  {
    forall i :: i in Roots(db, run) ==> IsAttempted(db, i)
  }

  /** Some attempt at the root or at its content is on record; and an archive succeeded or failed for good, and the
      content of any other root went through or came to rest. */
  predicate WorkDone(db: Db, i: InstanceId)
    requires i in db.instances
  {
    var row := db.instances[i];
    (exists a :: a in db.attempts && (a.subject == OfInstance(i) || (row.group.Some? && a.subject == OfGroup(row.group.value)))) &&
    if row.archiveCategory then Attempt(OfInstance(i), Succeeded) in db.attempts || Attempt(OfInstance(i), FailedDurable) in db.attempts
    else row.group.Some? && row.group.value in db.groups &&
         var state := db.groups[row.group.value].state;
         state == Ingested || state == Excluded || state == Unsupported || state == Failed || state == NeedsReview
  }

  lemma TriedExactly(db: Db, subject: Subject)
    ensures Tried(db, subject) <==> exists a :: a in db.attempts && a.subject == subject
  {
    if Tried(db, subject) {
      var outcome :| Attempt(subject, outcome) in db.attempts;
      assert Attempt(subject, outcome).subject == subject;
    }
    if a :| a in db.attempts && a.subject == subject {
      match a.outcome
      case Succeeded => assert Attempt(subject, Succeeded) in db.attempts;
      case FailedRetryable => assert Attempt(subject, FailedRetryable) in db.attempts;
      case FailedDurable => assert Attempt(subject, FailedDurable) in db.attempts;
    }
  }

  /** What the check counts as attempted and terminal is that. */
  lemma WorkDoneExactly(db: Db, i: InstanceId)
    requires i in db.instances
    ensures WorkDone(db, i) <==> IsAttempted(db, i) && IsTerminal(db, i)
  {
    TriedExactly(db, OfInstance(i));
    if db.instances[i].group.Some? { TriedExactly(db, OfGroup(db.instances[i].group.value)); }
  }

  // ----- stability ---------------------------------------------------------------------------------

  lemma RootsFixed(db: Db, db': Db, b: BatchId)
    requires Evolves(db, db') && b in db.batches
    ensures Roots(db', db.batches[b].run) == Roots(db, db.batches[b].run)
  {
    var run := db.batches[b].run;
    assert Batched(db, run);
    forall i ensures i in Roots(db', run) <==> i in Roots(db, run) {
      if i in db.instances { assert InstanceMoved(db.instances[i], db'.instances[i]); }
    }
  }

  lemma AttemptedStays(db: Db, db': Db, i: InstanceId)
    requires Evolves(db, db') && i in db.instances && IsAttempted(db, i)
    ensures i in db'.instances && IsAttempted(db', i)
  {
    assert InstanceMoved(db.instances[i], db'.instances[i]);
  }

  lemma LooseStays(db: Db, db': Db, i: InstanceId)
    requires Evolves(db, db') && i in db.instances && LooseIn(db, i, TERMINAL)
    ensures i in db'.instances && LooseIn(db', i, TERMINAL)
  {
    assert InstanceMoved(db.instances[i], db'.instances[i]);
    assert GroupMoved(db.groups[db.instances[i].group.value], db'.groups[db.instances[i].group.value]);
  }

  /** A terminal root is terminal for good, whichever way it became so. */
  lemma TerminalStays(db: Db, db': Db, i: InstanceId)
    requires Evolves(db, db') && i in db.instances && IsTerminal(db, i)
    ensures i in db'.instances && IsTerminal(db', i)
  {
    assert InstanceMoved(db.instances[i], db'.instances[i]);
    if LooseIn(db, i, TERMINAL) { LooseStays(db, db', i); }
  }

  /** Every set the report counts, except the dead archives alone, only grows. */
  lemma CountedSetsGrow(db: Db, db': Db, b: BatchId)
    requires Evolves(db, db') && b in db.batches
    ensures var run := db.batches[b].run;
            AttemptedRoots(db, run) <= AttemptedRoots(db', run) &&
            LooseRootsIn(db, run, TERMINAL) <= LooseRootsIn(db', run, TERMINAL) &&
            DoneArchives(db, run) <= DoneArchives(db', run) && TerminalRoots(db, run) <= TerminalRoots(db', run)
  {
    var run := db.batches[b].run;
    RootsFixed(db, db', b);
    forall i | i in AttemptedRoots(db, run) ensures i in AttemptedRoots(db', run) { AttemptedStays(db, db', i); }
    forall i | i in LooseRootsIn(db, run, TERMINAL) ensures i in LooseRootsIn(db', run, TERMINAL) { LooseStays(db, db', i); }
    forall i | i in TerminalRoots(db, run) ensures i in TerminalRoots(db', run) { TerminalStays(db, db', i); }
    forall i | i in DoneArchives(db, run) ensures i in DoneArchives(db', run) {
      assert InstanceMoved(db.instances[i], db'.instances[i]);
    }
  }

  lemma AllStays(db: Db, db': Db, b: BatchId)
    requires Evolves(db, db') && b in db.batches
    ensures AllTerminal(db, db.batches[b].run) ==> AllTerminal(db', db.batches[b].run)
    ensures AllAttempted(db, db.batches[b].run) ==> AllAttempted(db', db.batches[b].run)
  {
    var run := db.batches[b].run;
    RootsFixed(db, db', b);
    if AllTerminal(db, run) {
      forall i | i in Roots(db', run) ensures IsTerminal(db', i) { TerminalStays(db, db', i); }
    }
    if AllAttempted(db, run) {
      forall i | i in Roots(db', run) ensures IsAttempted(db', i) { AttemptedStays(db, db', i); }
    }
  }

  // ----- what a check in flight knows --------------------------------------------------------------

  predicate CheckOk(db: Db, b: BatchId, pc: CheckPc)
    requires b in db.batches
  {
    var run, n := db.batches[b].run, db.batches[b].selected;
    match pc
    case CountAttempted(selected) => selected == n
    case CountLoose(selected, a) => selected == n && a <= |AttemptedRoots(db, run)|
    case CountIngested(selected, a, l) =>
      selected == n && a <= |AttemptedRoots(db, run)| && l <= |LooseRootsIn(db, run, TERMINAL)|
    case CountArchives(selected, a, l, _) =>
      selected == n && a <= |AttemptedRoots(db, run)| && l <= |LooseRootsIn(db, run, TERMINAL)|
    case CountFailed(selected, a, l, _, d) =>
      selected == n && a <= |AttemptedRoots(db, run)| && l <= |LooseRootsIn(db, run, TERMINAL)| && d <= |DoneArchives(db, run)|
    case Deciding(selected, a, terminal, _) =>
      selected == n && a <= |AttemptedRoots(db, run)| && terminal <= |TerminalRoots(db, run)|
    case Completing => TerminalRoots(db, run) == Roots(db, run) && AttemptedRoots(db, run) == Roots(db, run)
  }

  predicate CheckedOut(batch: Batch)
  {
    batch.status == Completed && batch.stopReason == Some(SourceWorkExhausted)
  }

  ghost predicate BatchOk(db: Db, b: BatchId)
    requires b in db.batches
  {
    var run := db.batches[b].run;
    db.batches[b].selected == |Roots(db, run)| && |Roots(db, run)| > 0 &&
    (db.batches[b].stopReason == Some(SourceWorkExhausted) ==>
       db.batches[b].status == Completed && AllTerminal(db, run) && AllAttempted(db, run))
  }

  ghost predicate CompletionInv(s: State)
  {
    (forall b :: b in s.db.batches ==> BatchOk(s.db, b)) &&
    (forall t :: t in s.workers && s.workers[t].Checking? ==>
       s.workers[t].batch in s.db.batches && CheckOk(s.db, s.workers[t].batch, s.workers[t].cpc)) &&
    (forall b :: b in s.db.batches ==> s.hist.completions[b] == if CheckedOut(s.db.batches[b]) then 1 else 0) &&
    (forall b :: b in s.hist.completions ==> b in s.db.batches)
  }

  lemma CheckOkStays(db: Db, db': Db, b: BatchId, pc: CheckPc)
    requires Evolves(db, db') && b in db.batches && CheckOk(db, b, pc)
    ensures b in db'.batches && CheckOk(db', b, pc)
  {
    var run := db.batches[b].run;
    assert BatchMoved(db.batches[b], db'.batches[b]);
    RootsFixed(db, db', b);
    CountedSetsGrow(db, db', b);
    SubsetCardinality(AttemptedRoots(db, run), AttemptedRoots(db', run));
    SubsetCardinality(LooseRootsIn(db, run, TERMINAL), LooseRootsIn(db', run, TERMINAL));
    SubsetCardinality(DoneArchives(db, run), DoneArchives(db', run));
    SubsetCardinality(TerminalRoots(db, run), TerminalRoots(db', run));
    assert TerminalRoots(db', run) <= Roots(db', run) && AttemptedRoots(db', run) <= Roots(db', run);
  }

  /** Loose roots, finished archives and dead archives are disjoint at any one moment. */
  lemma TerminalCount(db: Db, run: RunId)
    ensures |TerminalRoots(db, run)| ==
            |LooseRootsIn(db, run, TERMINAL)| + |DoneArchives(db, run)| + |DeadArchives(db, run)|
  {
    var loose, done, dead := LooseRootsIn(db, run, TERMINAL), DoneArchives(db, run), DeadArchives(db, run);
    assert TerminalRoots(db, run) == loose + done + dead;
    assert loose !! done && (loose + done) !! dead;
  }

  /** The next query keeps what the check knows: an archive counted as finished is not counted again
      among the dead ones, because that query runs later and excludes finished archives. */
  lemma NextCountOk(db: Db, b: BatchId, pc: CheckPc)
    requires b in db.batches && CheckOk(db, b, pc)
    ensures CheckOk(db, b, NextCount(db, db.batches[b].run, pc))
  {
    TerminalCount(db, db.batches[b].run);
  }

  /** Counts that look exhausted are the whole of the selected roots. */
  lemma ExhaustedMeansAll(db: Db, b: BatchId, pc: CheckPc)
    requires b in db.batches && BatchOk(db, b) && pc.Deciding? && CheckOk(db, b, pc) && LooksExhausted(pc)
    ensures CheckOk(db, b, Completing)
  {
    var run := db.batches[b].run;
    assert TerminalRoots(db, run) <= Roots(db, run) && AttemptedRoots(db, run) <= Roots(db, run);
    SubsetCardinality(TerminalRoots(db, run), Roots(db, run));
    SubsetCardinality(AttemptedRoots(db, run), Roots(db, run));
  }

  // ----- preservation ------------------------------------------------------------------------------

  /** Batches move as operators may move them; checks and completions are untouched. */
  ghost predicate NoCheckMoves(s: State, s': State)
  {
    s'.hist.completions == s.hist.completions &&
    (forall t :: t in s'.workers && s'.workers[t].Checking? ==> t in s.workers && s'.workers[t] == s.workers[t]) &&
    (forall b :: b in s'.db.batches && b !in s.db.batches ==>
       BatchOk(s'.db, b) && s'.db.batches[b].stopReason.None?) &&
    (forall b :: b in s.db.batches && b in s'.db.batches && s'.db.batches[b] != s.db.batches[b] ==>
       (s'.db.batches[b].stopReason == s.db.batches[b].stopReason && s'.db.batches[b].status == s.db.batches[b].status) ||
       s'.db.batches[b].stopReason != Some(SourceWorkExhausted))
  }

  lemma BatchOkStays(db: Db, db': Db, b: BatchId)
    requires Evolves(db, db') && b in db.batches && b in db'.batches && BatchOk(db, b)
    requires db'.batches[b].stopReason == Some(SourceWorkExhausted) ==>
               db.batches[b].stopReason == Some(SourceWorkExhausted)
    ensures BatchOk(db', b)
  {
    assert BatchMoved(db.batches[b], db'.batches[b]);
    RootsFixed(db, db', b);
    AllStays(db, db', b);
  }

  lemma NoCheckKeepsInv(s: State, s': State)
    requires CompletionInv(s) && Evolves(s.db, s'.db) && NoCheckMoves(s, s')
    ensures CompletionInv(s')
  {
    forall b | b in s'.db.batches
      ensures BatchOk(s'.db, b) && s'.hist.completions[b] == if CheckedOut(s'.db.batches[b]) then 1 else 0
    {
      if b in s.db.batches {
        assert BatchOk(s.db, b) && BatchMoved(s.db.batches[b], s'.db.batches[b]);
        BatchOkStays(s.db, s'.db, b);
      }
    }
    forall t | t in s'.workers && s'.workers[t].Checking?
      ensures s'.workers[t].batch in s'.db.batches && CheckOk(s'.db, s'.workers[t].batch, s'.workers[t].cpc)
    {
      CheckOkStays(s.db, s'.db, s.workers[t].batch, s.workers[t].cpc);
    }
  }

  lemma CreateBatchMoves(s: State, b: BatchId, run: RunId, picks: map<InstanceId, Pick>, e: nat, x: Option<nat>)
    ensures NoCheckMoves(s, DoCreateBatch(s, b, run, picks, e, x))
  {
    var s' := DoCreateBatch(s, b, run, picks, e, x);
    if s' != s {
      forall i ensures i in Roots(s'.db, run) <==> i in picks.Keys {}
      assert Roots(s'.db, run) == picks.Keys;
    }
  }

  lemma EnvironmentMoves(s: State, a: EnvironmentAction)
    ensures NoCheckMoves(s, DoEnvironment(s, a))
  {
    match a
    case CreateBatch(b, run, picks, e, x) => CreateBatchMoves(s, b, run, picks, e, x);
    case _ =>
  }

  lemma InstanceMoves(s: State, t: Token, a: InstanceAction)
    requires AtInstance(s, t)
    ensures NoCheckMoves(s, DoInstance(s, t, a))
  {}

  lemma ArchiveMoves(s: State, t: Token, a: ArchiveAction)
    requires AtInstance(s, t)
    ensures NoCheckMoves(s, DoArchive(s, t, a))
  {}

  lemma GroupMoves(s: State, t: Token, a: GroupAction)
    requires AtGroup(s, t)
    ensures NoCheckMoves(s, DoGroup(s, t, a))
  {}

  lemma CheckKeepsInv(s: State, t: Token, a: CheckAction)
    requires CompletionInv(s) && AtCheck(s, t)
    ensures CompletionInv(DoCheck(s, t, a))
  {
    var s', b, pc := DoCheck(s, t, a), s.workers[t].batch, s.workers[t].cpc;
    assert CheckOk(s.db, b, pc) && BatchOk(s.db, b);
    match a
    case ReadCount => NextCountOk(s.db, b, pc);
    case Decide => if pc.Deciding? && LooksExhausted(pc) { ExhaustedMeansAll(s.db, b, pc); }
    case CompleteChecked => if pc.Completing? { CompletionKeepsInv(s, t); }
  }

  lemma CompletionKeepsInv(s: State, t: Token)
    requires CompletionInv(s) && AtCheck(s, t) && s.workers[t].cpc.Completing?
    ensures CompletionInv(DoCompleteChecked(s, t))
  {
    var s', b := DoCompleteChecked(s, t), s.workers[t].batch;
    TransitionEvolves(s.db, b, Completed, Some(SourceWorkExhausted));
    assert CheckOk(s.db, b, Completing) && BatchOk(s.db, b);
    AllStays(s.db, s'.db, b);
    forall c | c in s'.db.batches
      ensures BatchOk(s'.db, c) && s'.hist.completions[c] == if CheckedOut(s'.db.batches[c]) then 1 else 0
    {
      assert BatchOk(s.db, c);
      RootsFixed(s.db, s'.db, c);
      if c != b { BatchOkStays(s.db, s'.db, c); }
    }
    forall u | u in s'.workers && s'.workers[u].Checking?
      ensures s'.workers[u].batch in s'.db.batches && CheckOk(s'.db, s'.workers[u].batch, s'.workers[u].cpc)
    {
      CheckOkStays(s.db, s'.db, s.workers[u].batch, s.workers[u].cpc);
    }
  }

  lemma OthersMoveNoCheck(s: State, a: Action)
    requires !a.CheckStep? && !a.StartCheck?
    ensures NoCheckMoves(s, Do(s, a))
  {
    match a
    case Environment(env) => EnvironmentMoves(s, env);
    case InstanceStep(t, ia) => if AtInstance(s, t) { InstanceMoves(s, t, ia); }
    case ArchiveStep(t, aa) => if AtInstance(s, t) { ArchiveMoves(s, t, aa); }
    case GroupStep(t, ga) => if AtGroup(s, t) { GroupMoves(s, t, ga); }
    case _ =>
  }

  lemma CompletionInvKept(s: State, a: Action)
    requires Inv(s) && CompletionInv(s)
    ensures CompletionInv(Do(s, a))
  {
    if a.CheckStep? {
      if AtCheck(s, a.t) { CheckKeepsInv(s, a.t, a.ca); }
    } else if a.StartCheck? {
      StartKeepsInv(s, a.t, a.b);
    } else {
      ActionEvolves(s, a);
      OthersMoveNoCheck(s, a);
      NoCheckKeepsInv(s, Do(s, a));
    }
  }

  lemma StartKeepsInv(s: State, t: Token, b: BatchId)
    requires CompletionInv(s)
    ensures CompletionInv(DoStartCheck(s, t, b))
  {}

  lemma {:induction false} CompletionRuns(actions: seq<Action>)
    ensures CompletionInv(Run(EMPTY, actions))
    decreases |actions|
  {
    if actions != [] {
      var before := actions[..|actions| - 1];
      InvRuns(EMPTY, before);
      CompletionRuns(before);
      CompletionInvKept(Run(EMPTY, before), actions[|actions| - 1]);
    }
  }

  lemma CompletionInvReachable(s: State)
    requires Reachable(s)
    ensures CompletionInv(s)
  {
    var actions :| s == Run(EMPTY, actions);
    CompletionRuns(actions);
  }

  // ----- the statements about whole runs ----------------------------------------------------------

  /** Whenever a batch stands completed as exhausted, every root it selected is terminal, and so it is
      at every later moment of every continuation. */
  lemma CompletionIsSound(s: State, s': State, b: BatchId, i: InstanceId)
    requires Reachable(s) && Later(s, s')
    requires b in s.db.batches && s.db.batches[b].stopReason == Some(SourceWorkExhausted)
    requires i in Roots(s.db, s.db.batches[b].run)
    ensures IsTerminal(s.db, i) && i in s'.db.instances && IsTerminal(s'.db, i)
    ensures s.db.instances[i].archiveCategory ==>
              Attempt(OfInstance(i), Succeeded) in s.db.attempts || Attempt(OfInstance(i), FailedDurable) in s.db.attempts
    ensures !s.db.instances[i].archiveCategory ==>
              s.db.instances[i].group.Some? && s.db.instances[i].group.value in s.db.groups &&
              s.db.groups[s.db.instances[i].group.value].state in {Ingested, Excluded, Unsupported, Failed, NeedsReview}
  {
    CompletionInvReachable(s);
    assert BatchOk(s.db, b);
    LaterEvolves(s, s');
    TerminalStays(s.db, s'.db, i);
  }

  /** Of any number of racing checks, exactly one is told it completed the batch, and only if the
      batch is in fact completed as exhausted. */
  lemma CompletionAppliesOnce(s: State, b: BatchId)
    requires Reachable(s) && b in s.db.batches
    ensures s.hist.completions[b] == if CheckedOut(s.db.batches[b]) then 1 else 0
  {
    CompletionInvReachable(s);
  }
}
