/** What the batch report's own consistency check is worth. */
module Report {
  import opened Collections
  import opened Tables
  import opened Protocol
  import opened Pipeline
  import opened Evolution
  import opened Fencing
  import opened Completion

  // ----- one snapshot ------------------------------------------------------------------------------

  /** Assigned to a group that was excluded or unsupported on sight, with no attempt on record. */
  predicate IsUnlogged(db: Db, i: InstanceId)
    requires i in db.instances
  {
    LooseIn(db, i, {Excluded, Unsupported}) && !IsAttempted(db, i)
  }

  function Unlogged(db: Db, run: RunId): set<InstanceId>
  {
    set i | i in db.instances && i in Roots(db, run) && IsUnlogged(db, i)
  }

  function Unfinished(db: Db, run: RunId): set<InstanceId>
  {
    AttemptedRoots(db, run) - TerminalRoots(db, run)
  }

  ghost predicate GroupsOk(db: Db)
  {
    forall g :: g in db.groups ==> GroupOk(db, g)
  }

  lemma TerminalUnattemptedIsUnlogged(db: Db, run: RunId)
    requires GroupsOk(db)
    ensures TerminalRoots(db, run) - AttemptedRoots(db, run) == Unlogged(db, run)
  {
    forall i ensures i in TerminalRoots(db, run) - AttemptedRoots(db, run) <==> i in Unlogged(db, run) {
      if i in db.instances && LooseIn(db, i, TERMINAL) {
        assert GroupOk(db, db.instances[i].group.value);
      }
    }
  }

  lemma SplitCardinality<T>(a: set<T>, b: set<T>)
    ensures |a| == |a * b| + |a - b|
  {
    assert a == a * b + (a - b);
  }

  /** If every query of a report saw the same committed state, then the report raises exactly when the
      roots that are finished without an attempt on record outnumber the attempted unfinished ones. */
  lemma SnapshotRaisesExactly(s: State, b: BatchId)
    requires Reachable(s) && b in s.db.batches
    ensures var db, run := s.db, s.db.batches[b].run;
            var report := Deciding(db.batches[b].selected, |AttemptedRoots(db, run)|, |TerminalRoots(db, run)|,
                                   |LooseRootsIn(db, run, {Ingested})| + |DoneArchives(db, run)|);
            ReportRaises(report) <==> |Unlogged(db, run)| > |Unfinished(db, run)|
  {
    CompletionInvReachable(s);
    InvReachable(s);
    var db, run := s.db, s.db.batches[b].run;
    assert BatchOk(db, b);
    var attempted, terminal := AttemptedRoots(db, run), TerminalRoots(db, run);
    SubsetCardinality(attempted, Roots(db, run));
    TerminalUnattemptedIsUnlogged(db, run);
    SplitCardinality(attempted, terminal);
    SplitCardinality(terminal, attempted);
    assert attempted * terminal == terminal * attempted;
    SuccessfulAreTerminal(db, run);
  }

  lemma SuccessfulAreTerminal(db: Db, run: RunId)
    ensures |LooseRootsIn(db, run, {Ingested})| + |DoneArchives(db, run)| <= |TerminalRoots(db, run)|
  {
    TerminalCount(db, run);
    SubsetCardinality(LooseRootsIn(db, run, {Ingested}), LooseRootsIn(db, run, TERMINAL));
  }

  // ----- several snapshots ---------------------------------------------------------------------------

  const LOOSE := Pick(false, false, 0, 0)
  const BATCH := Batch(0, Running, None, 5, 0, None, 0, 1)
  const ROOT := NewRoot(0, LOOSE)

  /** One running batch with one loose root. */
  lemma OneRootRunning() returns (s: State)
    ensures Reachable(s)
    ensures s == EMPTY.(db := EMPTY.db.(batches := map[0 := BATCH], instances := map[0 := ROOT]))
  {
    assert Reachable(EMPTY) by { assert EMPTY == Run(EMPTY, []); }
    var create := Environment(CreateBatch(0, 0, map[0 := LOOSE], 5, None));
    ReachableStep(EMPTY, create);
    var s1 := Do(EMPTY, create);
    assert |map[0 := LOOSE].Keys| == 1;
    assert s1 == EMPTY.(db := EMPTY.db.(batches := map[0 := BATCH.(status := Planned)], instances := map[0 := ROOT]));
    ReachableStep(s1, Environment(Control(0, Running, None)));
    s := Do(s1, Environment(Control(0, Running, None)));
  }

  /** A check that has read that nothing was attempted yet. */
  lemma CheckHasStarted() returns (s: State)
    ensures Reachable(s)
    ensures s == EMPTY.(db := EMPTY.db.(batches := map[0 := BATCH], instances := map[0 := ROOT]),
                        workers := map[7 := Checking(0, CountLoose(1, 0))])
  {
    var s0 := OneRootRunning();
    ReachableStep(s0, StartCheck(7, 0));
    var s1 := Do(s0, StartCheck(7, 0));
    assert s1 == s0.(workers := map[7 := Checking(0, CountAttempted(1))]);
    ReachableStep(s1, CheckStep(7, ReadCount));
    s := Do(s1, CheckStep(7, ReadCount));
    assert AttemptedRoots(s1.db, 0) == {};
  }

  /** A worker claims that root. */
  lemma RootIsClaimed() returns (s: State)
    ensures Reachable(s) && s.workers == map[7 := Checking(0, CountLoose(1, 0)), 3 := OnInstance(0, 1, Some(0), IdentityQueue, Reading)]
    ensures s.db == EMPTY.db.(batches := map[0 := BATCH], instances := map[0 := ROOT.(claim := Some(Claim(1, 0)), gen := 1)])
  {
    var s0 := CheckHasStarted();
    var select := SelectInstance(3, 0, 1, IdentityQueue, Some(0), 10);
    assert RunIsRunning(s0.db, 0) by { assert 0 in s0.db.batches; }
    ReachableStep(s0, select);
    var s1 := Do(s0, select);
    assert s1.db == s0.db.(instances := map[0 := ROOT.(lock := Some(3))]);
    assert s1.workers == s0.workers[3 := Selecting(0, 1, IdentityQueue, Some(0), -10)];
    assert RunIsRunning(s1.db, 0) by { assert 0 in s1.db.batches; }
    ReachableStep(s1, GrantSelected(3));
    s := Do(s1, GrantSelected(3));
  }

  /** The worker resolves it, to unsupported content, before the check's second query. */
  lemma RootFinishesMeanwhile() returns (s: State)
    ensures Reachable(s) && s.workers.Keys == {3, 7} && s.workers[7] == Checking(0, CountLoose(1, 0))
    ensures s.db == Db(map[4 := Group(Unsupported, None, 0, None, 0, 0)], map[0 := BATCH],
                       map[0 := ROOT.(claim := Some(Claim(1, 0)), gen := 1, group := Some(4))],
                       {Attempt(OfInstance(0), Succeeded)}, map[])
  {
    var s0 := RootIsClaimed();
    ReachableStep(s0, InstanceStep(3, Identify(4, Unsupported, 0, 0)));
    var s1 := Do(s0, InstanceStep(3, Identify(4, Unsupported, 0, 0)));
    assert s1 == DoIdentify(s0, 3, 4, Unsupported, 0, 0);
    ReachableStep(s1, InstanceStep(3, Assign));
    var s2 := Do(s1, InstanceStep(3, Assign));
    assert s2 == DoAssign(s1, 3);
    ReachableStep(s2, InstanceStep(3, RecordIdentity));
    s := Do(s2, InstanceStep(3, RecordIdentity));
    assert s == DoRecordIdentity(s2, 3);
  }

  /** Because the report is several reads, it can raise although every committed state it read from
      was consistent: a root that finishes between the first and the second query is counted as
      terminal but not as attempted. */
  lemma ReportCanRaiseFalsely() returns (s: State)
    ensures Reachable(s) && 7 in s.workers && s.workers[7].Checking? && s.workers[7].cpc.Deciding?
    ensures ReportRaises(s.workers[7].cpc)
    ensures 0 in s.db.batches && |Unlogged(s.db, 0)| == 0 && AllAttempted(s.db, 0) && AllTerminal(s.db, 0)
  {
    var s0 := RootFinishesMeanwhile();
    assert Roots(s0.db, 0) == {0};
    assert LooseRootsIn(s0.db, 0, TERMINAL) == {0};
    ReachableStep(s0, CheckStep(7, ReadCount));
    var s1 := Do(s0, CheckStep(7, ReadCount));
    assert s1.workers[7].cpc == CountIngested(1, 0, 1);
    assert LooseRootsIn(s1.db, 0, {Ingested}) == {};
    ReachableStep(s1, CheckStep(7, ReadCount));
    var s2 := Do(s1, CheckStep(7, ReadCount));
    assert DoneArchives(s2.db, 0) == {} && DeadArchives(s2.db, 0) == {};
    ReachableStep(s2, CheckStep(7, ReadCount));
    var s3 := Do(s2, CheckStep(7, ReadCount));
    ReachableStep(s3, CheckStep(7, ReadCount));
    s := Do(s3, CheckStep(7, ReadCount));
    assert Unlogged(s.db, 0) == {};
  }

  // ----- when nothing moves between the queries ----------------------------------------------------------

  /** No attempt was recorded, and no root became attempted or terminal. */
  ghost predicate Still(db: Db, db': Db, run: RunId)
  {
    db'.attempts == db.attempts && AttemptedRoots(db', run) == AttemptedRoots(db, run) && TerminalRoots(db', run) == TerminalRoots(db, run)
  }

  /** What the counting queries of a check return in a state like `db`. */
  predicate ReadsOf(db: Db, run: RunId, pc: CheckPc)
  {
    var a, l, d, x := |AttemptedRoots(db, run)|, |LooseRootsIn(db, run, TERMINAL)|, |DoneArchives(db, run)|, |DeadArchives(db, run)|;
    match pc
    case CountAttempted(_) => true
    case CountLoose(_, attempted) => attempted == a
    case CountIngested(_, attempted, loose) => attempted == a && loose == l
    case CountArchives(_, attempted, loose, ingested) => attempted == a && loose == l && ingested <= l
    case CountFailed(_, attempted, loose, ingested, done) => attempted == a && loose == l && ingested <= l && done == d
    case Deciding(_, attempted, terminal, successful) => attempted == a && terminal == l + d + x && successful <= l + d
    case Completing => true
  }

  /** A pause in the middle of such a stretch finds the same sets as its two ends. */
  lemma StillInBetween(db: Db, mid: Db, db': Db, b: BatchId)
    requires Evolves(db, mid) && Evolves(mid, db') && b in db.batches && Still(db, db', db.batches[b].run)
    ensures var run := db.batches[b].run;
            Still(db, mid, run) && LooseRootsIn(mid, run, TERMINAL) == LooseRootsIn(db, run, TERMINAL) &&
            DoneArchives(mid, run) == DoneArchives(db, run) && DeadArchives(mid, run) == DeadArchives(db, run)
  {
    var run := db.batches[b].run;
    assert BatchMoved(db.batches[b], mid.batches[b]);
    CountedSetsGrow(db, mid, b);
    CountedSetsGrow(mid, db', b);
    assert mid.attempts == db.attempts;
    RootsFixed(db, mid, b);
    KindsFixed(db, mid, run);
  }

  /** With the same attempts and the same roots the archives are where they were; with the same terminal
      roots so are the loose ones. */
  lemma KindsFixed(db: Db, mid: Db, run: RunId)
    requires Evolves(db, mid) && mid.attempts == db.attempts && Roots(mid, run) == Roots(db, run)
    requires TerminalRoots(mid, run) == TerminalRoots(db, run)
    ensures DoneArchives(mid, run) == DoneArchives(db, run) && DeadArchives(mid, run) == DeadArchives(db, run)
    ensures LooseRootsIn(mid, run, TERMINAL) == LooseRootsIn(db, run, TERMINAL)
  {
    forall i | i in Roots(db, run)
      ensures i in db.instances && i in mid.instances && InstanceMoved(db.instances[i], mid.instances[i])
      ensures LooseIn(mid, i, TERMINAL) <==> i in TerminalRoots(mid, run) && !mid.instances[i].archiveCategory
      ensures LooseIn(db, i, TERMINAL) <==> i in TerminalRoots(db, run) && !db.instances[i].archiveCategory
    {}
  }

  lemma NextReads(db: Db, run: RunId, pc: CheckPc)
    requires ReadsOf(db, run, pc)
    ensures ReadsOf(db, run, NextCount(db, run, pc))
  {
    SubsetCardinality(LooseRootsIn(db, run, {Ingested}), LooseRootsIn(db, run, TERMINAL));
  }

  lemma SameReads(db: Db, mid: Db, run: RunId, pc: CheckPc)
    requires Still(db, mid, run) && ReadsOf(db, run, pc)
    requires LooseRootsIn(mid, run, TERMINAL) == LooseRootsIn(db, run, TERMINAL)
    requires DoneArchives(mid, run) == DoneArchives(db, run) && DeadArchives(mid, run) == DeadArchives(db, run)
    ensures ReadsOf(mid, run, pc)
  {}

  /** The check on this batch under this token, if there is one, has read what it would read now. */
  predicate HasRead(s: State, t: Token, b: BatchId)
  {
    t in s.workers && s.workers[t].Checking? && s.workers[t].batch == b && b in s.db.batches ==>
      ReadsOf(s.db, s.db.batches[b].run, s.workers[t].cpc)
  }

  lemma CheckReads(s: State, t: Token, a: CheckAction, b: BatchId)
    requires HasRead(s, t, b) && AtCheck(s, t) && s.workers[t].batch == b
    ensures var s' := DoCheck(s, t, a);
            t in s'.workers && s'.workers[t].Checking? && s'.workers[t].batch == b ==>
              ReadsOf(s.db, s.db.batches[b].run, s'.workers[t].cpc)
  {
    if a.ReadCount? { NextReads(s.db, s.db.batches[b].run, s.workers[t].cpc); }
  }

  /** An action under way does not touch what other checks have read. */
  lemma StepReads(s: State, a: Action, t: Token, b: BatchId)
    requires HasRead(s, t, b) && b in s.db.batches
    ensures var s' := Do(s, a);
            t in s'.workers && s'.workers[t].Checking? && s'.workers[t].batch == b ==>
              ReadsOf(s.db, s.db.batches[b].run, s'.workers[t].cpc)
  {
    if a.CheckStep? {
      if AtCheck(s, a.t) && a.t == t && s.workers[t].batch == b { CheckReads(s, t, a.ca, b); }
    } else if !a.StartCheck? {
      OthersMoveNoCheck(s, a);
    }
  }

  lemma {:induction false} StillReads(s: State, actions: seq<Action>, t: Token, b: BatchId)
    requires Inv(s) && t !in s.workers && b in s.db.batches && Still(s.db, Run(s, actions).db, s.db.batches[b].run)
    ensures HasRead(Run(s, actions), t, b)
    decreases |actions|
  {
    if actions != [] {
      var before, run := actions[..|actions| - 1], s.db.batches[b].run;
      var mid, s' := Run(s, before), Run(s, actions);
      RunEvolves(s, before);
      ActionEvolves(mid, actions[|actions| - 1]);
      assert BatchMoved(s.db.batches[b], mid.db.batches[b]) && BatchMoved(mid.db.batches[b], s'.db.batches[b]);
      StillInBetween(s.db, mid.db, s'.db, b);
      StillReads(s, before, t, b);
      StepReads(mid, actions[|actions| - 1], t, b);
      EndReads(s, mid, s', t, b);
    }
  }

  lemma EndReads(s: State, mid: State, s': State, t: Token, b: BatchId)
    requires Evolves(s.db, mid.db) && Evolves(mid.db, s'.db) && b in s.db.batches && b in mid.db.batches
    requires mid.db.batches[b].run == s.db.batches[b].run && Still(s.db, s'.db, s.db.batches[b].run)
    requires t in s'.workers && s'.workers[t].Checking? && s'.workers[t].batch == b ==>
               ReadsOf(mid.db, mid.db.batches[b].run, s'.workers[t].cpc)
    ensures HasRead(s', t, b)
  {
    var run := s.db.batches[b].run;
    StillInBetween(s.db, mid.db, s'.db, b);
    assert BatchMoved(mid.db.batches[b], s'.db.batches[b]);
    assert Still(mid.db, s'.db, run);
    StillInBetween(mid.db, s'.db, s'.db, b) by { Unchanged(s'.db); }
    if t in s'.workers && s'.workers[t].Checking? && s'.workers[t].batch == b {
      SameReads(mid.db, s'.db, run, s'.workers[t].cpc);
    }
  }

  /** In any interleaving: a check that began after `s` and has come to its decision, with no attempt
      recorded and no root become attempted or terminal in the meantime, raises exactly if the roots that
      are finished without an attempt on record outnumber the attempted unfinished ones. */
  lemma QuietCheckRaisesExactly(s: State, actions: seq<Action>, t: Token, b: BatchId)
    requires Reachable(s) && t !in s.workers && b in s.db.batches && Still(s.db, Run(s, actions).db, s.db.batches[b].run)
    requires var s' := Run(s, actions);
             t in s'.workers && s'.workers[t].Checking? && s'.workers[t].batch == b && s'.workers[t].cpc.Deciding?
    ensures var s' := Run(s, actions);
            ReportRaises(s'.workers[t].cpc) <==>
            |Unlogged(s'.db, s.db.batches[b].run)| > |Unfinished(s'.db, s.db.batches[b].run)|
  {
    var s', run := Run(s, actions), s.db.batches[b].run;
    InvReachable(s);
    LaterEvolves(s, s');
    assert BatchMoved(s.db.batches[b], s'.db.batches[b]);
    StillReads(s, actions, t, b);
    CompletionInvReachable(s');
    assert CheckOk(s'.db, b, s'.workers[t].cpc) && BatchOk(s'.db, b);
    CountsDecide(s'.db, run);
    SubsetCardinality(AttemptedRoots(s'.db, run), Roots(s'.db, run));
  }

  lemma CountsDecide(db: Db, run: RunId)
    requires GroupsOk(db)
    ensures |TerminalRoots(db, run)| == |LooseRootsIn(db, run, TERMINAL)| + |DoneArchives(db, run)| + |DeadArchives(db, run)|
    ensures |TerminalRoots(db, run)| - |AttemptedRoots(db, run)| == |Unlogged(db, run)| - |Unfinished(db, run)|
  {
    var attempted, terminal := AttemptedRoots(db, run), TerminalRoots(db, run);
    TerminalCount(db, run);
    TerminalUnattemptedIsUnlogged(db, run);
    SplitCardinality(attempted, terminal);
    SplitCardinality(terminal, attempted);
    assert attempted * terminal == terminal * attempted;
  }
}
