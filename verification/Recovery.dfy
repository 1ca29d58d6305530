/** What a crash can take away for good: when, from any state a run can be in, some continuation still
    brings a selected root to an attempt on record and a terminal state. */
module Recovery {
  import opened Collections
  import opened Tables
  import opened Protocol
  import opened Pipeline
  import opened Evolution
  import opened Fencing
  import opened Completion
  import opened WorkerClaims
  import opened Stages
  import B = ByteLedger
  import L = Ledger
  import R = Report

  // ----- reaching an end -----------------------------------------------------------------------------------

  ghost predicate Finished(db: Db, i: InstanceId)
  {
    i in db.instances && IsAttempted(db, i) && IsTerminal(db, i)
  }

  /** A claim on a source instance that names no classification run is not admitted against any batch. */
  predicate Unscoped(a: Action)
  {
    a.SelectInstance? && a.forRun.None?
  }

  predicate AllScoped(actions: seq<Action>)
  {
    forall k :: 0 <= k < |actions| ==> !Unscoped(actions[k])
  }

  /** Some continuation, if `scoped` one in which every new claim names its run, finishes the root. */
  ghost predicate CanFinish(s: State, i: InstanceId, scoped: bool)
  {
    exists actions: seq<Action> :: (scoped ==> AllScoped(actions)) && Finished(Run(s, actions).db, i)
  }

  lemma FinishedNow(s: State, i: InstanceId, scoped: bool)
    requires Finished(s.db, i)
    ensures CanFinish(s, i, scoped)
  {
    assert AllScoped([]) && Run(s, []) == s;
  }

  lemma OneStepEarlier(s: State, a: Action, i: InstanceId, scoped: bool)
    requires CanFinish(Do(s, a), i, scoped) && !Unscoped(a)
    ensures CanFinish(s, i, scoped)
  {
    var actions: seq<Action> :| (scoped ==> AllScoped(actions)) && Finished(Run(Do(s, a), actions).db, i);
    LaterStep(s, a);
    assert [a][..0] == [];
    assert Run(s, [a]) == Do(s, a);
    RunAppend(s, [a], actions);
    assert scoped ==> AllScoped([a] + actions);
  }

  lemma LaterFinishes(s: State, s': State, i: InstanceId)
    requires Later(s, s') && Finished(s'.db, i)
    ensures CanFinish(s, i, false)
  {
    var actions :| s' == Run(s, actions);
    assert Finished(Run(s, actions).db, i);
  }

  lemma ExhaustedFinishes(s: State, actions: seq<Action>, i: InstanceId, b: BatchId, scoped: bool)
    requires Reachable(s) && i in s.db.instances && !s.db.instances[i].member && (scoped ==> AllScoped(actions))
    requires b in s.db.batches && s.db.batches[b].run == s.db.instances[i].run
    ensures var db' := Run(s, actions).db;
            b in db'.batches && (db'.batches[b].stopReason == Some(SourceWorkExhausted) ==> CanFinish(s, i, scoped))
  {
    var s' := Run(s, actions);
    LaterEvolves(s, s');
    CompletionInvReachable(s');
    assert BatchMoved(s.db.batches[b], s'.db.batches[b]) && InstanceMoved(s.db.instances[i], s'.db.instances[i]);
    assert BatchOk(s'.db, b);
    if s'.db.batches[b].stopReason == Some(SourceWorkExhausted) {
      assert i in Roots(s'.db, s'.db.batches[b].run);
      assert Finished(Run(s, actions).db, i);
    }
  }

  /** A root that nothing can finish any more keeps its batch from ever being completed as exhausted. */
  lemma BlockedRootBlocksBatch(s: State, actions: seq<Action>, i: InstanceId, b: BatchId, scoped: bool)
    requires Reachable(s) && i in s.db.instances && !s.db.instances[i].member && (scoped ==> AllScoped(actions))
    requires b in s.db.batches && s.db.batches[b].run == s.db.instances[i].run && !CanFinish(s, i, scoped)
    ensures var db' := Run(s, actions).db; b in db'.batches && db'.batches[b].stopReason != Some(SourceWorkExhausted)
  {
    ExhaustedFinishes(s, actions, i, b, scoped);
  }

  // ----- which calls work on which rows ---------------------------------------------------------------------

  predicate IdentityPc(pc: InstancePc)
  {
    pc.Reading? || pc.Identified? || pc.Assigned?
  }

  predicate ArchivePc(pc: InstancePc)
  {
    pc.Admitting? || pc.Walking? || pc.WalkFailed? || pc.Discharged? || pc.Walked? || pc.Reconciled?
  }

  predicate KindOk(db: Db, w: Worker)
    requires w.OnInstance?
  {
    w.inst in db.instances ==>
      (IdentityPc(w.ipc) ==> !db.instances[w.inst].archiveSuffix) && (ArchivePc(w.ipc) ==> db.instances[w.inst].archiveSuffix) &&
      (w.ipc.Assigned? ==> db.instances[w.inst].group.Some?)
  }

  /** Archives are worked on by archive calls only and never get a group of their own, and a run has one
      batch at most. */
  ghost predicate KindInv(s: State)
  {
    (forall t :: t in s.workers && s.workers[t].OnInstance? ==> KindOk(s.db, s.workers[t])) &&
    (forall i :: i in s.db.instances && !s.db.instances[i].member && s.db.instances[i].archiveSuffix ==>
       s.db.instances[i].group.None?) &&
    RunsApart(s.db.batches)
  }

  /** Where a call on an instance can have come from. */
  predicate Advanced(s: State, t: Token, w: Worker)
    requires w.OnInstance?
  {
    t in s.workers &&
    match s.workers[t]
    case OnInstance(i, gen, run, queue, pc) =>
      i == w.inst && run == w.run && (IdentityPc(w.ipc) ==> IdentityPc(pc)) && (ArchivePc(w.ipc) ==> ArchivePc(pc))
    case Selecting(i, _, queue, run, _) =>
      i == w.inst && run == w.run && w.ipc == if queue.IdentityQueue? then Reading else Admitting
    case _ => false
  }

  ghost predicate CallsAdvance(s: State, s': State)
  {
    forall t :: t in s'.workers && s'.workers[t].OnInstance? ==> Advanced(s, t, s'.workers[t])
  }

  lemma InstanceAdvances(s: State, t: Token, a: InstanceAction)
    requires AtInstance(s, t)
    ensures CallsAdvance(s, DoInstance(s, t, a))
  {}

  lemma ArchiveAdvances(s: State, t: Token, a: ArchiveAction)
    requires AtInstance(s, t)
    ensures CallsAdvance(s, DoArchive(s, t, a))
  {}

  lemma GroupAdvances(s: State, t: Token, a: GroupAction)
    requires AtGroup(s, t)
    ensures CallsAdvance(s, DoGroup(s, t, a))
  {
    forall u | u in DoGroup(s, t, a).workers && DoGroup(s, t, a).workers[u].OnInstance? ensures Advanced(s, u, DoGroup(s, t, a).workers[u]) {
      GroupStepKeepsRows(s, t, a);
    }
  }

  lemma EnvironmentAdvances(s: State, a: EnvironmentAction)
    ensures CallsAdvance(s, DoEnvironment(s, a))
  {}

  lemma CallsDoAdvance(s: State, a: Action)
    ensures CallsAdvance(s, Do(s, a))
  {
    match a
    case Environment(env) => EnvironmentAdvances(s, env);
    case InstanceStep(t, ia) => if AtInstance(s, t) { InstanceAdvances(s, t, ia); }
    case ArchiveStep(t, aa) => if AtInstance(s, t) { ArchiveAdvances(s, t, aa); }
    case GroupStep(t, ga) => if AtGroup(s, t) { GroupAdvances(s, t, ga); }
    case _ =>
  }

  /** A root gets a group only from an identity call on it. */
  ghost predicate MayAssign(s: State, s': State, i: InstanceId)
    requires i in s'.db.instances
  {
    s'.db.instances[i].group.None? || s'.db.instances[i].member ||
    (i in s.db.instances && s.db.instances[i].group == s'.db.instances[i].group) ||
    exists t :: OnIdentity(s, t, i)
  }

  ghost predicate OnlyCallsAssign(s: State, s': State)
  {
    forall i :: i in s'.db.instances ==> MayAssign(s, s', i)
  }

  lemma InstanceAssigns(s: State, t: Token, a: InstanceAction)
    requires AtInstance(s, t)
    ensures OnlyCallsAssign(s, DoInstance(s, t, a))
  {
    if s.workers[t].ipc.Identified? { assert OnIdentity(s, t, s.workers[t].inst); }
  }

  lemma ArchiveAssigns(s: State, t: Token, a: ArchiveAction)
    requires AtInstance(s, t)
    ensures OnlyCallsAssign(s, DoArchive(s, t, a))
  {}

  lemma GroupAssigns(s: State, t: Token, a: GroupAction)
    requires AtGroup(s, t)
    ensures OnlyCallsAssign(s, DoGroup(s, t, a))
  {
    GroupStepKeepsRows(s, t, a);
  }

  lemma EnvironmentAssigns(s: State, a: EnvironmentAction)
    ensures OnlyCallsAssign(s, DoEnvironment(s, a))
  {}

  lemma OnlyCallsDoAssign(s: State, a: Action)
    ensures OnlyCallsAssign(s, Do(s, a))
  {
    match a
    case Environment(env) => EnvironmentAssigns(s, env);
    case InstanceStep(t, ia) => if AtInstance(s, t) { InstanceAssigns(s, t, ia); }
    case ArchiveStep(t, aa) => if AtInstance(s, t) { ArchiveAssigns(s, t, aa); }
    case GroupStep(t, ga) => if AtGroup(s, t) { GroupAssigns(s, t, ga); }
    case _ =>
  }

  ghost predicate RunsApart(batches: map<BatchId, Batch>)
  {
    forall b, c :: b in batches && c in batches && batches[b].run == batches[c].run ==> b == c
  }

  /** No action gives a second batch to a run. */
  lemma RunsStayApart(s: State, a: Action)
    requires Inv(s) && KindInv(s)
    ensures RunsApart(Do(s, a).db.batches)
  {
    ActionEvolves(s, a);
    var s' := Do(s, a);
    forall b | b in s.db.batches ensures b in s'.db.batches && s'.db.batches[b].run == s.db.batches[b].run {
      assert BatchMoved(s.db.batches[b], s'.db.batches[b]);
    }
    forall b | b in s'.db.batches && b !in s.db.batches ensures a.Environment? && a.env.CreateBatch? && b == a.env.b {
      NewBatchIsCreated(s, a, b);
    }
  }

  lemma NewBatchIsCreated(s: State, a: Action, b: BatchId)
    requires b in Do(s, a).db.batches && b !in s.db.batches
    ensures a.Environment? && a.env.CreateBatch? && b == a.env.b
  {
    match a
    case Environment(env) =>
    case InstanceStep(t, ia) =>
    case ArchiveStep(t, aa) => if AtInstance(s, t) { ArchiveKeepsBatches(s, t, aa); }
    case GroupStep(t, ga) => if AtGroup(s, t) { GroupKeepsBatches(s, t, ga); }
    case CheckStep(t, ca) =>
    case _ =>
  }

  lemma ArchiveKeepsBatches(s: State, t: Token, a: ArchiveAction)
    requires AtInstance(s, t)
    ensures DoArchive(s, t, a).db.batches.Keys == s.db.batches.Keys
  {}

  lemma GroupKeepsBatches(s: State, t: Token, a: GroupAction)
    requires AtGroup(s, t)
    ensures DoGroup(s, t, a).db.batches.Keys == s.db.batches.Keys
  {}

  predicate OnIdentity(s: State, t: Token, i: InstanceId)
  {
    t in s.workers && s.workers[t].OnInstance? && s.workers[t].inst == i && IdentityPc(s.workers[t].ipc)
  }

  predicate OnArchive(s: State, t: Token, i: InstanceId)
  {
    t in s.workers && s.workers[t].OnInstance? && s.workers[t].inst == i && ArchivePc(s.workers[t].ipc)
  }

  lemma ArchivesHaveNoIdentityCall(s: State, i: InstanceId)
    requires KindInv(s) && i in s.db.instances
    ensures s.db.instances[i].archiveSuffix ==> forall t :: !OnIdentity(s, t, i)
    ensures !s.db.instances[i].archiveSuffix ==> forall t :: !OnArchive(s, t, i)
  {
    forall t | OnIdentity(s, t, i) || OnArchive(s, t, i) ensures KindOk(s.db, s.workers[t]) {}
  }

  lemma CallsOnRows(s: State)
    requires InstanceInv(s)
    ensures forall t :: t in s.workers && s.workers[t].OnInstance? ==> s.workers[t].inst in s.db.instances
  {
    forall t | t in s.workers && s.workers[t].OnInstance? ensures InstanceCallOk(s.db, s.workers[t]) {}
  }

  lemma AssigningHasGroup(s: State, a: Action, t: Token)
    requires AtInstance(Do(s, a), t) && Do(s, a).workers[t].ipc.Assigned? && Do(s, a).workers[t].inst in Do(s, a).db.instances
    ensures (AtInstance(s, t) && s.workers[t].ipc.Assigned?) ||
            Do(s, a).db.instances[Do(s, a).workers[t].inst].group.Some?
  {
    match a
    case Environment(env) =>
    case InstanceStep(u, ia) =>
    case ArchiveStep(u, aa) => if AtInstance(s, u) { ArchiveAdvances(s, u, aa); }
    case GroupStep(u, ga) => if AtGroup(s, u) { GroupStepKeepsRows(s, u, ga); }
    case CheckStep(u, ca) =>
    case _ =>
  }

  lemma KindKept(s: State, a: Action)
    requires Inv(s) && InstanceInv(s) && KindInv(s)
    ensures KindInv(Do(s, a))
  {
    var s' := Do(s, a);
    ActionEvolves(s, a);
    CallsDoAdvance(s, a);
    OnlyCallsDoAssign(s, a);
    RunsStayApart(s, a);
    forall t | t in s'.workers && s'.workers[t].OnInstance? ensures KindOk(s'.db, s'.workers[t]) {
      assert Advanced(s, t, s'.workers[t]);
      if s.workers[t].Selecting? {
        assert SelectingOk(s.db, t, s.workers[t]);
      } else {
        assert KindOk(s.db, s.workers[t]) && InstanceCallOk(s.db, s.workers[t]);
      }
      assert InstanceMoved(s.db.instances[s.workers[t].inst], s'.db.instances[s.workers[t].inst]);
      if s'.workers[t].ipc.Assigned? { AssigningHasGroup(s, a, t); }
    }
    forall i | i in s'.db.instances && !s'.db.instances[i].member && s'.db.instances[i].archiveSuffix
      ensures s'.db.instances[i].group.None?
    {
      assert MayAssign(s, s', i);
      if i in s.db.instances {
        assert InstanceMoved(s.db.instances[i], s'.db.instances[i]);
        ArchivesHaveNoIdentityCall(s, i);
      } else {
        CallsOnRows(s);
      }
    }
  }

  lemma {:induction false} KindRuns(s: State, actions: seq<Action>)
    requires Inv(s) && InstanceInv(s) && KindInv(s)
    ensures Inv(Run(s, actions)) && InstanceInv(Run(s, actions)) && KindInv(Run(s, actions))
    decreases |actions|
  {
    if actions != [] {
      var before := actions[..|actions| - 1];
      KindRuns(s, before);
      InvKept(Run(s, before), actions[|actions| - 1]);
      InstanceInvKept(Run(s, before), actions[|actions| - 1]);
      KindKept(Run(s, before), actions[|actions| - 1]);
    }
  }

  lemma KindReachable(s: State)
    requires Reachable(s)
    ensures Inv(s) && InstanceInv(s) && KindInv(s)
  {
    var actions :| s == Run(EMPTY, actions);
    KindRuns(EMPTY, actions);
  }

  // ----- attempts ---------------------------------------------------------------------------------------------

  /** Which attempts an action can add. */
  predicate AddsOnlyTo(s: State, s': State, subjects: set<Subject>)
  {
    s.db.attempts <= s'.db.attempts && forall a :: a in s'.db.attempts && a !in s.db.attempts ==> a.subject in subjects
  }

  lemma GroupAdds(s: State, t: Token, a: GroupAction)
    requires AtGroup(s, t)
    ensures AddsOnlyTo(s, DoGroup(s, t, a), {OfGroup(s.workers[t].group)})
  {}

  /** Which attempt on its root a call records next, if the step is one that records. */
  function Records(pc: InstancePc): set<Outcome>
  {
    match pc
    case Reading => {FailedRetryable}
    case Assigned => {Succeeded}
    case Reconciled => {Succeeded}
    case Discharged => {FailedRetryable, FailedDurable}
    case _ => {}
  }

  predicate RecordsOnly(s: State, s': State, t: Token)
    requires t in s.workers && s.workers[t].OnInstance?
  {
    s.db.attempts <= s'.db.attempts &&
    forall a :: a in s'.db.attempts && a !in s.db.attempts ==>
      a.subject == OfInstance(s.workers[t].inst) && a.outcome in Records(s.workers[t].ipc)
  }

  lemma InstanceRecords(s: State, t: Token, a: InstanceAction)
    requires AtInstance(s, t)
    ensures RecordsOnly(s, DoInstance(s, t, a), t)
  {}

  lemma ArchiveRecords(s: State, t: Token, a: ArchiveAction)
    requires AtInstance(s, t)
    ensures RecordsOnly(s, DoArchive(s, t, a), t)
  {}

  /** A call on the row that may record this outcome next. */
  predicate WillRecord(s: State, t: Token, i: InstanceId, outcome: Outcome)
  {
    t in s.workers && s.workers[t].OnInstance? && s.workers[t].inst == i && outcome in Records(s.workers[t].ipc)
  }

  lemma NewAttempt(s: State, a: Action, i: InstanceId, outcome: Outcome)
    requires Attempt(OfInstance(i), outcome) in Do(s, a).db.attempts
    ensures Attempt(OfInstance(i), outcome) in s.db.attempts || exists t :: WillRecord(s, t, i, outcome)
  {
    match a
    case Environment(env) =>
    case InstanceStep(t, ia) =>
      if AtInstance(s, t) {
        InstanceRecords(s, t, ia);
        assert Attempt(OfInstance(i), outcome) !in s.db.attempts ==> WillRecord(s, t, i, outcome);
      }
    case ArchiveStep(t, aa) =>
      if AtInstance(s, t) {
        ArchiveRecords(s, t, aa);
        assert Attempt(OfInstance(i), outcome) !in s.db.attempts ==> WillRecord(s, t, i, outcome);
      }
    case GroupStep(t, ga) => if AtGroup(s, t) { GroupAdds(s, t, ga); }
    case CheckStep(t, ca) =>
    case _ =>
  }

  // ----- roots with an identity -------------------------------------------------------------------------------

  /** The root has its identity, and nothing that could still finish it is left: an archive-category root
      has no attempt that settles it and no call that is about to record one; a loose one is in an
      excluded or unsupported group without any attempt, its own or the group's, and no call on the row
      is about to record one. Nobody can claim an assigned row again, nor such a group. */
  ghost predicate AssignedStuck(s: State, i: InstanceId)
  {
    i in s.db.instances && !s.db.instances[i].member && s.db.instances[i].group.Some? &&
    if s.db.instances[i].archiveCategory then
      Attempt(OfInstance(i), Succeeded) !in s.db.attempts && Attempt(OfInstance(i), FailedDurable) !in s.db.attempts &&
      forall t :: !WillRecord(s, t, i, Succeeded)
    else
      Passed(s.db, s.db.instances[i].group.value) && !Tried(s.db, OfInstance(i)) &&
      forall t, outcome :: !WillRecord(s, t, i, outcome)
  }

  /** The group was excluded or unsupported on sight, and there is no attempt on it. */
  predicate Passed(db: Db, g: GroupId)
  {
    g in db.groups && db.groups[g].state in {Excluded, Unsupported} && !Tried(db, OfGroup(g))
  }

  lemma StuckIsUnfinished(s: State, i: InstanceId)
    requires AssignedStuck(s, i)
    ensures !Finished(s.db, i)
  {}

  lemma PassedKeepsState(s: State, a: Action, g: GroupId)
    requires Inv(s) && Passed(s.db, g)
    ensures g in Do(s, a).db.groups && Do(s, a).db.groups[g].state == s.db.groups[g].state
  {
    ActionEvolves(s, a);
    assert GroupMoved(s.db.groups[g], Do(s, a).db.groups[g]);
  }

  lemma PassedStays(s: State, a: Action, g: GroupId)
    requires Inv(s) && Passed(s.db, g)
    ensures Passed(Do(s, a).db, g)
  {
    PassedKeepsState(s, a, g);
    assert GroupOk(s.db, g);
    match a
    case Environment(env) =>
    case InstanceStep(t, ia) => if AtInstance(s, t) { InstanceRecords(s, t, ia); }
    case ArchiveStep(t, aa) => if AtInstance(s, t) { ArchiveRecords(s, t, aa); }
    case GroupStep(t, ga) =>
      if AtGroup(s, t) {
        GroupAdds(s, t, ga);
        assert CallOk(s.db, s.workers[t]);
      }
    case CheckStep(t, ca) =>
    case _ =>
  }

  lemma SelectingIsUnassigned(s: State)
    requires InstanceInv(s)
    ensures forall t :: t in s.workers && s.workers[t].Selecting? ==>
              s.workers[t].inst in s.db.instances && s.db.instances[s.workers[t].inst].group.None?
  {
    forall t | t in s.workers && s.workers[t].Selecting? ensures SelectingOk(s.db, t, s.workers[t]) {}
  }

  /** On an assigned row no new call starts, and an assignment finds the row taken. */
  lemma NoNewRecorder(s: State, a: Action, i: InstanceId, t: Token, outcome: Outcome)
    requires Inv(s) && InstanceInv(s) && KindInv(s) && i in s.db.instances && s.db.instances[i].group.Some?
    requires !s.db.instances[i].member && WillRecord(Do(s, a), t, i, outcome)
    ensures WillRecord(s, t, i, outcome)
  {
    CallsDoAdvance(s, a);
    assert Advanced(s, t, Do(s, a).workers[t]);
    SelectingIsUnassigned(s);
    ArchivesHaveNoIdentityCall(s, i);
    assert !OnArchive(s, t, i);
    AssignedAdvances(s, a, i, t);
  }

  lemma AssignedAdvances(s: State, a: Action, i: InstanceId, t: Token)
    requires i in s.db.instances && s.db.instances[i].group.Some?
    requires AtInstance(s, t) && s.workers[t].inst == i && !OnArchive(s, t, i) && AtInstance(Do(s, a), t)
    ensures Do(s, a).workers[t].ipc == s.workers[t].ipc || Records(Do(s, a).workers[t].ipc) == {}
  {
    match a
    case Environment(env) =>
    case InstanceStep(u, ia) => if AtInstance(s, u) && u == t { OwnStepRecordsNothing(s, u, ia); }
    case ArchiveStep(u, aa) =>
    case GroupStep(u, ga) => if AtGroup(s, u) { GroupStepKeepsRows(s, u, ga); }
    case CheckStep(u, ca) =>
    case _ =>
  }

  lemma OwnStepRecordsNothing(s: State, t: Token, a: InstanceAction)
    requires AtInstance(s, t) && s.workers[t].inst in s.db.instances && s.db.instances[s.workers[t].inst].group.Some?
    requires AtInstance(DoInstance(s, t, a), t)
    ensures DoInstance(s, t, a).workers[t].ipc == s.workers[t].ipc || Records(DoInstance(s, t, a).workers[t].ipc) == {}
  {}

  lemma AssignedStuckStays(s: State, a: Action, i: InstanceId)
    requires Inv(s) && InstanceInv(s) && KindInv(s) && AssignedStuck(s, i)
    ensures AssignedStuck(Do(s, a), i)
  {
    var s' := Do(s, a);
    ActionEvolves(s, a);
    assert InstanceMoved(s.db.instances[i], s'.db.instances[i]);
    forall t, outcome | WillRecord(s', t, i, outcome) ensures WillRecord(s, t, i, outcome) {
      NoNewRecorder(s, a, i, t, outcome);
    }
    forall outcome | Attempt(OfInstance(i), outcome) in s'.db.attempts
      ensures Attempt(OfInstance(i), outcome) in s.db.attempts || exists t :: WillRecord(s, t, i, outcome)
    {
      NewAttempt(s, a, i, outcome);
    }
    if s.db.instances[i].archiveCategory {
      DurableNeedsArchiveCall(s, i);
    } else {
      PassedStays(s, a, s.db.instances[i].group.value);
    }
  }

  lemma DurableNeedsArchiveCall(s: State, i: InstanceId)
    requires KindInv(s) && i in s.db.instances && !s.db.instances[i].member && s.db.instances[i].group.Some?
    ensures forall t :: !WillRecord(s, t, i, FailedDurable)
  {
    ArchivesHaveNoIdentityCall(s, i);
    forall t ensures !WillRecord(s, t, i, FailedDurable) { assert !OnArchive(s, t, i); }
  }

  lemma {:induction false} AssignedStuckThroughout(s: State, actions: seq<Action>, i: InstanceId)
    requires Inv(s) && InstanceInv(s) && KindInv(s) && AssignedStuck(s, i)
    ensures AssignedStuck(Run(s, actions), i)
    decreases |actions|
  {
    if actions != [] {
      var before := actions[..|actions| - 1];
      AssignedStuckThroughout(s, before, i);
      KindRuns(s, before);
      AssignedStuckStays(Run(s, before), actions[|actions| - 1], i);
    }
  }

  // ----- finishing a group ------------------------------------------------------------------------------------

  lemma FreshToken(s: State) returns (t: Token)
    ensures t !in s.workers
  {
    if s.workers.Keys == {} {
      t := 0;
    } else {
      var last := LeastExists(s.workers.Keys, (u: Token) => 0 - u);
      t := last + 1;
    }
  }

  /** After a while the group can be claimed, whoever held it. */
  lemma Claimable(s: State, g: GroupId) returns (s': State)
    requires Reachable(s) && g in s.db.groups
    ensures Later(s, s') && Reachable(s') && s'.db == s.db && s'.workers == s.workers
    ensures FreeOrStale(s'.db.groups[g].claim, s'.now - 0)
  {
    var k := L.Wait(s, g, 0);
    s' := Run(s, L.Ticks(k));
    L.TicksOnlyMoveTime(s, k);
    LaterTransitive(EMPTY, s, s');
  }

  /** Everything but the batches is as it was. */
  predicate OnlyBatches(s: State, s': State)
  {
    s'.db.groups == s.db.groups && s'.db.docs == s.db.docs && s'.db.instances == s.db.instances &&
    s'.db.attempts == s.db.attempts && s'.workers == s.workers && s'.now == s.now
  }

  function RunningBatches(db: Db): set<BatchId>
  {
    set b | b in db.batches && db.batches[b].status == Running
  }

  /** An operator can pause everything. */
  lemma {:induction false} PauseAllRun(s: State) returns (s': State)
    requires Reachable(s)
    ensures Later(s, s') && Reachable(s') && OnlyBatches(s, s') && RunningBatches(s'.db) == {}
    decreases RunningBatches(s.db)
  {
    if RunningBatches(s.db) == {} {
      s' := s;
      assert s == Run(s, []);
    } else {
      var b :| b in RunningBatches(s.db);
      var pause := Environment(Control(b, BatchStatus.Paused, Some(ManualPause)));
      var next := Do(s, pause);
      ReachableStep(s, pause);
      LaterStep(s, pause);
      assert RunningBatches(next.db) == RunningBatches(s.db) - {b};
      s' := PauseAllRun(next);
      LaterTransitive(s, next, s');
    }
  }

  /** The group has come to an end and an attempt on it is on record; no root was touched. */
  predicate GroupEnded(s: State, s': State, g: GroupId)
  {
    s'.db.instances == s.db.instances && g in s'.db.groups && s'.db.groups[g].state in {Ingested, Failed} &&
    Tried(s'.db, OfGroup(g))
  }

  lemma EndFromChunked(s: State, g: GroupId) returns (end: State)
    requires Reachable(s) && g in s.db.groups && s.db.groups[g].state in {Chunked, Embedded}
    ensures Later(s, end) && GroupEnded(s, end, g)
  {
    var paused := PauseAllRun(s);
    var ready := Claimable(paused, g);
    var t := FreshToken(ready);
    forall c | c in ready.db.batches ensures ready.db.batches[c].status != Running {
      assert c !in RunningBatches(ready.db);
    }
    assert Resolves(Granted(ready.db, g, 0, ready.now), g, None);
    end := EmbedIsARun(ready, t, g, 0, 0, None, false, None);
    LaterTransitive(s, paused, ready);
    LaterTransitive(s, ready, end);
  }

  lemma EndFromNormalized(s: State, g: GroupId) returns (end: State)
    requires Reachable(s) && g in s.db.groups && s.db.groups[g].state == Normalized
    ensures Later(s, end) && GroupEnded(s, end, g)
  {
    var ready := Claimable(s, g);
    var t := FreshToken(ready);
    var chunked := ChunkIsARun(ready, t, g, 0, 0, NoContent);
    LaterTransitive(s, ready, chunked);
    end := chunked;
    if g in s.db.docs && s.db.docs[g] != [] {
      LaterTransitive(EMPTY, s, chunked);
      end := EndFromChunked(chunked, g);
      LaterTransitive(s, chunked, end);
    }
  }

  lemma EndFromExtracted(s: State, g: GroupId) returns (end: State)
    requires Reachable(s) && g in s.db.groups && s.db.groups[g].state == Extracted
    ensures Later(s, end) && GroupEnded(s, end, g)
  {
    var ready := Claimable(s, g);
    var t := FreshToken(ready);
    end := NormalizeIsARun(ready, t, g, 0, 0, NoContent);
    LaterTransitive(s, ready, end);
  }

  /** Wherever a group is in the pipeline, some continuation brings it to an end. */
  lemma GroupCanEnd(s: State, g: GroupId) returns (end: State)
    requires Reachable(s) && g in s.db.groups && s.db.groups[g].state in {Extracted, Normalized, Chunked, Embedded}
    ensures Later(s, end) && GroupEnded(s, end, g)
  {
    if s.db.groups[g].state == Extracted {
      end := EndFromExtracted(s, g);
    } else if s.db.groups[g].state == Normalized {
      end := EndFromNormalized(s, g);
    } else {
      end := EndFromChunked(s, g);
    }
  }

  // ----- when an assigned root can still finish ------------------------------------------------------------------

  /** The call about to record its attempt does so. */
  lemma RecorderFinishes(s: State, t: Token, i: InstanceId, outcome: Outcome)
    requires i in s.db.instances && WillRecord(s, t, i, outcome) && !OnArchive(s, t, i)
    requires IsTerminal(s.db, i) || (s.db.instances[i].archiveCategory && outcome == Succeeded)
    ensures CanFinish(s, i, true)
  {
    var a := InstanceStep(t, if s.workers[t].ipc.Reading? then ReadFails else RecordIdentity);
    var s' := Do(s, a);
    assert s' == if s.workers[t].ipc.Reading? then DoReadFails(s, t) else DoRecordIdentity(s, t);
    FinishedNow(s', i, true);
    OneStepEarlier(s, a, i, true);
  }

  lemma ScopedIsEnough(s: State, i: InstanceId)
    requires CanFinish(s, i, true)
    ensures CanFinish(s, i, false)
  {
    var actions: seq<Action> :| AllScoped(actions) && Finished(Run(s, actions).db, i);
    assert Finished(Run(s, actions).db, i);
  }

  lemma CategoryCanFinish(s: State, i: InstanceId)
    requires Reachable(s) && i in s.db.instances && !s.db.instances[i].member && s.db.instances[i].group.Some?
    requires !AssignedStuck(s, i) && s.db.instances[i].archiveCategory
    ensures CanFinish(s, i, false)
  {
    KindReachable(s);
    if t :| WillRecord(s, t, i, Succeeded) {
      ArchivesHaveNoIdentityCall(s, i);
      assert !OnArchive(s, t, i);
      RecorderFinishes(s, t, i, Succeeded);
      ScopedIsEnough(s, i);
    } else {
      FinishedNow(s, i, false);
    }
  }

  lemma LooseCanFinish(s: State, i: InstanceId)
    requires Reachable(s) && i in s.db.instances && !s.db.instances[i].member && s.db.instances[i].group.Some?
    requires !AssignedStuck(s, i) && !s.db.instances[i].archiveCategory
    ensures CanFinish(s, i, false)
  {
    KindReachable(s);
    var g := s.db.instances[i].group.value;
    assert InstanceOk(s, i) && GroupOk(s.db, g);
    if s.db.groups[g].state in {Extracted, Normalized, Chunked, Embedded} {
      var end := GroupCanEnd(s, g);
      LaterFinishes(s, end, i);
    } else if t, outcome :| WillRecord(s, t, i, outcome) {
      ArchivesHaveNoIdentityCall(s, i);
      assert !OnArchive(s, t, i);
      RecorderFinishes(s, t, i, outcome);
      ScopedIsEnough(s, i);
    } else {
      FinishedNow(s, i, false);
    }
  }

  /** At any moment of any interleaving a root with an identity can still be brought to an attempt on
      record and a terminal state exactly if it is not stuck. */
  lemma AssignedRootFinishesExactly(s: State, i: InstanceId)
    requires Reachable(s) && i in s.db.instances && !s.db.instances[i].member && s.db.instances[i].group.Some?
    ensures CanFinish(s, i, false) <==> !AssignedStuck(s, i)
  {
    if AssignedStuck(s, i) {
      KindReachable(s);
      forall actions: seq<Action> ensures !Finished(Run(s, actions).db, i) {
        AssignedStuckThroughout(s, actions, i);
        StuckIsUnfinished(Run(s, actions), i);
      }
    } else if s.db.instances[i].archiveCategory {
      CategoryCanFinish(s, i);
    } else {
      LooseCanFinish(s, i);
    }
  }

  /** The call is between the identity commit and the attempt commit, and a crash of it takes away the last
      chance of the root: no other call on the row is about to record an attempt, and neither the root nor
      its group will get one, nor has one, that would settle it. */
  ghost predicate LastChance(s: State, t: Token, i: InstanceId)
  {
    i in s.db.instances && s.db.instances[i].group.Some? &&
    if s.db.instances[i].archiveCategory then
      Attempt(OfInstance(i), Succeeded) !in s.db.attempts && Attempt(OfInstance(i), FailedDurable) !in s.db.attempts &&
      forall u :: u != t ==> !WillRecord(s, u, i, Succeeded)
    else
      Passed(s.db, s.db.instances[i].group.value) && !Tried(s.db, OfInstance(i)) &&
      forall u, outcome :: u != t ==> !WillRecord(s, u, i, outcome)
  }

  /** A crash between the identity commit and the attempt commit is harmless exactly if the call was not
      the root's last chance: for a loose root, if its group still has work to come or has been worked on,
      or another attempt on the root is on record or about to be. */
  lemma CrashInTheGapExactly(s: State, t: Token, i: InstanceId)
    requires Reachable(s) && AtInstance(s, t) && s.workers[t].inst == i && s.workers[t].ipc.Assigned?
    ensures CanFinish(DoCrash(s, t), i, false) <==> !LastChance(s, t, i)
  {
    KindReachable(s);
    assert KindOk(s.db, s.workers[t]) && InstanceCallOk(s.db, s.workers[t]);
    var crashed := DoCrash(s, t);
    assert crashed == Do(s, Environment(Crash(t)));
    ReachableStep(s, Environment(Crash(t)));
    AssignedRootFinishesExactly(crashed, i);
    forall u, outcome ensures WillRecord(crashed, u, i, outcome) <==> u != t && WillRecord(s, u, i, outcome) {}
  }

  /** Such a crash leaves the root's batch unable ever to complete as exhausted: no later sequence of
      claims, retries, reclaims and checks recovers it. */
  lemma CrashInTheGapBlocksForEver(s: State, after: seq<Action>, t: Token, i: InstanceId, b: BatchId)
    requires Reachable(s) && AtInstance(s, t) && s.workers[t].inst == i && s.workers[t].ipc.Assigned? && LastChance(s, t, i)
    requires b in s.db.batches && s.db.batches[b].run == s.db.instances[i].run
    ensures var db' := Run(DoCrash(s, t), after).db; b in db'.batches && db'.batches[b].stopReason != Some(SourceWorkExhausted)
  {
    KindReachable(s);
    assert InstanceCallOk(s.db, s.workers[t]);
    CrashInTheGapExactly(s, t, i);
    assert DoCrash(s, t) == Do(s, Environment(Crash(t)));
    ReachableStep(s, Environment(Crash(t)));
    BlockedRootBlocksBatch(DoCrash(s, t), after, i, b, false);
  }

  /** The last chance is reached by an ordinary claim of an ordinary root in a running batch. */
  lemma TheGapIsReachable() returns (s: State)
    ensures Reachable(s) && AtInstance(s, 3) && s.workers[3].inst == 0 && s.workers[3].ipc.Assigned? && LastChance(s, 3, 0)
    ensures 0 in s.db.batches && s.db.batches[0].run == s.db.instances[0].run
  {
    var s0 := R.RootIsClaimed();
    ReachableStep(s0, InstanceStep(3, Identify(4, Excluded, 0, 0)));
    var s1 := Do(s0, InstanceStep(3, Identify(4, Excluded, 0, 0)));
    assert s1 == DoIdentify(s0, 3, 4, Excluded, 0, 0);
    ReachableStep(s1, InstanceStep(3, InstanceAction.Assign));
    s := Do(s1, InstanceStep(3, InstanceAction.Assign));
    assert s == DoAssign(s1, 3);
  }
}
