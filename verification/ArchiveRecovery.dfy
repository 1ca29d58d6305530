/** The same question as in `Recovery` for archives: a crash in the middle of a walk leaves its estimate on
    the batch's byte counter, and every later attempt has to be admitted on top of it. */
module ArchiveRecovery {
  import opened Collections
  import opened Tables
  import opened Protocol
  import opened Pipeline
  import opened Evolution
  import opened Fencing
  import opened Recovery
  import B = ByteLedger

  // ----- what the byte counter can never go below again --------------------------------------------------

  /** What a call leaves on a batch's counter at least, however it goes on: a walk that has returned is
      either reconciled to what it measured or lost with its estimate, every other one can still be given
      back in full. */
  function Stake(w: Worker, b: BatchId): nat
  {
    if w.OnInstance? && w.ipc.Walked? && w.ipc.charge.Some? && w.ipc.charge.value.batch == b
    then Least(w.ipc.bytes, w.ipc.charge.value.amount) else 0
  }

  function StakeAt(workers: map<Token, Worker>, b: BatchId): Token -> int
  {
    t => if t in workers then Stake(workers[t], b) else 0
  }

  /** The lowest value the counter can still come down to. */
  ghost function Floor(s: State, b: BatchId): int
  {
    Tally(s.hist.measured, b) + Tally(s.hist.lost, b) + Sum(s.workers.Keys, StakeAt(s.workers, b))
  }

  lemma FloorBelowCounter(s: State, b: BatchId)
    requires Reachable(s) && b in s.db.batches
    ensures Floor(s, b) <= s.db.batches[b].extracted
  {
    B.ExtractedBytesLedger(s, b);
    SumMonotone(s.workers.Keys, StakeAt(s.workers, b), B.ChargedBy(s.workers, b));
  }

  predicate SameStake(workers: map<Token, Worker>, workers': map<Token, Worker>, b: BatchId, t: Token)
  {
    StakeAt(workers', b)(t) == StakeAt(workers, b)(t)
  }

  ghost predicate StakesSame(s: State, s': State, b: BatchId)
  {
    (forall t :: t in s.workers || t in s'.workers ==> SameStake(s.workers, s'.workers, b, t)) &&
    s'.hist.measured == s.hist.measured && s'.hist.lost == s.hist.lost
  }

  lemma SameStakesSameFloor(s: State, s': State, b: BatchId)
    requires StakesSame(s, s', b)
    ensures Floor(s', b) == Floor(s, b)
  {
    assert forall t :: t in s.workers || t in s'.workers ==> SameStake(s.workers, s'.workers, b, t);
    SumSameSupport(s.workers.Keys, s'.workers.Keys, StakeAt(s.workers, b), StakeAt(s'.workers, b));
  }

  function OnRecord(s: State, b: BatchId): nat
  {
    Tally(s.hist.measured, b) + Tally(s.hist.lost, b)
  }

  /** One call's step moves the floor by its own stake and what it puts on record. */
  lemma CallMovesFloor(s: State, s': State, t: Token, b: BatchId)
    requires t in s.workers && t in s'.workers && s'.workers == s.workers[t := s'.workers[t]]
    ensures Floor(s', b) - Floor(s, b) ==
            OnRecord(s', b) - OnRecord(s, b) + Stake(s'.workers[t], b) - Stake(s.workers[t], b)
  {
    assert s'.workers.Keys == s.workers.Keys;
    SumChange(s.workers.Keys, t, StakeAt(s.workers, b), StakeAt(s'.workers, b));
  }

  lemma EndMovesFloor(s: State, s': State, t: Token, b: BatchId)
    requires t in s.workers && s'.workers == s.workers - {t}
    ensures Floor(s', b) - Floor(s, b) == OnRecord(s', b) - OnRecord(s, b) - Stake(s.workers[t], b)
  {
    SumRemove(s.workers.Keys, t, StakeAt(s.workers, b));
    assert s'.workers.Keys == s.workers.Keys - {t};
    SumSame(s'.workers.Keys, StakeAt(s.workers, b), StakeAt(s'.workers, b));
  }

  lemma CrashFloor(s: State, t: Token, b: BatchId)
    requires AtInstance(s, t)
    ensures Floor(DoCrash(s, t), b) >= Floor(s, b)
    ensures Floor(DoCrash(s, t), b) == Floor(s, b) + B.Charged(B.ChargeOf(s.workers[t]), b) - Stake(s.workers[t], b)
  {
    EndMovesFloor(s, DoCrash(s, t), t, b);
  }

  lemma AbandonFloor(s: State, t: Token, b: BatchId)
    requires AtInstance(s, t)
    ensures Floor(DoAbandon(s, t), b) >= Floor(s, b)
  {
    CallMovesFloor(s, DoAbandon(s, t), t, b);
  }

  lemma EnvironmentFloor(s: State, a: EnvironmentAction, b: BatchId)
    ensures Floor(DoEnvironment(s, a), b) >= Floor(s, b)
  {
    if a.Crash? && AtInstance(s, a.lost) {
      CrashFloor(s, a.lost, b);
    } else {
      SameStakesSameFloor(s, DoEnvironment(s, a), b);
    }
  }

  lemma InstanceKeepsStakes(s: State, t: Token, a: InstanceAction, b: BatchId)
    requires AtInstance(s, t) && !a.Abandon?
    ensures StakesSame(s, DoInstance(s, t, a), b)
  {
    var s' := DoInstance(s, t, a);
    InstanceKeepsOwnStake(s, t, a, b);
    forall u | u != t && (u in s.workers || u in s'.workers) ensures SameStake(s.workers, s'.workers, b, u) {
      InstanceKeepsCall(s, t, a, u);
    }
  }

  lemma InstanceKeepsOwnStake(s: State, t: Token, a: InstanceAction, b: BatchId)
    requires AtInstance(s, t) && !a.Abandon?
    ensures SameStake(s.workers, DoInstance(s, t, a).workers, b, t)
    ensures DoInstance(s, t, a).hist.measured == s.hist.measured && DoInstance(s, t, a).hist.lost == s.hist.lost
  {}

  lemma InstanceKeepsCall(s: State, t: Token, a: InstanceAction, u: Token)
    requires AtInstance(s, t) && u != t
    ensures u in DoInstance(s, t, a).workers <==> u in s.workers
    ensures u in s.workers ==> DoInstance(s, t, a).workers[u] == s.workers[u]
  {}

  lemma SettlingFloor(s: State, t: Token, a: ArchiveAction, b: BatchId)
    requires AtInstance(s, t) && B.Settles(a)
    ensures Floor(DoArchive(s, t, a), b) >= Floor(s, b)
  {
    var s' := DoArchive(s, t, a);
    assert s.workers[t := s.workers[t]] == s.workers;
    CallMovesFloor(s, s', t, b);
  }

  lemma WalkingFloor(s: State, t: Token, a: ArchiveAction, b: BatchId)
    requires AtInstance(s, t) && !B.Settles(a)
    ensures Floor(DoArchive(s, t, a), b) >= Floor(s, b)
  {
    var s' := DoArchive(s, t, a);
    assert s.workers[t := s.workers[t]] == s.workers;
    B.ArchiveKeepsCounters(s, t, a);
    CallMovesFloor(s, s', t, b);
  }

  lemma GroupKeepsStakes(s: State, t: Token, a: GroupAction, b: BatchId)
    requires AtGroup(s, t)
    ensures StakesSame(s, DoGroup(s, t, a), b)
  {
    B.GroupKeepsCharges(s, t, a);
    var s' := DoGroup(s, t, a);
    GroupStepKeepsRows(s, t, a);
    forall u | u in s.workers || u in s'.workers ensures SameStake(s.workers, s'.workers, b, u) {
      if u in s.workers && s.workers[u].OnInstance? { GroupKeepsCall(s, t, a, u); }
    }
  }

  lemma GroupKeepsCall(s: State, t: Token, a: GroupAction, u: Token)
    requires AtGroup(s, t) && u in s.workers && s.workers[u].OnInstance?
    ensures u in DoGroup(s, t, a).workers && DoGroup(s, t, a).workers[u] == s.workers[u]
  {}

  lemma InstanceFloor(s: State, t: Token, a: InstanceAction, b: BatchId)
    requires AtInstance(s, t)
    ensures Floor(DoInstance(s, t, a), b) >= Floor(s, b)
  {
    if a.Abandon? {
      AbandonFloor(s, t, b);
    } else {
      InstanceKeepsStakes(s, t, a, b);
      SameStakesSameFloor(s, DoInstance(s, t, a), b);
    }
  }

  lemma ArchiveFloor(s: State, t: Token, a: ArchiveAction, b: BatchId)
    requires AtInstance(s, t)
    ensures Floor(DoArchive(s, t, a), b) >= Floor(s, b)
  {
    if B.Settles(a) { SettlingFloor(s, t, a, b); } else { WalkingFloor(s, t, a, b); }
  }

  lemma GroupFloor(s: State, t: Token, a: GroupAction, b: BatchId)
    requires AtGroup(s, t)
    ensures Floor(DoGroup(s, t, a), b) >= Floor(s, b)
  {
    GroupKeepsStakes(s, t, a, b);
    SameStakesSameFloor(s, DoGroup(s, t, a), b);
  }

  lemma SelectFloor(s: State, t: Token, i: InstanceId, who: WorkerId, queue: Queue, run: Option<RunId>, lease: nat, b: BatchId)
    ensures Floor(DoSelectInstance(s, t, i, who, queue, run, lease), b) == Floor(s, b)
  {
    SameStakesSameFloor(s, DoSelectInstance(s, t, i, who, queue, run, lease), b);
  }

  lemma GrantFloor(s: State, t: Token, b: BatchId)
    ensures Floor(DoGrantSelected(s, t), b) == Floor(s, b)
  {
    SameStakesSameFloor(s, DoGrantSelected(s, t), b);
  }

  lemma ClaimFloor(s: State, t: Token, g: GroupId, stage: Stage, who: WorkerId, lease: nat, b: BatchId)
    ensures Floor(DoClaimGroup(s, t, g, stage, who, lease), b) == Floor(s, b)
  {
    SameStakesSameFloor(s, DoClaimGroup(s, t, g, stage, who, lease), b);
  }

  lemma CheckFloor(s: State, t: Token, a: CheckAction, b: BatchId)
    requires AtCheck(s, t)
    ensures Floor(DoCheck(s, t, a), b) == Floor(s, b)
  {
    SameStakesSameFloor(s, DoCheck(s, t, a), b);
  }

  /** The floor only rises. */
  lemma FloorRises(s: State, a: Action, b: BatchId)
    ensures Floor(Do(s, a), b) >= Floor(s, b)
  {
    match a
    case Environment(env) => EnvironmentFloor(s, env, b);
    case InstanceStep(t, ia) => if AtInstance(s, t) { InstanceFloor(s, t, ia, b); }
    case ArchiveStep(t, aa) => if AtInstance(s, t) { ArchiveFloor(s, t, aa, b); }
    case GroupStep(t, ga) => if AtGroup(s, t) { GroupFloor(s, t, ga, b); }
    case SelectInstance(t, i, who, queue, run, lease) => SelectFloor(s, t, i, who, queue, run, lease, b);
    case GrantSelected(t) => GrantFloor(s, t, b);
    case ClaimGroup(t, g, stage, who, lease) => ClaimFloor(s, t, g, stage, who, lease, b);
    case StartCheck(t, c) => SameStakesSameFloor(s, DoStartCheck(s, t, c), b);
    case CheckStep(t, ca) => if AtCheck(s, t) { CheckFloor(s, t, ca, b); }
  }

  // ----- archives that are stuck --------------------------------------------------------------------------

  /** A call that can bring the archive to its end without being admitted first: it is past admission, or
      it has no run and so no batch to be admitted against. */
  predicate CanComplete(s: State, t: Token, i: InstanceId)
  {
    t in s.workers &&
    match s.workers[t]
    case OnInstance(j, _, run, _, pc) =>
      j == i && (pc.Walking? || pc.WalkFailed? || pc.Discharged? || pc.Walked? || pc.Reconciled? || (pc.Admitting? && run.None?))
    case Selecting(j, _, _, run, _) => j == i && run.None?
    case _ => false
  }

  predicate Settled(db: Db, i: InstanceId)
  {
    Attempt(OfInstance(i), Succeeded) in db.attempts || Attempt(OfInstance(i), FailedDurable) in db.attempts
  }

  /** The batch can never again admit this archive. */
  ghost predicate NoRoom(s: State, i: InstanceId, b: BatchId)
    requires i in s.db.instances && b in s.db.batches
  {
    Over(s.db.batches[b].status) ||
    (s.db.batches[b].maxExtracted.Some? &&
     Floor(s, b) + s.db.instances[i].declared > s.db.batches[b].maxExtracted.value)
  }

  predicate ArchiveRoot(db: Db, i: InstanceId, b: BatchId)
  {
    i in db.instances && !db.instances[i].member && db.instances[i].archiveSuffix &&
    b in db.batches && db.batches[b].run == db.instances[i].run
  }

  ghost predicate ArchiveStuck(s: State, i: InstanceId, b: BatchId)
  {
    ArchiveRoot(s.db, i, b) &&
    (!s.db.instances[i].archiveCategory ||
     (!Settled(s.db, i) && NoRoom(s, i, b) && forall t :: !CanComplete(s, t, i)))
  }

  lemma StuckArchiveIsUnfinished(s: State, i: InstanceId, b: BatchId)
    requires KindInv(s) && ArchiveStuck(s, i, b)
    ensures !Finished(s.db, i)
  {}

  lemma RootStays(s: State, a: Action, i: InstanceId, b: BatchId)
    requires Inv(s) && ArchiveRoot(s.db, i, b)
    ensures var db' := Do(s, a).db;
            ArchiveRoot(db', i, b) && InstanceMoved(s.db.instances[i], db'.instances[i]) && BatchMoved(s.db.batches[b], db'.batches[b])
  {
    ActionEvolves(s, a);
    assert InstanceMoved(s.db.instances[i], Do(s, a).db.instances[i]) && BatchMoved(s.db.batches[b], Do(s, a).db.batches[b]);
  }

  lemma NoRoomStays(s: State, a: Action, i: InstanceId, b: BatchId)
    requires Inv(s) && ArchiveRoot(s.db, i, b) && NoRoom(s, i, b)
    ensures ArchiveRoot(Do(s, a).db, i, b) && NoRoom(Do(s, a), i, b)
  {
    RootStays(s, a, i, b);
    FloorRises(s, a, b);
  }

  /** Without room an admission in the name of the run is refused. */
  lemma NoRoomRefuses(s: State, t: Token, i: InstanceId, b: BatchId, charged: Option<BatchId>, guarded: bool)
    requires Reachable(s) && KindInv(s) && InstanceInv(s) && ArchiveRoot(s.db, i, b) && NoRoom(s, i, b)
    requires AtInstance(s, t) && s.workers[t].inst == i && s.workers[t].ipc.Admitting? && s.workers[t].run.Some?
    ensures !CanComplete(DoAdmit(s, t, charged, guarded), t, i)
  {
    FloorBelowCounter(s, b);
    assert InstanceCallOk(s.db, s.workers[t]);
  }

  lemma OwnArchiveStep(s: State, t: Token, a: ArchiveAction, i: InstanceId, b: BatchId)
    requires Reachable(s) && KindInv(s) && InstanceInv(s) && ArchiveRoot(s.db, i, b) && NoRoom(s, i, b)
    requires AtInstance(s, t) && s.workers[t].inst == i && !CanComplete(s, t, i)
    ensures !CanComplete(DoArchive(s, t, a), t, i)
  {
    if a.Admit? && s.workers[t].ipc.Admitting? { NoRoomRefuses(s, t, i, b, a.charged, a.guarded); }
  }

  lemma OthersInstanceStep(s: State, u: Token, a: InstanceAction, t: Token, i: InstanceId)
    requires AtInstance(s, u) && CanComplete(DoInstance(s, u, a), t, i)
    ensures CanComplete(s, t, i)
  {}

  lemma OthersArchiveStep(s: State, u: Token, a: ArchiveAction, t: Token, i: InstanceId)
    requires AtInstance(s, u) && u != t && CanComplete(DoArchive(s, u, a), t, i)
    ensures CanComplete(s, t, i)
  {}

  lemma OthersGroupStep(s: State, u: Token, a: GroupAction, t: Token, i: InstanceId)
    requires AtGroup(s, u) && CanComplete(DoGroup(s, u, a), t, i)
    ensures CanComplete(s, t, i)
  {
    GroupStepKeepsRows(s, u, a);
  }

  lemma ArchiveStartsNoWalk(s: State, u: Token, a: ArchiveAction, i: InstanceId, b: BatchId, t: Token)
    requires Reachable(s) && KindInv(s) && InstanceInv(s) && ArchiveRoot(s.db, i, b) && NoRoom(s, i, b)
    requires AtInstance(s, u) && CanComplete(DoArchive(s, u, a), t, i)
    ensures CanComplete(s, t, i)
  {
    if u != t {
      OthersArchiveStep(s, u, a, t, i);
    } else {
      ArchiveAdvances(s, u, a);
      if !CanComplete(s, t, i) { OwnArchiveStep(s, t, a, i, b); }
    }
  }

  lemma EnvironmentStartsNoWalk(s: State, a: EnvironmentAction, t: Token, i: InstanceId)
    requires CanComplete(DoEnvironment(s, a), t, i)
    ensures CanComplete(s, t, i)
  {}

  lemma CheckStartsNoWalk(s: State, u: Token, a: CheckAction, t: Token, i: InstanceId)
    requires AtCheck(s, u) && CanComplete(DoCheck(s, u, a), t, i)
    ensures CanComplete(s, t, i)
  {}

  /** As long as every new claim names its run, no call gets into the archive again. */
  lemma NoNewWalk(s: State, a: Action, i: InstanceId, b: BatchId, t: Token)
    requires Reachable(s) && KindInv(s) && InstanceInv(s) && ArchiveRoot(s.db, i, b) && NoRoom(s, i, b) && !Unscoped(a)
    requires CanComplete(Do(s, a), t, i)
    ensures CanComplete(s, t, i)
  {
    match a
    case Environment(env) => EnvironmentStartsNoWalk(s, env, t, i);
    case InstanceStep(u, ia) => if AtInstance(s, u) { OthersInstanceStep(s, u, ia, t, i); }
    case ArchiveStep(u, aa) => if AtInstance(s, u) { ArchiveStartsNoWalk(s, u, aa, i, b, t); }
    case GroupStep(u, ga) => if AtGroup(s, u) { OthersGroupStep(s, u, ga, t, i); }
    case CheckStep(u, ca) => if AtCheck(s, u) { CheckStartsNoWalk(s, u, ca, t, i); }
    case _ =>
  }

  lemma SettlingNeedsCall(s: State, a: Action, i: InstanceId, b: BatchId)
    requires KindInv(s) && ArchiveRoot(s.db, i, b) && !Settled(s.db, i) && Settled(Do(s, a).db, i)
    ensures exists t :: CanComplete(s, t, i)
  {
    var outcome := if Attempt(OfInstance(i), Succeeded) in Do(s, a).db.attempts then Succeeded else FailedDurable;
    NewAttempt(s, a, i, outcome);
    var t :| WillRecord(s, t, i, outcome);
    ArchivesHaveNoIdentityCall(s, i);
    assert !OnIdentity(s, t, i);
    assert CanComplete(s, t, i);
  }

  lemma ArchiveStuckStays(s: State, a: Action, i: InstanceId, b: BatchId)
    requires Reachable(s) && Inv(s) && InstanceInv(s) && KindInv(s) && ArchiveStuck(s, i, b) && !Unscoped(a)
    ensures ArchiveStuck(Do(s, a), i, b)
  {
    RootStays(s, a, i, b);
    if s.db.instances[i].archiveCategory {
      NoRoomStays(s, a, i, b);
      forall t | CanComplete(Do(s, a), t, i) ensures CanComplete(s, t, i) { NoNewWalk(s, a, i, b, t); }
      if Settled(Do(s, a).db, i) { SettlingNeedsCall(s, a, i, b); }
    }
  }

  lemma {:induction false} ArchiveStuckThroughout(s: State, actions: seq<Action>, i: InstanceId, b: BatchId)
    requires Reachable(s) && ArchiveStuck(s, i, b) && AllScoped(actions)
    ensures Reachable(Run(s, actions)) && ArchiveStuck(Run(s, actions), i, b)
    decreases |actions|
  {
    if actions != [] {
      var before := actions[..|actions| - 1];
      ArchiveStuckThroughout(s, before, i, b);
      KindReachable(Run(s, before));
      ArchiveStuckStays(Run(s, before), actions[|actions| - 1], i, b);
      ReachableStep(Run(s, before), actions[|actions| - 1]);
    }
  }

  // ----- archives that can be finished ----------------------------------------------------------------------

  predicate WalksOn(s: State, t: Token, i: InstanceId)
  {
    AtInstance(s, t) && s.workers[t].inst == i && i in s.db.instances && s.db.instances[i].archiveCategory
  }

  lemma FinishReconciled(s: State, t: Token, i: InstanceId)
    requires WalksOn(s, t, i) && s.workers[t].ipc.Reconciled?
    ensures CanFinish(s, i, true)
  {
    var a := ArchiveStep(t, RecordArchive);
    assert Do(s, a) == DoRecordArchive(s, t);
    FinishedNow(Do(s, a), i, true);
    OneStepEarlier(s, a, i, true);
  }

  lemma FinishWalked(s: State, t: Token, i: InstanceId)
    requires WalksOn(s, t, i) && s.workers[t].ipc.Walked?
    ensures CanFinish(s, i, true)
  {
    var a := ArchiveStep(t, Reconcile);
    assert Do(s, a) == DoReconcile(s, t);
    FinishReconciled(Do(s, a), t, i);
    OneStepEarlier(s, a, i, true);
  }

  lemma FinishWalking(s: State, t: Token, i: InstanceId)
    requires WalksOn(s, t, i) && s.workers[t].ipc.Walking?
    ensures CanFinish(s, i, true)
  {
    var a := ArchiveStep(t, WalkReturns);
    assert Do(s, a) == DoWalkReturns(s, t);
    FinishWalked(Do(s, a), t, i);
    OneStepEarlier(s, a, i, true);
  }

  lemma FinishDischarged(s: State, t: Token, i: InstanceId)
    requires WalksOn(s, t, i) && s.workers[t].ipc.Discharged?
    ensures CanFinish(s, i, true)
  {
    var a := ArchiveStep(t, RecordArchiveFailure(false));
    assert Do(s, a) == DoRecordArchiveFailure(s, t, false);
    FinishedNow(Do(s, a), i, true);
    OneStepEarlier(s, a, i, true);
  }

  lemma FinishWalkFailed(s: State, t: Token, i: InstanceId)
    requires WalksOn(s, t, i) && s.workers[t].ipc.WalkFailed?
    ensures CanFinish(s, i, true)
  {
    var a := ArchiveStep(t, Discharge);
    assert Do(s, a) == DoDischarge(s, t);
    FinishDischarged(Do(s, a), t, i);
    OneStepEarlier(s, a, i, true);
  }

  /** An admitted call walks on to the end. */
  lemma FinishAdmitting(s: State, t: Token, i: InstanceId, charged: Option<BatchId>)
    requires WalksOn(s, t, i) && s.workers[t].ipc.Admitting?
    requires s.workers[t].run.None? ||
             (charged.Some? && charged.value in s.db.batches && s.db.batches[charged.value].run == s.workers[t].run.value &&
              Admits(s.db.batches[charged.value], s.db.instances[i].declared))
    ensures CanFinish(s, i, true)
  {
    var a := ArchiveStep(t, Admit(charged, false));
    assert Do(s, a) == DoAdmit(s, t, charged, false);
    FinishWalking(Do(s, a), t, i);
    OneStepEarlier(s, a, i, true);
  }

  lemma FinishUnscopedSelect(s: State, t: Token, i: InstanceId)
    requires InstanceInv(s) && i in s.db.instances && s.db.instances[i].archiveCategory && s.db.instances[i].archiveSuffix
    requires t in s.workers && s.workers[t].Selecting? && s.workers[t].inst == i && s.workers[t].run.None?
    ensures CanFinish(s, i, true)
  {
    assert SelectingOk(s.db, t, s.workers[t]);
    var a := GrantSelected(t);
    assert Do(s, a) == DoGrantSelected(s, t) && GrantApplies(s, t);
    FinishAdmitting(Do(s, a), t, i, None);
    OneStepEarlier(s, a, i, true);
  }

  lemma CallCompletes(s: State, t: Token, i: InstanceId)
    requires InstanceInv(s) && i in s.db.instances && s.db.instances[i].archiveCategory && s.db.instances[i].archiveSuffix
    requires CanComplete(s, t, i)
    ensures CanFinish(s, i, true)
  {
    if s.workers[t].Selecting? {
      FinishUnscopedSelect(s, t, i);
    } else if s.workers[t].ipc.Walking? {
      FinishWalking(s, t, i);
    } else if s.workers[t].ipc.WalkFailed? {
      FinishWalkFailed(s, t, i);
    } else if s.workers[t].ipc.Discharged? {
      FinishDischarged(s, t, i);
    } else if s.workers[t].ipc.Walked? {
      FinishWalked(s, t, i);
    } else if s.workers[t].ipc.Reconciled? {
      FinishReconciled(s, t, i);
    } else {
      FinishAdmitting(s, t, i, None);
    }
  }

  // ----- attempting the archive once more --------------------------------------------------------------------

  /** The archive can still be admitted: its batch is not over, and the estimate fits above the floor. */
  ghost predicate Retriable(s: State, i: InstanceId, b: BatchId)
  {
    Reachable(s) && ArchiveRoot(s.db, i, b) && s.db.instances[i].archiveCategory && !NoRoom(s, i, b) && !Settled(s.db, i)
  }

  lemma StillRetriable(s: State, a: Action, i: InstanceId, b: BatchId)
    requires Retriable(s, i, b) && Floor(Do(s, a), b) == Floor(s, b) && Do(s, a).db.attempts == s.db.attempts
    requires b in Do(s, a).db.batches ==> !Over(Do(s, a).db.batches[b].status)
    ensures Retriable(Do(s, a), i, b)
  {
    KindReachable(s);
    RootStays(s, a, i, b);
    ReachableStep(s, a);
  }

  /** Nobody holds the row, the batch is running, and there is room right now. */
  ghost predicate Idle(s: State, i: InstanceId, b: BatchId)
  {
    Retriable(s, i, b) && s.db.instances[i].lock.None? && s.db.batches[b].status == Running &&
    Admits(s.db.batches[b], s.db.instances[i].declared)
  }

  lemma SelectIdle(s: State, i: InstanceId, b: BatchId, t: Token)
    requires Idle(s, i, b) && FreeOrStale(s.db.instances[i].claim, s.now - 0) && t !in s.workers
    ensures var run := s.db.instances[i].run;
            Do(s, SelectInstance(t, i, 0, ArchiveQueue, Some(run), 0)) ==
            s.(db := s.db.(instances := s.db.instances[i := s.db.instances[i].(lock := Some(t))]),
               workers := s.workers[t := Selecting(i, 0, ArchiveQueue, Some(run), s.now - 0)])
  {
    KindReachable(s);
    assert RunIsRunning(s.db, s.db.instances[i].run);
  }

  lemma FinishIdle(s: State, i: InstanceId, b: BatchId)
    requires Idle(s, i, b) && FreeOrStale(s.db.instances[i].claim, s.now - 0)
    ensures CanFinish(s, i, true)
  {
    var t := FreshToken(s);
    var select := SelectInstance(t, i, 0, ArchiveQueue, Some(s.db.instances[i].run), 0);
    var locked := Do(s, select);
    SelectIdle(s, i, b, t);
    assert RunIsRunning(locked.db, s.db.instances[i].run);
    var held := Do(locked, GrantSelected(t));
    assert held == DoGrantSelected(locked, t) && GrantApplies(locked, t);
    FinishAdmitting(held, t, i, Some(b));
    OneStepEarlier(locked, GrantSelected(t), i, true);
    OneStepEarlier(s, select, i, true);
  }

  function LeftOfLease(s: State, i: InstanceId): nat
    requires i in s.db.instances
  {
    match s.db.instances[i].claim
    case None => 0
    case Some(c) => if c.at < s.now then 0 else c.at - s.now + 1
  }

  /** Whoever claimed the row loses it in time. */
  lemma {:induction false} FinishClaimed(s: State, i: InstanceId, b: BatchId)
    requires Idle(s, i, b)
    ensures CanFinish(s, i, true)
    decreases LeftOfLease(s, i)
  {
    if LeftOfLease(s, i) == 0 {
      FinishIdle(s, i, b);
    } else {
      var tick := Environment(Tick);
      assert Do(s, tick) == s.(now := s.now + 1);
      StillRetriable(s, tick, i, b);
      FinishClaimed(Do(s, tick), i, b);
      OneStepEarlier(s, tick, i, true);
    }
  }

  function ChargedCalls(s: State, b: BatchId): set<Token>
  {
    set t | t in s.workers && B.ChargeOf(s.workers[t]).Some? && B.ChargeOf(s.workers[t]).value.batch == b
  }

  /** With nothing in flight the counter is the floor. */
  lemma NothingInFlight(s: State, b: BatchId)
    requires Reachable(s) && b in s.db.batches && ChargedCalls(s, b) == {}
    ensures s.db.batches[b].extracted == Floor(s, b)
  {
    B.ExtractedBytesLedger(s, b);
    forall t | t in s.workers ensures B.Charged(B.ChargeOf(s.workers[t]), b) == 0 && Stake(s.workers[t], b) == 0 {
      assert t !in ChargedCalls(s, b);
    }
    SumOfZeros(s.workers.Keys, B.ChargedBy(s.workers, b));
    SumOfZeros(s.workers.Keys, StakeAt(s.workers, b));
  }

  ghost predicate Ready(s: State, i: InstanceId, b: BatchId)
  {
    Retriable(s, i, b) && s.db.instances[i].lock.None? && s.db.batches[b].status == Running
  }

  /** One attempt in flight comes to its end without raising the floor. */
  predicate SettledCall(s: State, s': State, t: Token, i: InstanceId, b: BatchId)
  {
    t in s.workers && b in s.db.batches && b in s'.db.batches && s'.db.attempts == s.db.attempts &&
    s'.db.instances == s.db.instances && s'.db.batches[b].status == s.db.batches[b].status && ChargedCalls(s', b) == ChargedCalls(s, b) - {t}
  }

  lemma DischargeSettlesCall(s: State, t: Token, i: InstanceId, b: BatchId)
    requires AtInstance(s, t) && s.workers[t].ipc.WalkFailed? && t in ChargedCalls(s, b) && b in s.db.batches
    ensures var s' := Do(s, ArchiveStep(t, Discharge)); SettledCall(s, s', t, i, b) && Floor(s', b) == Floor(s, b)
  {
    var s' := Do(s, ArchiveStep(t, Discharge));
    assert s' == DoDischarge(s, t);
    CallMovesFloor(s, s', t, b);
  }

  lemma ReconcileSettlesCall(s: State, t: Token, i: InstanceId, b: BatchId)
    requires AtInstance(s, t) && s.workers[t].ipc.Walked? && t in ChargedCalls(s, b) && b in s.db.batches
    requires s.workers[t].ipc.bytes <= s.workers[t].ipc.charge.value.amount
    ensures var s' := Do(s, ArchiveStep(t, Reconcile)); SettledCall(s, s', t, i, b) && Floor(s', b) == Floor(s, b)
  {
    assert Do(s, ArchiveStep(t, Reconcile)) == DoReconcile(s, t);
    ReconcileKeepsFloor(s, t, b);
  }

  lemma ReconcileKeepsFloor(s: State, t: Token, b: BatchId)
    requires AtInstance(s, t) && s.workers[t].ipc.Walked? && t in ChargedCalls(s, b)
    requires s.workers[t].ipc.bytes <= s.workers[t].ipc.charge.value.amount
    ensures Floor(DoReconcile(s, t), b) == Floor(s, b)
  {
    CallMovesFloor(s, DoReconcile(s, t), t, b);
  }

  lemma CrashSettlesCall(s: State, t: Token, i: InstanceId, b: BatchId)
    requires AtInstance(s, t) && s.workers[t].ipc.Walked? && t in ChargedCalls(s, b) && b in s.db.batches
    requires s.workers[t].ipc.bytes > s.workers[t].ipc.charge.value.amount
    ensures var s' := Do(s, Environment(Crash(t))); SettledCall(s, s', t, i, b) && Floor(s', b) == Floor(s, b)
  {
    assert Do(s, Environment(Crash(t))) == DoCrash(s, t);
    CrashFloor(s, t, b);
  }

  /** Attempts in flight can all come to an end that gives back what can be given back. */
  lemma {:induction false} FinishCharged(s: State, i: InstanceId, b: BatchId)
    requires Ready(s, i, b)
    ensures CanFinish(s, i, true)
    decreases ChargedCalls(s, b)
  {
    if ChargedCalls(s, b) == {} {
      NothingInFlight(s, b);
      FinishClaimed(s, i, b);
    } else {
      var t :| t in ChargedCalls(s, b);
      var pc := s.workers[t].ipc;
      if pc.Walked? {
        var a := if pc.bytes <= pc.charge.value.amount then ArchiveStep(t, Reconcile) else Environment(Crash(t));
        if pc.bytes <= pc.charge.value.amount { ReconcileSettlesCall(s, t, i, b); } else { CrashSettlesCall(s, t, i, b); }
        FinishSettled(s, a, t, i, b);
      } else if pc.WalkFailed? {
        DischargeSettlesCall(s, t, i, b);
        FinishSettled(s, ArchiveStep(t, Discharge), t, i, b);
      } else {
        FinishRaised(s, t, i, b);
      }
    }
  }

  lemma {:induction false} FinishSettled(s: State, a: Action, t: Token, i: InstanceId, b: BatchId)
    requires Ready(s, i, b) && t in ChargedCalls(s, b) && !Unscoped(a)
    requires SettledCall(s, Do(s, a), t, i, b) && Floor(Do(s, a), b) == Floor(s, b)
    ensures CanFinish(s, i, true)
    decreases ChargedCalls(s, b), 0
  {
    StillRetriable(s, a, i, b);
    FinishCharged(Do(s, a), i, b);
    OneStepEarlier(s, a, i, true);
  }

  /** A walk under way can raise. */
  lemma {:induction false} FinishRaised(s: State, t: Token, i: InstanceId, b: BatchId)
    requires Ready(s, i, b) && t in ChargedCalls(s, b) && s.workers[t].ipc.Walking?
    ensures CanFinish(s, i, true)
    decreases ChargedCalls(s, b), 1
  {
    var raise := ArchiveStep(t, WalkRaises);
    var raised := Do(s, raise);
    assert raised == DoWalkRaises(s, t);
    CallMovesFloor(s, raised, t, b);
    assert ChargedCalls(raised, b) == ChargedCalls(s, b);
    StillRetriable(s, raise, i, b);
    DischargeSettlesCall(raised, t, i, b);
    FinishSettled(raised, ArchiveStep(t, Discharge), t, i, b);
    OneStepEarlier(s, raise, i, true);
  }

  /** A batch that is not over can be made to run. */
  lemma FinishStopped(s: State, i: InstanceId, b: BatchId)
    requires Retriable(s, i, b) && s.db.instances[i].lock.None?
    ensures CanFinish(s, i, true)
  {
    if s.db.batches[b].status == Running {
      FinishCharged(s, i, b);
    } else {
      var run := Environment(Control(b, BatchStatus.Running, None));
      assert Do(s, run) == DoControl(s, b, BatchStatus.Running, None);
      StillRetriable(s, run, i, b);
      FinishCharged(Do(s, run), i, b);
      OneStepEarlier(s, run, i, true);
    }
  }

  /** A claim that was about to be granted can be lost. */
  lemma FinishLocked(s: State, i: InstanceId, b: BatchId)
    requires Retriable(s, i, b)
    ensures CanFinish(s, i, true)
  {
    if s.db.instances[i].lock.None? {
      FinishStopped(s, i, b);
    } else {
      KindReachable(s);
      assert InstanceOk(s, i);
      var crash := Environment(Crash(s.db.instances[i].lock.value));
      assert Do(s, crash) == DoCrash(s, s.db.instances[i].lock.value);
      SameStakesSameFloor(s, Do(s, crash), b);
      StillRetriable(s, crash, i, b);
      FinishStopped(Do(s, crash), i, b);
      OneStepEarlier(s, crash, i, true);
    }
  }

  // ----- when an archive can still finish ----------------------------------------------------------------------

  /** At any moment of any interleaving, with claims from then on in the name of a run: an archive can
      still be brought to an attempt on record and a terminal state exactly if it is not stuck. So once it
      is neither settled nor past admission, exactly if its batch is not over and its declared size fits
      into the envelope above what the counter can never go below again. */
  lemma ArchiveRootFinishesExactly(s: State, i: InstanceId, b: BatchId)
    requires Reachable(s) && ArchiveRoot(s.db, i, b)
    ensures CanFinish(s, i, true) <==> !ArchiveStuck(s, i, b)
  {
    KindReachable(s);
    if ArchiveStuck(s, i, b) {
      forall actions: seq<Action> | AllScoped(actions) ensures !Finished(Run(s, actions).db, i) {
        ArchiveStuckThroughout(s, actions, i, b);
        KindReachable(Run(s, actions));
        StuckArchiveIsUnfinished(Run(s, actions), i, b);
      }
    } else if Settled(s.db, i) {
      FinishedNow(s, i, true);
    } else if t :| CanComplete(s, t, i) {
      CallCompletes(s, t, i);
    } else {
      FinishLocked(s, i, b);
    }
  }

  /** The call has its estimate on the batch's counter, and nothing else of the batch is in flight. */
  predicate AloneInTheWalk(s: State, t: Token, i: InstanceId, b: BatchId)
  {
    ArchiveRoot(s.db, i, b) && AtInstance(s, t) && s.workers[t].inst == i && ChargedCalls(s, b) == {t}
  }

  /** A crash between the admission commit and the settlement leaves the estimate on the counter. If
      nothing else is in flight the archive can still finish exactly if its batch is not over and the
      estimate fits once more on top of what is on the counter already. */
  lemma CrashInTheWalkExactly(s: State, t: Token, i: InstanceId, b: BatchId)
    requires Reachable(s) && AloneInTheWalk(s, t, i, b) && s.db.instances[i].archiveCategory && !Settled(s.db, i)
    requires forall u :: u != t ==> !CanComplete(s, u, i)
    ensures CanFinish(DoCrash(s, t), i, true) <==>
            !Over(s.db.batches[b].status) &&
            (s.db.batches[b].maxExtracted.Some? ==>
               s.db.batches[b].extracted + s.db.instances[i].declared <= s.db.batches[b].maxExtracted.value)
  {
    var crashed := DoCrash(s, t);
    assert crashed == Do(s, Environment(Crash(t)));
    ReachableStep(s, Environment(Crash(t)));
    forall u ensures CanComplete(crashed, u, i) <==> u != t && CanComplete(s, u, i) {}
    forall u ensures u !in ChargedCalls(crashed, b) { assert u in ChargedCalls(s, b) <==> u == t; }
    NothingInFlight(crashed, b);
    ArchiveRootFinishesExactly(crashed, i, b);
  }

  const PICK := Pick(true, true, 8, 0)
  const BATCH := Batch(0, BatchStatus.Running, None, 5, 0, Some(10), 0, 1)

  /** One running batch with room for 10 bytes and one archive that declares 8. */
  lemma OneArchivePlanned() returns (s: State)
    ensures Reachable(s)
    ensures s == EMPTY.(db := EMPTY.db.(batches := map[0 := BATCH.(status := Planned)], instances := map[0 := NewRoot(0, PICK)]))
  {
    assert Reachable(EMPTY) by { assert EMPTY == Run(EMPTY, []); }
    var create := Environment(CreateBatch(0, 0, map[0 := PICK], 5, Some(10)));
    ReachableStep(EMPTY, create);
    s := Do(EMPTY, create);
    assert |map[0 := PICK].Keys| == 1;
    assert s == DoCreateBatch(EMPTY, 0, 0, map[0 := PICK], 5, Some(10));
  }

  lemma OneArchiveRunning() returns (s: State)
    ensures Reachable(s)
    ensures s == EMPTY.(db := EMPTY.db.(batches := map[0 := BATCH], instances := map[0 := NewRoot(0, PICK)]))
  {
    var s1 := OneArchivePlanned();
    ReachableStep(s1, Environment(Control(0, BatchStatus.Running, None)));
    s := Do(s1, Environment(Control(0, BatchStatus.Running, None)));
  }

  /** A worker claims that archive. */
  lemma ArchiveIsClaimed() returns (s: State)
    ensures Reachable(s) && s.workers == map[3 := OnInstance(0, 1, Some(0), ArchiveQueue, Admitting)]
    ensures s.db == EMPTY.db.(batches := map[0 := BATCH], instances := map[0 := NewRoot(0, PICK).(claim := Some(Claim(1, 0)), gen := 1)])
  {
    var s0 := OneArchiveRunning();
    var select := SelectInstance(3, 0, 1, ArchiveQueue, Some(0), 10);
    assert RunIsRunning(s0.db, 0) by { assert 0 in s0.db.batches; }
    ReachableStep(s0, select);
    var s1 := Do(s0, select);
    assert s1.db == s0.db.(instances := map[0 := NewRoot(0, PICK).(lock := Some(3))]);
    assert s1.workers == map[3 := Selecting(0, 1, ArchiveQueue, Some(0), -10)];
    assert RunIsRunning(s1.db, 0) by { assert 0 in s1.db.batches; }
    ReachableStep(s1, GrantSelected(3));
    s := Do(s1, GrantSelected(3));
  }

  /** A crash in the middle of a walk can block a batch for good: 8 of 10 bytes stay charged, and every
      later attempt needs 8 more. No later sequence of claims in the name of the run finishes the archive. */
  lemma CrashInTheWalkCanBlock() returns (s: State)
    ensures Reachable(s) && AloneInTheWalk(s, 3, 0, 0) && s.db.batches[0].status == BatchStatus.Running
    ensures !CanFinish(DoCrash(s, 3), 0, true)
  {
    var s0 := ArchiveIsClaimed();
    ReachableStep(s0, ArchiveStep(3, Admit(Some(0), false)));
    s := Do(s0, ArchiveStep(3, Admit(Some(0), false)));
    assert s == DoAdmit(s0, 3, Some(0), false);
    assert s.workers == map[3 := OnInstance(0, 1, Some(0), ArchiveQueue, Walking(Some(Charge(0, 8)), 0))];
    assert ChargedCalls(s, 0) == {3};
    CrashInTheWalkExactly(s, 3, 0, 0);
  }
}
