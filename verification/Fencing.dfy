/** Claims on source instances, and fencing over whole runs for both kinds of row. */
module Fencing {
  import opened Collections
  import opened Tables
  import opened Protocol
  import opened Pipeline
  import opened Evolution

  predicate InstanceOk(s: State, i: InstanceId)
    requires i in s.db.instances
  {
    var row := s.db.instances[i];
    (row.group.Some? ==> row.group.value in s.db.groups) &&
    (row.lock.Some? ==> row.lock.value in s.workers && s.workers[row.lock.value].Selecting? &&
                        s.workers[row.lock.value].inst == i)
  }

  /** While its SELECT holds the row lock, everything the SELECT saw in the row stays true. */
  predicate SelectingOk(db: Db, t: Token, w: Worker)
    requires w.Selecting?
  {
    w.inst in db.instances && db.instances[w.inst].lock == Some(t) && !db.instances[w.inst].member &&
    db.instances[w.inst].group.None? && (db.instances[w.inst].archiveSuffix <==> w.queue.ArchiveQueue?) &&
    (w.run.Some? ==> db.instances[w.inst].run == w.run.value) &&
    FreeOrStale(db.instances[w.inst].claim, w.staleBefore)
  }

  predicate InstanceCallOk(db: Db, w: Worker)
    requires w.OnInstance?
  {
    w.inst in db.instances && !db.instances[w.inst].member && 1 <= w.gen <= db.instances[w.inst].gen &&
    (w.run.Some? ==> db.instances[w.inst].run == w.run.value) &&
    (w.ipc.Identified? ==> w.ipc.group in db.groups)
  }

  predicate SameInstance(w: Worker, v: Worker)
  {
    w.OnInstance? && v.OnInstance? && w.inst == v.inst
  }

  ghost predicate InstanceInv(s: State)
  {
    (forall i :: i in s.db.instances ==> InstanceOk(s, i)) &&
    (forall t :: t in s.workers && s.workers[t].Selecting? ==> SelectingOk(s.db, t, s.workers[t])) &&
    (forall t :: t in s.workers && s.workers[t].OnInstance? ==> InstanceCallOk(s.db, s.workers[t])) &&
    (forall t, u :: t in s.workers && u in s.workers && t != u && SameInstance(s.workers[t], s.workers[u])
       ==> s.workers[t].gen != s.workers[u].gen)
  }

  predicate OnRow(w: Worker)
  {
    w.Selecting? || w.OnInstance?
  }

  /** Instance rows may be added, but those that exist, and the calls on them, stay as they were. */
  ghost predicate RowsKept(s: State, s': State)
  {
    (forall g :: g in s.db.groups ==> g in s'.db.groups) &&
    (forall i :: i in s.db.instances ==> i in s'.db.instances && s'.db.instances[i] == s.db.instances[i]) &&
    (forall i :: i in s'.db.instances && i !in s.db.instances ==>
       s'.db.instances[i].group.None? && s'.db.instances[i].lock.None?) &&
    (forall t :: t in s'.workers && OnRow(s'.workers[t]) ==> t in s.workers && s'.workers[t] == s.workers[t]) &&
    (forall t :: t in s.workers && s.workers[t].Selecting? ==> t in s'.workers && s'.workers[t] == s.workers[t])
  }

  lemma RowsKeptInv(s: State, s': State)
    requires InstanceInv(s) && RowsKept(s, s')
    ensures InstanceInv(s')
  {
    forall i | i in s'.db.instances ensures InstanceOk(s', i) {
      if i in s.db.instances { assert InstanceOk(s, i); }
    }
    forall t | t in s'.workers && s'.workers[t].Selecting? ensures SelectingOk(s'.db, t, s'.workers[t]) {
      assert SelectingOk(s.db, t, s.workers[t]);
    }
    forall t | t in s'.workers && s'.workers[t].OnInstance? ensures InstanceCallOk(s'.db, s'.workers[t]) {
      assert InstanceCallOk(s.db, s.workers[t]);
    }
  }

  /** A step of the call `t` on the row `i`. A row another transaction has locked is left alone. */
  ghost predicate RowStep(s: State, s': State, t: Token, i: InstanceId)
  {
    i in s.db.instances && (forall g :: g in s.db.groups ==> g in s'.db.groups) &&
    (forall j :: j in s.db.instances ==> j in s'.db.instances && InstanceMoved(s.db.instances[j], s'.db.instances[j])) &&
    (forall j :: j in s.db.instances && j != i && s.db.instances[j].lock.Some? ==>
       s'.db.instances[j] == s.db.instances[j]) &&
    (forall j :: j in s'.db.instances ==> InstanceOk(s', j)) &&
    (forall u :: u in s'.workers && u != t ==> u in s.workers && s'.workers[u] == s.workers[u]) &&
    (forall u :: u in s.workers && u != t ==> u in s'.workers) &&
    (forall u :: u in s.workers && u != t && s.workers[u].Selecting? && s.workers[u].inst == i ==>
       s'.db.instances[i] == s.db.instances[i])
  }

  lemma RowStepInv(s: State, s': State, t: Token, i: InstanceId)
    requires InstanceInv(s) && i in s.db.instances && RowStep(s, s', t, i)
    requires t in s'.workers && s'.workers[t].Selecting? ==> SelectingOk(s'.db, t, s'.workers[t])
    requires t in s'.workers && s'.workers[t].OnInstance? ==>
               InstanceCallOk(s'.db, s'.workers[t]) && s'.workers[t].inst == i &&
               (s'.workers[t].gen > s.db.instances[i].gen ||
                (t in s.workers && SameInstance(s'.workers[t], s.workers[t]) && s.workers[t].gen == s'.workers[t].gen))
    ensures InstanceInv(s')
  {
    forall u | u in s'.workers && s'.workers[u].Selecting? ensures SelectingOk(s'.db, u, s'.workers[u]) {
      if u != t { assert SelectingOk(s.db, u, s.workers[u]); }
    }
    forall u | u in s'.workers && s'.workers[u].OnInstance? ensures InstanceCallOk(s'.db, s'.workers[u]) {
      if u != t { assert InstanceCallOk(s.db, s.workers[u]); }
    }
    forall u, v | u in s'.workers && v in s'.workers && u != v && SameInstance(s'.workers[u], s'.workers[v])
      ensures s'.workers[u].gen != s'.workers[v].gen
    {
      if u != t { assert InstanceCallOk(s.db, s.workers[u]); }
      if v != t { assert InstanceCallOk(s.db, s.workers[v]); }
    }
  }

  lemma SelectKeepsInv(s: State, t: Token, i: InstanceId, who: WorkerId, queue: Queue, run: Option<RunId>, lease: nat)
    requires InstanceInv(s)
    ensures InstanceInv(DoSelectInstance(s, t, i, who, queue, run, lease))
  {
    var s' := DoSelectInstance(s, t, i, who, queue, run, lease);
    if s' != s {
      forall j | j in s'.db.instances ensures InstanceOk(s', j) { assert InstanceOk(s, j); }
      forall u | u in s.workers && s.workers[u].Selecting? ensures s.workers[u].inst != i {
        assert SelectingOk(s.db, u, s.workers[u]);
      }
      RowStepInv(s, s', t, i);
    }
  }

  lemma GrantKeepsInv(s: State, t: Token)
    requires InstanceInv(s)
    ensures InstanceInv(DoGrantSelected(s, t))
  {
    var s' := DoGrantSelected(s, t);
    if s' != s {
      var i := s.workers[t].inst;
      assert SelectingOk(s.db, t, s.workers[t]);
      forall j | j in s'.db.instances ensures InstanceOk(s', j) { assert InstanceOk(s, j); }
      forall u | u in s.workers && u != t && s.workers[u].Selecting? ensures s.workers[u].inst != i {
        assert SelectingOk(s.db, u, s.workers[u]);
      }
      RowStepInv(s, s', t, i);
    }
  }

  lemma CrashKeepsInv(s: State, t: Token)
    requires InstanceInv(s)
    ensures InstanceInv(DoCrash(s, t))
  {
    var s' := DoCrash(s, t);
    if t in s.workers && s.workers[t].Selecting? {
      var i := s.workers[t].inst;
      assert SelectingOk(s.db, t, s.workers[t]);
      forall j | j in s'.db.instances ensures InstanceOk(s', j) { assert InstanceOk(s, j); }
      forall u | u in s.workers && u != t && s.workers[u].Selecting? ensures s.workers[u].inst != i {
        assert SelectingOk(s.db, u, s.workers[u]);
      }
      RowStepInv(s, s', t, i);
    } else {
      RowsKeptInv(s, s');
    }
  }

  lemma EnvironmentKeepsInv(s: State, a: EnvironmentAction)
    requires InstanceInv(s)
    ensures InstanceInv(DoEnvironment(s, a))
  {
    match a
    case Crash(t) => CrashKeepsInv(s, t);
    case CreateBatch(_, _, picks, _, _) =>
      if picks.Keys !! s.db.instances.Keys {
        assert forall i :: i in s.db.instances ==> i !in picks.Keys;
        RowsKeptInv(s, DoEnvironment(s, a));
      }
    case _ => RowsKeptInv(s, DoEnvironment(s, a));
  }

  /** A step of the call `t` that writes no instance row. */
  lemma CallMovesInv(s: State, s': State, t: Token)
    requires InstanceInv(s) && t in s.workers && s.workers[t].OnInstance?
    requires s'.db.instances == s.db.instances && forall g :: g in s.db.groups ==> g in s'.db.groups
    requires t in s'.workers && s'.workers[t].OnInstance? && !s'.workers[t].ipc.Identified?
    requires s'.workers[t] == s.workers[t].(ipc := s'.workers[t].ipc)
    requires s'.workers - {t} == s.workers - {t}
    ensures InstanceInv(s')
  {
    var i := s.workers[t].inst;
    assert InstanceCallOk(s.db, s.workers[t]);
    assert forall u :: u != t ==> (u in s'.workers <==> u in s'.workers - {t}) && (u in s.workers <==> u in s.workers - {t});
    assert forall u :: u in s'.workers && u != t ==> s'.workers[u] == (s'.workers - {t})[u] && s.workers[u] == (s.workers - {t})[u];
    forall j | j in s'.db.instances ensures InstanceOk(s', j) { assert InstanceOk(s, j); }
    RowStepInv(s, s', t, i);
  }

  lemma IdentifyKeepsInv(s: State, t: Token, g: GroupId, initial: PipelineState, pieces: nat, created: nat)
    requires InstanceInv(s) && AtInstance(s, t)
    ensures InstanceInv(DoIdentify(s, t, g, initial, pieces, created))
  {
    var s', i := DoIdentify(s, t, g, initial, pieces, created), s.workers[t].inst;
    if s' != s {
      assert InstanceCallOk(s.db, s.workers[t]) && InstanceOk(s, i);
      forall j | j in s'.db.instances ensures InstanceOk(s', j) { assert InstanceOk(s, j); }
      RowStepInv(s, s', t, i);
    }
  }

  lemma OwnRowKeepsInv(s: State, t: Token, a: InstanceAction)
    requires InstanceInv(s) && AtInstance(s, t) && (a.Assign? || a.Leave?)
    ensures InstanceInv(DoInstance(s, t, a))
  {
    var s', i := DoInstance(s, t, a), s.workers[t].inst;
    if s' != s {
      assert InstanceCallOk(s.db, s.workers[t]) && InstanceOk(s, i);
      forall j | j in s'.db.instances ensures InstanceOk(s', j) { assert InstanceOk(s, j); }
      forall u | u in s.workers && s.workers[u].Selecting? ensures SelectingOk(s.db, u, s.workers[u]) {}
      RowStepInv(s, s', t, i);
    }
  }

  lemma InstanceActionKeepsInv(s: State, t: Token, a: InstanceAction)
    requires InstanceInv(s) && AtInstance(s, t)
    ensures InstanceInv(DoInstance(s, t, a))
  {
    match a
    case Identify(g, initial, pieces, created) => IdentifyKeepsInv(s, t, g, initial, pieces, created);
    case Assign => OwnRowKeepsInv(s, t, a);
    case Leave => OwnRowKeepsInv(s, t, a);
    case ReadFails => if s.workers[t].ipc.Reading? { CallMovesInv(s, DoReadFails(s, t), t); }
    case RecordIdentity => if s.workers[t].ipc.Assigned? { CallMovesInv(s, DoRecordIdentity(s, t), t); }
    case Abandon => CallMovesInv(s, DoAbandon(s, t), t);
  }

  lemma AssignMemberKeepsInv(s: State, t: Token, m: InstanceId, g: GroupId)
    requires InstanceInv(s) && AtInstance(s, t)
    ensures InstanceInv(DoAssignMember(s, t, m, g))
  {
    var s', i := DoAssignMember(s, t, m, g), s.workers[t].inst;
    if s' != s {
      assert InstanceCallOk(s.db, s.workers[t]) && InstanceOk(s, i) && InstanceOk(s, m);
      forall j | j in s'.db.instances ensures InstanceOk(s', j) { assert InstanceOk(s, j); }
      forall u | u in s.workers && s.workers[u].Selecting? ensures s.workers[u].inst != m {
        assert SelectingOk(s.db, u, s.workers[u]);
      }
      RowStepInv(s, s', t, i);
    }
  }

  lemma WalkKeepsInv(s: State, t: Token, a: ArchiveAction)
    requires InstanceInv(s) && AtInstance(s, t) && !s.workers[t].ipc.Identified?
    requires a.Admit? || a.Extract? || a.IdentifyMember? || a.WalkRaises? || a.WalkReturns?
    ensures InstanceInv(DoArchive(s, t, a))
  {
    CallMovesInv(s, DoArchive(s, t, a), t);
  }

  lemma SettleKeepsInv(s: State, t: Token, a: ArchiveAction)
    requires InstanceInv(s) && AtInstance(s, t) && !s.workers[t].ipc.Identified?
    requires a.Discharge? || a.RecordArchiveFailure? || a.Reconcile? || a.RecordArchive?
    ensures InstanceInv(DoArchive(s, t, a))
  {
    CallMovesInv(s, DoArchive(s, t, a), t);
  }

  lemma ArchiveActionKeepsInv(s: State, t: Token, a: ArchiveAction)
    requires InstanceInv(s) && AtInstance(s, t)
    ensures InstanceInv(DoArchive(s, t, a))
  {
    if s.workers[t].ipc.Identified? {
      assert DoArchive(s, t, a) == s;
    } else if a.AssignMember? {
      AssignMemberKeepsInv(s, t, a.m, a.g);
    } else if a.CreateMember? {
      RowsKeptInv(s, DoCreateMember(s, t, a.m, a.pick));
    } else if a.Discharge? || a.RecordArchiveFailure? || a.Reconcile? || a.RecordArchive? {
      SettleKeepsInv(s, t, a);
    } else {
      WalkKeepsInv(s, t, a);
    }
  }

  predicate EarlyStep(a: GroupAction)
  {
    a.Raise? || a.Fail? || a.WriteDocument? || a.WriteChunks? || a.RecordPrepared? || a.ReadPending? || a.ResolveBatch?
  }

  lemma EarlyStepKeepsRows(s: State, t: Token, a: GroupAction)
    requires AtGroup(s, t) && EarlyStep(a)
    ensures RowsKept(s, DoGroup(s, t, a))
  {}

  lemma LateStepKeepsRows(s: State, t: Token, a: GroupAction)
    requires AtGroup(s, t) && !EarlyStep(a)
    ensures RowsKept(s, DoGroup(s, t, a))
  {}

  lemma GroupStepKeepsRows(s: State, t: Token, a: GroupAction)
    requires AtGroup(s, t)
    ensures RowsKept(s, DoGroup(s, t, a))
  {
    if EarlyStep(a) { EarlyStepKeepsRows(s, t, a); } else { LateStepKeepsRows(s, t, a); }
  }

  lemma CheckStepKeepsRows(s: State, t: Token, a: CheckAction)
    requires AtCheck(s, t)
    ensures RowsKept(s, DoCheck(s, t, a))
  {}

  predicate LeavesRows(a: Action)
  {
    a.ClaimGroup? || a.GroupStep? || a.StartCheck? || a.CheckStep?
  }

  lemma OthersKeepRows(s: State, a: Action)
    requires LeavesRows(a)
    ensures RowsKept(s, Do(s, a))
  {
    match a
    case ClaimGroup(_, _, _, _, _) =>
    case GroupStep(t, ga) => if AtGroup(s, t) { GroupStepKeepsRows(s, t, ga); }
    case StartCheck(_, _) =>
    case CheckStep(t, ca) => if AtCheck(s, t) { CheckStepKeepsRows(s, t, ca); }
  }

  lemma InstanceInvKept(s: State, a: Action)
    requires InstanceInv(s)
    ensures InstanceInv(Do(s, a))
  {
    match a
    case Environment(env) => EnvironmentKeepsInv(s, env);
    case SelectInstance(t, i, who, queue, run, lease) => SelectKeepsInv(s, t, i, who, queue, run, lease);
    case GrantSelected(t) => GrantKeepsInv(s, t);
    case InstanceStep(t, ia) => if AtInstance(s, t) { InstanceActionKeepsInv(s, t, ia); }
    case ArchiveStep(t, aa) => if AtInstance(s, t) { ArchiveActionKeepsInv(s, t, aa); }
    case _ =>
      OthersKeepRows(s, a);
      RowsKeptInv(s, Do(s, a));
  }

  lemma {:induction false} InstanceInvRuns(s: State, actions: seq<Action>)
    requires InstanceInv(s)
    ensures InstanceInv(Run(s, actions))
    decreases |actions|
  {
    if actions != [] {
      InstanceInvRuns(s, actions[..|actions| - 1]);
      InstanceInvKept(Run(s, actions[..|actions| - 1]), actions[|actions| - 1]);
    }
  }

  lemma InstanceInvReachable(s: State)
    requires Reachable(s)
    ensures InstanceInv(s)
  {
    var actions :| s == Run(EMPTY, actions);
    InstanceInvRuns(EMPTY, actions);
  }

  // ----- generations ------------------------------------------------------------------------------

  predicate RowExists(db: Db, row: Row)
  {
    match row
    case GroupRow(g) => g in db.groups
    case InstanceRow(i) => i in db.instances
  }

  function CurrentGen(db: Db, row: Row): nat
    requires RowExists(db, row)
  {
    match row
    case GroupRow(g) => db.groups[g].gen
    case InstanceRow(i) => db.instances[i].gen
  }

  /** The log of grants, oldest first, never repeats or goes back on any row. */
  ghost predicate GrantsOk(s: State)
  {
    (forall k :: 0 <= k < |s.hist.grants| ==>
       RowExists(s.db, s.hist.grants[k].row) && s.hist.grants[k].gen <= CurrentGen(s.db, s.hist.grants[k].row)) &&
    (forall j, k :: 0 <= j < k < |s.hist.grants| && s.hist.grants[j].row == s.hist.grants[k].row ==>
       s.hist.grants[j].gen < s.hist.grants[k].gen)
  }

  function GrantsAdded(s: State, a: Action): seq<Grant>
  {
    match a
    case ClaimGroup(t, g, stage, _, lease) =>
      if t in s.workers || g !in s.db.groups || s.db.groups[g].state !in Eligible(stage) ||
         !FreeOrStale(s.db.groups[g].claim, s.now - lease)
      then [] else [Grant(GroupRow(g), s.db.groups[g].gen + 1)]
    case GrantSelected(t) =>
      if GrantApplies(s, t) then [Grant(InstanceRow(s.workers[t].inst), s.db.instances[s.workers[t].inst].gen + 1)] else []
    case _ => []
  }

  lemma OnlyGrantsLog(s: State, a: Action)
    ensures Do(s, a).hist.grants == s.hist.grants + GrantsAdded(s, a)
  {
    match a
    case Environment(env) =>
    case InstanceStep(t, ia) =>
    case ArchiveStep(t, aa) =>
    case GroupStep(t, ga) =>
    case CheckStep(t, ca) =>
    case _ =>
  }

  lemma GrantsKept(s: State, a: Action)
    requires Inv(s) && GrantsOk(s)
    ensures GrantsOk(Do(s, a))
  {
    var s' := Do(s, a);
    ActionEvolves(s, a);
    OnlyGrantsLog(s, a);
    assert forall k :: 0 <= k < |s.hist.grants| ==> s'.hist.grants[k] == s.hist.grants[k];
    forall k | 0 <= k < |s'.hist.grants|
      ensures RowExists(s'.db, s'.hist.grants[k].row) &&
              s'.hist.grants[k].gen <= CurrentGen(s'.db, s'.hist.grants[k].row)
    {
      if k < |s.hist.grants| {
        assert RowExists(s.db, s.hist.grants[k].row);
      }
    }
  }

  lemma {:induction false} GrantsRuns(actions: seq<Action>)
    ensures GrantsOk(Run(EMPTY, actions))
    decreases |actions|
  {
    if actions != [] {
      var before := actions[..|actions| - 1];
      InvRuns(EMPTY, before);
      GrantsRuns(before);
      GrantsKept(Run(EMPTY, before), actions[|actions| - 1]);
    }
  }

  /** Over any run, the generations granted on a row are strictly increasing in the order they were
      granted, so none is ever granted twice. */
  lemma GenerationsNeverRepeat(s: State, j: nat, k: nat)
    requires Reachable(s) && j < k < |s.hist.grants| && s.hist.grants[j].row == s.hist.grants[k].row
    ensures s.hist.grants[j].gen < s.hist.grants[k].gen
  {
    var actions :| s == Run(EMPTY, actions);
    GrantsRuns(actions);
  }

  /** At most one call in flight holds the current generation of a group or of an instance. */
  lemma OneHolder(s: State, t: Token, u: Token)
    requires Reachable(s) && t in s.workers && u in s.workers && t != u
    ensures var w, v := s.workers[t], s.workers[u];
            !(w.OnGroup? && v.OnGroup? && w.group == v.group &&
              HoldsGroup(s.db, w.group, w.gen) && HoldsGroup(s.db, v.group, v.gen)) &&
            !(w.OnInstance? && v.OnInstance? && w.inst == v.inst &&
              HoldsInstance(s.db, w.inst, w.gen) && HoldsInstance(s.db, v.inst, v.gen))
  {
    InvReachable(s);
    InstanceInvReachable(s);
    if SameGroup(s.workers[t], s.workers[u]) {
    } else if SameInstance(s.workers[t], s.workers[u]) {
    }
  }

  // ----- calls that have lost their row -----------------------------------------------------------

  predicate Superseded(s: State, t: Token)
  {
    t in s.workers && s.workers[t].OnGroup? && s.workers[t].group in s.db.groups &&
    s.workers[t].gen < s.db.groups[s.workers[t].group].gen
  }

  /** Reserve, consume, credit and release by a superseded call leave every group row and every batch
      counter as they are. */
  lemma SupersededIsInert(s: State, t: Token, a: GroupAction)
    requires Superseded(s, t)
    ensures DoGroup(s, t, a).db.groups == s.db.groups && DoGroup(s, t, a).db.batches == s.db.batches
    ensures var s' := DoGroup(s, t, a); t in s'.workers ==> Superseded(s', t)
  {}

  /** A call keeps its row and its generation until it ends. */
  lemma CallKeepsRow(s: State, a: Action, t: Token)
    requires t in s.workers && s.workers[t].OnGroup? && t in Do(s, a).workers
    ensures var w, w' := s.workers[t], Do(s, a).workers[t];
            w'.OnGroup? && w'.group == w.group && w'.gen == w.gen
  {
    match a
    case Environment(env) =>
    case InstanceStep(u, ia) => if AtInstance(s, u) { assert u != t; }
    case ArchiveStep(u, aa) => if AtInstance(s, u) { assert u != t; }
    case GroupStep(u, ga) => if AtGroup(s, u) { GroupStepKeepsCall(s, u, ga, t); }
    case CheckStep(u, ca) => if AtCheck(s, u) { assert u != t; }
    case _ =>
  }

  lemma GroupStepKeepsCall(s: State, u: Token, a: GroupAction, t: Token)
    requires AtGroup(s, u) && AtGroup(s, t) && t in DoGroup(s, u, a).workers
    ensures var w, w' := s.workers[t], DoGroup(s, u, a).workers[t];
            w'.OnGroup? && w'.group == w.group && w'.gen == w.gen
  {}

  lemma SupersededForEver(s: State, a: Action, t: Token)
    requires Inv(s) && Superseded(s, t) && t in Do(s, a).workers
    ensures Superseded(Do(s, a), t)
  {
    CallKeepsRow(s, a, t);
    ActionEvolves(s, a);
  }

  lemma {:induction false} SupersededThroughout(s: State, after: seq<Action>, t: Token)
    requires Inv(s) && Superseded(s, t)
    requires forall k :: 0 <= k <= |after| ==> t in Run(s, after[..k]).workers
    ensures Superseded(Run(s, after), t)
    decreases |after|
  {
    if after != [] {
      var prefix := after[..|after| - 1];
      assert forall k :: 0 <= k <= |prefix| ==> prefix[..k] == after[..k];
      assert after[..|after|] == after;
      SupersededThroughout(s, prefix, t);
      RunEvolves(s, prefix);
      SupersededForEver(Run(s, prefix), after[|after| - 1], t);
    }
  }

  /** A call whose row was reclaimed stays locked out for as long as it lives: whatever the other calls
      do meanwhile, nothing it does changes any group row or any batch counter. */
  lemma LostRowStaysLost(s: State, after: seq<Action>, t: Token, a: GroupAction)
    requires Reachable(s) && Superseded(s, t)
    requires forall k :: 0 <= k <= |after| ==> t in Run(s, after[..k]).workers
    ensures var s' := Run(s, after);
            Superseded(s', t) && DoGroup(s', t, a).db.groups == s'.db.groups &&
            DoGroup(s', t, a).db.batches == s'.db.batches
  {
    InvReachable(s);
    SupersededThroughout(s, after, t);
    SupersededIsInert(Run(s, after), t, a);
  }

  predicate SupersededOnInstance(s: State, t: Token, i: InstanceId, gen: nat)
  {
    t in s.workers && s.workers[t].OnInstance? && s.workers[t].inst == i && s.workers[t].gen == gen &&
    i in s.db.instances && gen < s.db.instances[i].gen
  }

  lemma InstanceStepKeepsCall(s: State, u: Token, a: InstanceAction, t: Token)
    requires AtInstance(s, u) && AtInstance(s, t) && t in DoInstance(s, u, a).workers
    ensures var w, w' := s.workers[t], DoInstance(s, u, a).workers[t];
            w'.OnInstance? && w'.inst == w.inst && w'.gen == w.gen
  {}

  lemma ArchiveStepKeepsCall(s: State, u: Token, a: ArchiveAction, t: Token)
    requires AtInstance(s, u) && AtInstance(s, t) && t in DoArchive(s, u, a).workers
    ensures var w, w' := s.workers[t], DoArchive(s, u, a).workers[t];
            w'.OnInstance? && w'.inst == w.inst && w'.gen == w.gen
  {}

  lemma InstanceCallKeepsRow(s: State, a: Action, t: Token)
    requires AtInstance(s, t) && t in Do(s, a).workers
    ensures var w, w' := s.workers[t], Do(s, a).workers[t];
            w'.OnInstance? && w'.inst == w.inst && w'.gen == w.gen
  {
    match a
    case Environment(env) =>
    case InstanceStep(u, ia) => if AtInstance(s, u) { InstanceStepKeepsCall(s, u, ia, t); }
    case ArchiveStep(u, aa) => if AtInstance(s, u) { ArchiveStepKeepsCall(s, u, aa, t); }
    case GroupStep(u, ga) => if AtGroup(s, u) { assert u != t; }
    case CheckStep(u, ca) => if AtCheck(s, u) { assert u != t; }
    case _ =>
  }

  lemma {:induction false} SupersededInstanceThroughout(s: State, after: seq<Action>, t: Token, i: InstanceId, gen: nat)
    requires Inv(s) && SupersededOnInstance(s, t, i, gen)
    requires forall k :: 0 <= k <= |after| ==> t in Run(s, after[..k]).workers
    ensures SupersededOnInstance(Run(s, after), t, i, gen)
    decreases |after|
  {
    if after != [] {
      var prefix := after[..|after| - 1];
      assert forall k :: 0 <= k <= |prefix| ==> prefix[..k] == after[..k];
      assert after[..|after|] == after;
      SupersededInstanceThroughout(s, prefix, t, i, gen);
      RunEvolves(s, prefix);
      var mid := Run(s, prefix);
      InstanceCallKeepsRow(mid, after[|after| - 1], t);
      ActionEvolves(mid, after[|after| - 1]);
      assert InstanceMoved(mid.db.instances[i], Run(s, after).db.instances[i]);
    }
  }

  /** The same for instance calls: whatever happens in between, the release of a call whose row was
      reclaimed takes the claim from nobody. */
  lemma LostInstanceReleasesNothing(s: State, after: seq<Action>, t: Token, i: InstanceId, gen: nat)
    requires Reachable(s) && SupersededOnInstance(s, t, i, gen)
    requires forall k :: 0 <= k <= |after| ==> t in Run(s, after[..k]).workers
    ensures var s' := Run(s, after);
            SupersededOnInstance(s', t, i, gen) && DoLeaveInstance(s', t).db == s'.db
  {
    InvReachable(s);
    SupersededInstanceThroughout(s, after, t, i, gen);
  }

  /** Between a candidate SELECT and its UPDATE the row cannot change, so the grant applies exactly
      when the batch gate holds at the UPDATE: a batch paused in between refuses it, and the row, still
      an unresolved root of the right kind, comes out unclaimed. */
  lemma GrantGate(s: State, t: Token)
    requires Reachable(s) && t in s.workers && s.workers[t].Selecting?
    ensures var w := s.workers[t];
            var s' := Do(s, GrantSelected(t));
            w.inst in s.db.instances && w.inst in s'.db.instances &&
            var row, row' := s.db.instances[w.inst], s'.db.instances[w.inst];
            !row.member && row.group.None? && (row.archiveSuffix <==> w.queue.ArchiveQueue?) &&
            (w.run.Some? ==> row.run == w.run.value) && (row.claim.None? || row.claim.value.at < w.staleBefore) &&
            if w.run.None? || exists b :: b in s.db.batches && s.db.batches[b].run == w.run.value && s.db.batches[b].status == Running
            then row'.claim == Some(Claim(w.who, s.now)) && row'.gen == row.gen + 1
            else row' == row.(lock := None) && t !in s'.workers
  {
    InstanceInvReachable(s);
    assert SelectingOk(s.db, t, s.workers[t]);
  }
}
