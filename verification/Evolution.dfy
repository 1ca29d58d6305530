/** What no action ever takes back: pipeline states only move forward, identities are write-once,
    attempts and embeddings are never removed, batch membership is fixed. The relation is reflexive
    and transitive, so it holds between any two moments of a run. */
module Evolution {
  import opened Collections
  import opened Tables
  import opened Protocol
  import opened Pipeline

  function Rank(state: PipelineState): nat
  {
    match state
    case Extracted => 0
    case Normalized => 1
    case Chunked => 2
    case Embedded => 3
    case Ingested => 4
    case Failed => 4
    case _ => 5
  }

  /** Extracted, Normalized, Chunked, Embedded, Ingested in that order, or out to Failed from any of
      the first four; every other state stays as it is. */
  predicate Forward(from: PipelineState, to: PipelineState)
  {
    from == to ||
    (from in {Extracted, Normalized, Chunked, Embedded} &&
     to in {Normalized, Chunked, Embedded, Ingested, Failed} && Rank(from) < Rank(to))
  }

  predicate GroupMoved(row: Group, row': Group)
  {
    Forward(row.state, row'.state) && row.gen <= row'.gen && row.pieces == row'.pieces
  }

  predicate InstanceMoved(row: Instance, row': Instance)
  {
    row.run == row'.run && row.member == row'.member && row.archiveSuffix == row'.archiveSuffix &&
    row.archiveCategory == row'.archiveCategory && row.declared == row'.declared && row.gen <= row'.gen &&
    (row.group.Some? ==> row'.group == row.group)
  }

  predicate Over(status: BatchStatus)
  {
    status == Completed || status == Aborted
  }

  predicate BatchMoved(row: Batch, row': Batch)
  {
    row.run == row'.run && row.selected == row'.selected && row.maxEmbeddings == row'.maxEmbeddings &&
    row.maxExtracted == row'.maxExtracted &&
    (Over(row.status) ==> row'.status == row.status && row'.stopReason == row.stopReason)
  }

  predicate Batched(db: Db, run: RunId)
  {
    exists b :: b in db.batches && db.batches[b].run == run
  }

  ghost predicate Evolves(db: Db, db': Db)
  {
    (forall g :: g in db.groups ==> g in db'.groups && GroupMoved(db.groups[g], db'.groups[g])) &&
    (forall g :: g in db.docs ==> g in db'.docs && DocsGrow(db.docs[g], db'.docs[g])) &&
    (forall i :: i in db.instances ==> i in db'.instances && InstanceMoved(db.instances[i], db'.instances[i])) &&
    (forall i :: i in db'.instances && i !in db.instances ==>
       db'.instances[i].member || !Batched(db, db'.instances[i].run)) &&
    db.attempts <= db'.attempts &&
    (forall b :: b in db.batches ==> b in db'.batches && BatchMoved(db.batches[b], db'.batches[b]))
  }

  lemma EvolvesTransitive(a: Db, b: Db, c: Db)
    requires Evolves(a, b) && Evolves(b, c)
    ensures Evolves(a, c)
  {
    forall g | g in a.groups ensures g in c.groups && GroupMoved(a.groups[g], c.groups[g]) {
      assert GroupMoved(a.groups[g], b.groups[g]) && GroupMoved(b.groups[g], c.groups[g]);
    }
    forall g | g in a.docs ensures g in c.docs && DocsGrow(a.docs[g], c.docs[g]) {
      assert DocsGrow(a.docs[g], b.docs[g]) && DocsGrow(b.docs[g], c.docs[g]);
    }
    forall i | i in a.instances ensures i in c.instances && InstanceMoved(a.instances[i], c.instances[i]) {
      assert InstanceMoved(a.instances[i], b.instances[i]) && InstanceMoved(b.instances[i], c.instances[i]);
    }
    forall i | i in c.instances && i !in a.instances && !c.instances[i].member
      ensures !Batched(a, c.instances[i].run)
    {
      if i in b.instances {
        assert InstanceMoved(b.instances[i], c.instances[i]);
      } else if Batched(a, c.instances[i].run) {
        var k :| k in a.batches && a.batches[k].run == c.instances[i].run;
        assert BatchMoved(a.batches[k], b.batches[k]);
        assert Batched(b, c.instances[i].run);
      }
    }
    forall k | k in a.batches ensures k in c.batches && BatchMoved(a.batches[k], c.batches[k]) {
      assert BatchMoved(a.batches[k], b.batches[k]) && BatchMoved(b.batches[k], c.batches[k]);
    }
  }

  // ----- one transaction -------------------------------------------------------------------------

  lemma Unchanged(db: Db)
    ensures Evolves(db, db)
  {}

  lemma RecordEvolves(db: Db, subject: Subject, outcome: Tables.Outcome)
    ensures Evolves(db, Record(db, subject, outcome))
  {}

  lemma ReserveEvolves(db: Db, g: GroupId, gen: nat, b: BatchId, n: nat)
    ensures Evolves(db, Reserve(db, g, gen, b, n))
  {}

  lemma ClearEvolves(db: Db, g: GroupId, gen: nat)
    ensures Evolves(db, ClearReservation(db, g, gen))
  {}

  lemma FreeEvolves(db: Db, g: GroupId, gen: nat)
    ensures Evolves(db, FreeReservation(db, g, gen))
  {}

  lemma GrantEvolves(db: Db, g: GroupId, who: WorkerId, now: int)
    requires g in db.groups
    ensures Evolves(db, GrantGroup(db, g, who, now, None))
  {}

  lemma ReleaseEvolves(db: Db, g: GroupId, gen: nat, to: Option<PipelineState>)
    requires HoldsGroup(db, g, gen) && to.Some? ==> Forward(db.groups[g].state, to.value)
    ensures Evolves(db, ReleaseGroup(db, g, gen, to))
  {}

  lemma CreateGroupEvolves(db: Db, g: GroupId, initial: PipelineState, pieces: nat, created: nat)
    ensures Evolves(db, GetOrCreateGroup(db, g, initial, pieces, created))
  {}

  lemma WriteDocsEvolves(db: Db, g: GroupId, chunks: seq<bool>)
    requires g in db.docs ==> DocsGrow(db.docs[g], chunks)
    ensures Evolves(db, db.(docs := db.docs[g := chunks]))
  {}

  lemma PutInstanceEvolves(db: Db, i: InstanceId, row: Instance)
    requires if i in db.instances then InstanceMoved(db.instances[i], row)
             else row.member || !Batched(db, row.run)
    ensures Evolves(db, db.(instances := db.instances[i := row]))
  {}

  lemma PutBatchEvolves(db: Db, b: BatchId, row: Batch)
    requires b in db.batches ==> BatchMoved(db.batches[b], row)
    ensures Evolves(db, db.(batches := db.batches[b := row]))
  {}

  lemma TransitionEvolves(db: Db, b: BatchId, to: BatchStatus, reason: Option<StopReason>)
    ensures Evolves(db, Transition(db, b, to, reason))
  {
    if b in db.batches && LegalTransition(db.batches[b].status, to, reason) {
      PutBatchEvolves(db, b, db.batches[b].(status := to, stopReason := reason));
    }
  }

  lemma AddExtractedEvolves(db: Db, b: BatchId, delta: int)
    ensures Evolves(db, AddExtracted(db, b, delta))
  {
    if b in db.batches { PutBatchEvolves(db, b, db.batches[b].(extracted := db.batches[b].extracted + delta)); }
  }

  lemma AddRootsEvolves(db: Db, run: RunId, picks: map<InstanceId, Pick>)
    requires picks.Keys !! db.instances.Keys && !Batched(db, run)
    ensures Evolves(db, db.(instances := db.instances + map i | i in picks :: NewRoot(run, picks[i])))
  {
    assert forall i :: i in db.instances ==> i !in picks.Keys;
  }

  // ----- one action ------------------------------------------------------------------------------

  lemma CreateBatchEvolves(s: State, b: BatchId, run: RunId, picks: map<InstanceId, Pick>,
                           maxEmbeddings: nat, maxExtracted: Option<nat>)
    ensures Evolves(s.db, DoCreateBatch(s, b, run, picks, maxEmbeddings, maxExtracted).db)
  {
    var s' := DoCreateBatch(s, b, run, picks, maxEmbeddings, maxExtracted);
    if s'.db == s.db {
      Unchanged(s.db);
    } else {
      AddRootsEvolves(s.db, run, picks);
      var mid := s.db.(instances := s'.db.instances);
      PutBatchEvolves(mid, b, s'.db.batches[b]);
      EvolvesTransitive(s.db, mid, s'.db);
    }
  }

  lemma UnlockEvolves(s: State, i: InstanceId)
    ensures Evolves(s.db, Unlock(s, i).db)
  {
    if i in s.db.instances { PutInstanceEvolves(s.db, i, s.db.instances[i].(lock := None)); } else { Unchanged(s.db); }
  }

  lemma EnvironmentEvolves(s: State, a: EnvironmentAction)
    ensures Evolves(s.db, DoEnvironment(s, a).db)
  {
    Unchanged(s.db);
    match a
    case Tick =>
    case Crash(t) => if t in s.workers && s.workers[t].Selecting? { UnlockEvolves(s, s.workers[t].inst); }
    case CreateBatch(b, run, picks, e, x) => CreateBatchEvolves(s, b, run, picks, e, x);
    case CreateUnbatched(run, i, pick) =>
      if i !in s.db.instances && !Batched(s.db, run) { PutInstanceEvolves(s.db, i, NewRoot(run, pick)); }
    case Control(b, to, reason) => TransitionEvolves(s.db, b, to, reason);
  }

  lemma GrantSelectedEvolves(s: State, t: Token)
    ensures Evolves(s.db, DoGrantSelected(s, t).db)
  {
    Unchanged(s.db);
    if t in s.workers && s.workers[t].Selecting? {
      var i := s.workers[t].inst;
      UnlockEvolves(s, i);
      if GrantApplies(s, t) {
        var row := s.db.instances[i].(claim := Some(Claim(s.workers[t].who, s.now)), gen := s.db.instances[i].gen + 1, lock := None);
        PutInstanceEvolves(s.db, i, row);
        assert DoGrantSelected(s, t).db == s.db.(instances := s.db.instances[i := row]);
      }
    }
  }

  lemma InstanceEvolves(s: State, t: Token, a: InstanceAction)
    requires AtInstance(s, t)
    ensures Evolves(s.db, DoInstance(s, t, a).db)
  {
    Unchanged(s.db);
    var i := s.workers[t].inst;
    match a
    case ReadFails => RecordEvolves(s.db, OfInstance(i), FailedRetryable);
    case Identify(g, initial, pieces, created) => CreateGroupEvolves(s.db, g, initial, pieces, created);
    case Assign =>
      if s.workers[t].ipc.Identified? && i in s.db.instances && s.db.instances[i].group.None? {
        PutInstanceEvolves(s.db, i, s.db.instances[i].(group := Some(s.workers[t].ipc.group)));
      }
    case RecordIdentity => RecordEvolves(s.db, OfInstance(i), Succeeded);
    case Abandon =>
    case Leave => if i in s.db.instances { PutInstanceEvolves(s.db, i, s.db.instances[i].(claim := None)); }
  }

  lemma ArchiveCountersEvolve(s: State, t: Token, a: ArchiveAction)
    requires AtInstance(s, t) && (a.Admit? || a.Discharge? || a.Reconcile?)
    ensures Evolves(s.db, DoArchive(s, t, a).db)
  {
    Unchanged(s.db);
    var i, pc := s.workers[t].inst, s.workers[t].ipc;
    match a
    case Admit(charged, _) => if charged.Some? { AddExtractedEvolves(s.db, charged.value, EstimateOf(s.db, i)); }
    case Discharge =>
      if pc.WalkFailed? && pc.charge.Some? { AddExtractedEvolves(s.db, pc.charge.value.batch, 0 - pc.charge.value.amount); }
    case Reconcile =>
      if pc.Walked? && pc.charge.Some? { AddExtractedEvolves(s.db, pc.charge.value.batch, pc.bytes - pc.charge.value.amount); }
  }

  lemma ArchiveRowsEvolve(s: State, t: Token, a: ArchiveAction)
    requires AtInstance(s, t) && (a.CreateMember? || a.IdentifyMember? || a.AssignMember?)
    ensures Evolves(s.db, DoArchive(s, t, a).db)
  {
    Unchanged(s.db);
    var i := s.workers[t].inst;
    match a
    case CreateMember(m, pick) =>
      if i in s.db.instances && m !in s.db.instances {
        PutInstanceEvolves(s.db, m, NewRoot(s.db.instances[i].run, pick).(member := true));
      }
    case IdentifyMember(g, initial, pieces, created) => CreateGroupEvolves(s.db, g, initial, pieces, created);
    case AssignMember(m, g) =>
      if m in s.db.instances && s.db.instances[m].group.None? {
        PutInstanceEvolves(s.db, m, s.db.instances[m].(group := Some(g)));
      }
  }

  lemma ArchiveEvolves(s: State, t: Token, a: ArchiveAction)
    requires AtInstance(s, t)
    ensures Evolves(s.db, DoArchive(s, t, a).db)
  {
    if a.Admit? || a.Discharge? || a.Reconcile? {
      ArchiveCountersEvolve(s, t, a);
    } else if a.CreateMember? || a.IdentifyMember? || a.AssignMember? {
      ArchiveRowsEvolve(s, t, a);
    } else {
      Unchanged(s.db);
      RecordEvolves(s.db, OfInstance(s.workers[t].inst), Succeeded);
      RecordEvolves(s.db, OfInstance(s.workers[t].inst), FailedRetryable);
      RecordEvolves(s.db, OfInstance(s.workers[t].inst), FailedDurable);
    }
  }

  lemma GroupDocsEvolve(s: State, t: Token, a: GroupAction)
    requires AtGroup(s, t) && (a.WriteDocument? || a.WriteChunks? || a.Embed?)
    ensures Evolves(s.db, DoGroup(s, t, a).db)
  {
    Unchanged(s.db);
    var g := s.workers[t].group;
    match a
    case WriteDocument => if g !in s.db.docs { WriteDocsEvolves(s.db, g, []); }
    case WriteChunks => if g in s.db.docs { WriteDocsEvolves(s.db, g, DoWriteChunks(s, t).db.docs[g]); }
    case Embed(stored) => if g in s.db.docs { WriteDocsEvolves(s.db, g, WithVectors(s.db.docs[g], stored)); }
  }

  lemma GroupRecordsEvolve(s: State, t: Token, a: GroupAction)
    requires AtGroup(s, t) && (a.RecordPrepared? || a.RecordStored? || a.RecordFailure?)
    ensures Evolves(s.db, DoGroup(s, t, a).db)
  {
    Unchanged(s.db);
    RecordEvolves(s.db, OfGroup(s.workers[t].group), if a.RecordFailure? then FailedRetryable else Succeeded);
  }

  lemma GroupReservationsEvolve(s: State, t: Token, a: GroupAction)
    requires AtGroup(s, t) && (a.ReserveFor? || a.Consume? || a.Free?)
    ensures Evolves(s.db, DoGroup(s, t, a).db)
  {
    Unchanged(s.db);
    var w := s.workers[t];
    match a
    case ReserveFor(_) => if w.pc.Reserving? { ReserveEvolves(s.db, w.group, w.gen, w.pc.batch, |w.pc.todo|); }
    case Consume => ClearEvolves(s.db, w.group, w.gen);
    case Free => FreeEvolves(s.db, w.group, w.gen);
  }

  /** The only writes of a pipeline state are releases, and a release that applies moves it forward. */
  lemma GroupReleasesEvolve(s: State, t: Token, a: GroupAction)
    requires Inv(s) && AtGroup(s, t) && (a.ReleaseFreed? || a.Release?)
    ensures Evolves(s.db, DoGroup(s, t, a).db)
  {
    Unchanged(s.db);
    var w := s.workers[t];
    assert CallOk(s.db, w);
    if a.ReleaseFreed? {
      ReleaseEvolves(s.db, w.group, w.gen, None);
    } else if w.pc.Releasing? {
      ReleaseEvolves(s.db, w.group, w.gen, w.pc.to);
    }
  }

  predicate OnlyLooks(a: GroupAction)
  {
    a.Raise? || a.Fail? || a.ReadPending? || a.ResolveBatch? || a.CountRemaining?
  }

  lemma GroupEvolves(s: State, t: Token, a: GroupAction)
    requires Inv(s) && AtGroup(s, t)
    ensures Evolves(s.db, DoGroup(s, t, a).db)
  {
    if OnlyLooks(a) {
      Unchanged(s.db);
      assert DoGroup(s, t, a).db == s.db;
    } else if a.ReleaseFreed? || a.Release? {
      GroupReleasesEvolve(s, t, a);
    } else if a.ReserveFor? || a.Consume? || a.Free? {
      GroupReservationsEvolve(s, t, a);
    } else if a.RecordPrepared? || a.RecordStored? || a.RecordFailure? {
      GroupRecordsEvolve(s, t, a);
    } else {
      GroupDocsEvolve(s, t, a);
    }
  }

  lemma CheckEvolves(s: State, t: Token, a: CheckAction)
    requires AtCheck(s, t)
    ensures Evolves(s.db, DoCheck(s, t, a).db)
  {
    Unchanged(s.db);
    TransitionEvolves(s.db, s.workers[t].batch, Completed, Some(SourceWorkExhausted));
  }

  lemma SelectEvolves(s: State, t: Token, i: InstanceId, who: WorkerId, queue: Queue, run: Option<RunId>, lease: nat)
    ensures Evolves(s.db, DoSelectInstance(s, t, i, who, queue, run, lease).db)
  {
    Unchanged(s.db);
    if i in s.db.instances { PutInstanceEvolves(s.db, i, s.db.instances[i].(lock := Some(t))); }
  }

  lemma ClaimEvolves(s: State, t: Token, g: GroupId, stage: Stage, who: WorkerId, lease: nat)
    ensures Evolves(s.db, DoClaimGroup(s, t, g, stage, who, lease).db)
  {
    Unchanged(s.db);
    if g in s.db.groups { GrantEvolves(s.db, g, who, s.now); }
  }

  lemma CallEvolves(s: State, a: Action)
    requires Inv(s) && (a.InstanceStep? || a.ArchiveStep? || a.GroupStep? || a.CheckStep?)
    ensures Evolves(s.db, Do(s, a).db)
  {
    Unchanged(s.db);
    match a
    case InstanceStep(t, ia) => if AtInstance(s, t) { InstanceEvolves(s, t, ia); }
    case ArchiveStep(t, aa) => if AtInstance(s, t) { ArchiveEvolves(s, t, aa); }
    case GroupStep(t, ga) => if AtGroup(s, t) { GroupEvolves(s, t, ga); }
    case CheckStep(t, ca) => if AtCheck(s, t) { CheckEvolves(s, t, ca); }
  }

  lemma ActionEvolves(s: State, a: Action)
    requires Inv(s)
    ensures Evolves(s.db, Do(s, a).db)
  {
    match a
    case Environment(env) => EnvironmentEvolves(s, env);
    case SelectInstance(t, i, who, queue, run, lease) => SelectEvolves(s, t, i, who, queue, run, lease);
    case GrantSelected(t) => GrantSelectedEvolves(s, t);
    case ClaimGroup(t, g, stage, who, lease) => ClaimEvolves(s, t, g, stage, who, lease);
    case StartCheck(t, b) =>
      Unchanged(s.db);
      assert DoStartCheck(s, t, b).db == s.db;
    case _ => CallEvolves(s, a);
  }

  lemma {:induction false} RunEvolves(s: State, actions: seq<Action>)
    requires Inv(s)
    ensures Inv(Run(s, actions)) && Evolves(s.db, Run(s, actions).db)
    decreases |actions|
  {
    if actions == [] {
      Unchanged(s.db);
    } else {
      var before := actions[..|actions| - 1];
      RunEvolves(s, before);
      ActionEvolves(Run(s, before), actions[|actions| - 1]);
      InvKept(Run(s, before), actions[|actions| - 1]);
      EvolvesTransitive(s.db, Run(s, before).db, Run(s, actions).db);
    }
  }

  lemma LaterEvolves(s: State, s': State)
    requires Reachable(s) && Later(s, s')
    ensures Reachable(s') && Inv(s) && Inv(s') && Evolves(s.db, s'.db)
  {
    InvReachable(s);
    LaterTransitive(EMPTY, s, s');
    var actions :| s' == Run(s, actions);
    RunEvolves(s, actions);
  }

  /** Between any two moments of any interleaving a group's state only moves forward, and a terminal
      state is never left. */
  lemma StatesMoveForward(s: State, s': State, g: GroupId)
    requires Reachable(s) && Later(s, s') && g in s.db.groups
    ensures g in s'.db.groups && Forward(s.db.groups[g].state, s'.db.groups[g].state)
    ensures s.db.groups[g].state in TERMINAL ==> s'.db.groups[g].state == s.db.groups[g].state
  {
    LaterEvolves(s, s');
    assert GroupMoved(s.db.groups[g], s'.db.groups[g]);
  }
}
