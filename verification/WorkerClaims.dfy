/** `WorkerClaimService` statement by statement, over one database session. Each method is proved to
    leave the tables exactly as the transaction of the same name in `Tables` does. */
module WorkerClaims {
  import opened Collections
  import opened Tables
  import opened Protocol

  /** One database session: the tables as its current transaction sees them, and the clock. */
  class Session {
    var db: Db
    var now: int

    constructor (db: Db, now: int)
      ensures this.db == db && this.now == now
    {
      this.db := db;
      this.now := now;
    }
  }

  datatype Denial = FencedOut | BatchNotFound | BatchNotRunning | EnvelopeExhausted | GuardSoftStop | GuardHardStop

  datatype ReservationOutcome = Reserved(amount: nat) | Denied(reason: Denial)

  /** What the candidate SELECT of `claim_content_identity_group` can return; `locked` are the rows
      other transactions hold, which SKIP LOCKED passes over. */
  function GroupCandidates(db: Db, eligible: set<PipelineState>, staleBefore: int, locked: set<GroupId>): set<GroupId>
  {
    set g | g in db.groups && g !in locked && db.groups[g].state in eligible && FreeOrStale(db.groups[g].claim, staleBefore)
  }

  function InstanceCandidates(db: Db, queue: Queue, run: Option<RunId>, exclude: set<InstanceId>,
                              staleBefore: int): set<InstanceId>
  {
    set i | i in db.instances && Candidate(db, queue, i, staleBefore) && db.instances[i].lock.None? && Gate(db, run) &&
            (run.Some? ==> db.instances[i].run == run.value) && i !in exclude
  }

  predicate OldestGroup(db: Db, g: GroupId, candidates: set<GroupId>)
  {
    g in candidates && g in db.groups &&
    forall h :: h in candidates && h in db.groups ==> db.groups[g].created <= db.groups[h].created
  }

  predicate OldestInstance(db: Db, i: InstanceId, candidates: set<InstanceId>)
  {
    i in candidates && i in db.instances &&
    forall j :: j in candidates && j in db.instances ==> db.instances[i].created <= db.instances[j].created
  }

  /** Another transaction pauses these batches between this one's SELECT and its UPDATE. */
  function PauseAll(db: Db, paused: set<BatchId>): Db
  {
    db.(batches := map b | b in db.batches ::
          if b in paused && db.batches[b].status == Running
          then db.batches[b].(status := Paused, stopReason := Some(ManualPause)) else db.batches[b])
  }

  /** A group that is to be claimed next or after older ones: in an eligible state, not locked by another
      transaction, and not claimed or claimed longer ago than the lease. */
  predicate GroupInLine(db: Db, g: GroupId, eligible: set<PipelineState>, locked: set<GroupId>, now: int, lease: nat)
  {
    g in db.groups && g !in locked && db.groups[g].state in eligible &&
    (db.groups[g].claim.Some? ==> db.groups[g].claim.value.at + lease < now)
  }

  lemma GroupsAreInLine(db: Db, eligible: set<PipelineState>, locked: set<GroupId>, now: int, lease: nat)
    ensures forall g :: g in GroupCandidates(db, eligible, now - lease, locked) <==> GroupInLine(db, g, eligible, locked, now, lease)
  {}

  /** A claim keeps others out for as long as its lease runs: a row in an eligible state that no transaction
      has locked is left out exactly while it is claimed and the claim is at most the lease old. */
  lemma LeaseKeepsGroup(db: Db, g: GroupId, eligible: set<PipelineState>, now: int, lease: nat, locked: set<GroupId>)
    requires g in db.groups && g !in locked && db.groups[g].state in eligible
    ensures g !in GroupCandidates(db, eligible, now - lease, locked) <==>
            db.groups[g].claim.Some? && now <= db.groups[g].claim.value.at + lease
  {}

  /** An instance that is to be claimed next or after older ones: an unresolved root of the queue's kind (of the
      run, if one is given, while a batch of the run is RUNNING), not excluded, not locked, and not claimed or
      claimed longer ago than the lease. */
  predicate InLine(db: Db, i: InstanceId, queue: Queue, run: Option<RunId>, exclude: set<InstanceId>, now: int, lease: nat)
  {
    i in db.instances && i !in exclude &&
    var row := db.instances[i];
    !row.member && row.group.None? && row.lock.None? && (row.archiveSuffix <==> queue.ArchiveQueue?) &&
    (queue.ArchiveQueue? ==> Attempt(OfInstance(i), Succeeded) !in db.attempts) &&
    (run.Some? ==> row.run == run.value) && RunsAt(db, run) &&
    (row.claim.Some? ==> row.claim.value.at + lease < now)
  }

  /** A RUNNING batch has the run, if one is given. */
  predicate RunsAt(db: Db, run: Option<RunId>)
  {
    run.Some? ==> exists b :: b in db.batches && db.batches[b].run == run.value && db.batches[b].status == Running
  }

  /** The candidates of both queues are the rows in line. */
  lemma CandidatesAreInLine(db: Db, queue: Queue, run: Option<RunId>, exclude: set<InstanceId>, now: int, lease: nat)
    ensures forall i :: i in InstanceCandidates(db, queue, run, exclude, now - lease) <==> InLine(db, i, queue, run, exclude, now, lease)
  {}

  /** The same for both queues of instances, for a row the queue is about. */
  lemma LeaseKeepsInstance(db: Db, i: InstanceId, queue: Queue, run: Option<RunId>, exclude: set<InstanceId>, now: int,
                           lease: nat)
    requires i in db.instances && db.instances[i].lock.None? && i !in exclude
    requires !db.instances[i].member && db.instances[i].group.None?
    requires if queue.ArchiveQueue? then db.instances[i].archiveSuffix && Attempt(OfInstance(i), Succeeded) !in db.attempts
             else !db.instances[i].archiveSuffix
    requires run.Some? ==> db.instances[i].run == run.value
    requires run.Some? ==> exists b :: b in db.batches && db.batches[b].run == run.value && db.batches[b].status == Running
    ensures i !in InstanceCandidates(db, queue, run, exclude, now - lease) <==>
            db.instances[i].claim.Some? && now <= db.instances[i].claim.value.at + lease
  {}

  class WorkerClaimService {
    const session: Session

    constructor (session: Session)
      ensures this.session == session
    {
      this.session := session;
    }

    /** Grants the oldest row that is in an eligible state, not locked by another transaction, and either not
        claimed or claimed longer ago than the lease; nothing, exactly if there is no such row. The abandoned
        reservation of the row goes back to the batch it names. */
    method ClaimContentIdentityGroup(who: WorkerId, eligible: set<PipelineState>, lease: nat, locked: set<GroupId>,
                                     marker: Option<PipelineState>) returns (claimed: Option<GroupId>)
      modifies session`db
      ensures var candidates := GroupCandidates(old(session.db), eligible, session.now - lease, locked);
              claimed.None? ==> candidates == {} && session.db == old(session.db)
      ensures claimed.Some? ==>
                OldestGroup(old(session.db), claimed.value,
                            GroupCandidates(old(session.db), eligible, session.now - lease, locked))
      ensures claimed.Some? ==> session.db == GrantGroup(old(session.db), claimed.value, who, session.now, marker)
      ensures forall g :: GroupInLine(old(session.db), g, eligible, locked, session.now, lease) ==>
                claimed.Some? && claimed.value in old(session.db.groups) &&
                old(session.db.groups)[claimed.value].created <= old(session.db.groups)[g].created
      ensures claimed.Some? ==>
                GroupInLine(old(session.db), claimed.value, eligible, locked, session.now, lease) &&
                var row := old(session.db.groups)[claimed.value];
                session.db.groups == old(session.db.groups)[claimed.value :=
                  Group(if marker.Some? then marker.value else row.state, Some(Claim(who, session.now)), row.gen + 1, None,
                        row.pieces, row.created)] &&
                session.db.batches.Keys == old(session.db.batches.Keys) &&
                (forall b :: b in session.db.batches ==>
                   session.db.batches[b] == old(session.db.batches)[b].(embeddingsReserved :=
                     old(session.db.batches)[b].embeddingsReserved -
                     if row.reserved.Some? && row.reserved.value.batch == b then row.reserved.value.amount else 0))
      ensures session.db == old(session.db).(groups := session.db.groups, batches := session.db.batches)
    {
      var db := session.db;
      var candidates := GroupCandidates(db, eligible, session.now - lease, locked);
      GroupsAreInLine(db, eligible, locked, session.now, lease);
      if candidates == {} { return None; }
      ghost var oldest := LeastExists(candidates, h => if h in db.groups then db.groups[h].created else 0);
      assert OldestGroup(db, oldest, candidates);
      var g :| g in candidates && OldestGroup(db, g, candidates);
      var abandoned := db.groups[g].reserved;
      if abandoned.Some? {
        session.db := session.db.(batches := Credit(session.db.batches, abandoned.value.batch, abandoned.value.amount));
      }
      var values := db.groups[g].(claim := Some(Claim(who, session.now)), gen := db.groups[g].gen + 1, reserved := None);
      if marker.Some? { values := values.(state := marker.value); }
      session.db := session.db.(groups := session.db.groups[g := values]);
      return Some(g);
    }

    /** Fenced: a caller whose generation has been superseded changes nothing. */
    method ReleaseContentIdentityGroupClaim(g: GroupId, gen: nat, to: Option<PipelineState>) returns (applied: bool)
      modifies session`db
      ensures applied == HoldsGroup(old(session.db), g, gen)
      ensures session.db == ReleaseGroup(old(session.db), g, gen, to)
      ensures applied <==> g in old(session.db.groups) && old(session.db.groups)[g].gen == gen
      ensures session.db == if !applied then old(session.db) else
                var row := old(session.db.groups)[g];
                old(session.db).(groups := old(session.db.groups)[g :=
                  Group(if to.Some? then to.value else row.state, None, gen, row.reserved, row.pieces, row.created)])
    {
      applied := g in session.db.groups && session.db.groups[g].gen == gen;
      if applied {
        var values := session.db.groups[g].(claim := None);
        if to.Some? { values := values.(state := to.value); }
        session.db := session.db.(groups := session.db.groups[g := values]);
      }
    }

    /** The candidate SELECT and the UPDATE of both instance claims. Between the two, other
        transactions may pause batches: the grant goes through exactly when there was a candidate and
        the run's batch is still RUNNING at the UPDATE. */
    method ClaimSourceInstance(who: WorkerId, queue: Queue, lease: nat, run: Option<RunId>, exclude: set<InstanceId>,
                               paused: set<BatchId>) returns (claimed: Option<InstanceId>)
      modifies session`db
      ensures var candidates := InstanceCandidates(old(session.db), queue, run, exclude, session.now - lease);
              var atUpdate := PauseAll(old(session.db), paused);
              claimed.None? ==> (candidates == {} || !Gate(atUpdate, run)) && session.db == atUpdate
      ensures claimed.Some? ==>
                OldestInstance(old(session.db), claimed.value,
                               InstanceCandidates(old(session.db), queue, run, exclude, session.now - lease))
      ensures var atUpdate := PauseAll(old(session.db), paused);
              claimed.Some? ==> Gate(atUpdate, run) && session.db == GrantInstance(atUpdate, claimed.value, who, session.now)
      ensures session.db.batches == PauseAll(old(session.db), paused).batches
      ensures forall i :: InLine(old(session.db), i, queue, run, exclude, session.now, lease) && RunsAt(session.db, run) ==>
                claimed.Some? && claimed.value in old(session.db.instances) &&
                old(session.db.instances)[claimed.value].created <= old(session.db.instances)[i].created
      ensures claimed.Some? ==>
                InLine(old(session.db), claimed.value, queue, run, exclude, session.now, lease) && RunsAt(session.db, run) &&
                var row := old(session.db.instances)[claimed.value];
                session.db.instances == old(session.db.instances)[claimed.value :=
                  row.(claim := Some(Claim(who, session.now)), gen := row.gen + 1)]
    {
      var db := session.db;
      var candidates := InstanceCandidates(db, queue, run, exclude, session.now - lease);
      CandidatesAreInLine(db, queue, run, exclude, session.now, lease);
      session.db := PauseAll(session.db, paused);
      if candidates == {} { return None; }
      ghost var oldest := LeastExists(candidates, j => if j in db.instances then db.instances[j].created else 0);
      assert OldestInstance(db, oldest, candidates);
      var i :| i in candidates && OldestInstance(db, i, candidates);
      var row := session.db.instances[i];
      if !FreeOrStale(row.claim, session.now - lease) || !Gate(session.db, run) { return None; }
      session.db := session.db.(instances := session.db.instances[i :=
        row.(claim := Some(Claim(who, session.now)), gen := row.gen + 1)]);
      return Some(i);
    }

    method ReleaseSourceInstanceClaim(i: InstanceId, gen: nat) returns (applied: bool)
      modifies session`db
      ensures applied == HoldsInstance(old(session.db), i, gen)
      ensures session.db == ReleaseInstance(old(session.db), i, gen)
      ensures applied <==> i in old(session.db.instances) && old(session.db.instances)[i].gen == gen
      ensures session.db == if !applied then old(session.db) else
                old(session.db).(instances := old(session.db.instances)[i := old(session.db.instances)[i].(claim := None)])
    {
      applied := i in session.db.instances && session.db.instances[i].gen == gen;
      if applied {
        session.db := session.db.(instances := session.db.instances[i := session.db.instances[i].(claim := None)]);
      }
    }

    /** All of `n` or nothing: the group is written first and rolled back when the batch refuses, and
        every denial releases the caller's claim. */
    method ReserveEmbeddings(g: GroupId, gen: nat, b: BatchId, n: nat, guard: Option<Tier>)
      returns (outcome: ReservationOutcome)
      modifies session`db
      ensures outcome.Reserved? <==> CanReserve(old(session.db), g, gen, b, n) && guard in {None, Some(Normal)}
      ensures outcome.Reserved? ==> outcome.amount == n && session.db == Reserve(old(session.db), g, gen, b, n)
      ensures outcome.Denied? ==> session.db == ReleaseGroup(old(session.db), g, gen, None)
      ensures outcome == Denied(BatchNotFound) <==> b !in old(session.db.batches)
      ensures outcome == Denied(FencedOut) ==> !HoldsGroup(old(session.db), g, gen) && session.db == old(session.db)
      ensures outcome == Denied(BatchNotRunning) ==> b in old(session.db.batches) && old(session.db.batches)[b].status != Running
      ensures outcome == Denied(EnvelopeExhausted) ==>
                b in old(session.db.batches) &&
                old(session.db.batches)[b].embeddingsReserved + n > old(session.db.batches)[b].maxEmbeddings
      ensures outcome in {Denied(GuardSoftStop), Denied(GuardHardStop)} ==> guard.Some? && guard.value != Normal
      ensures outcome.Reserved? <==>
                guard in {None, Some(Normal)} && g in old(session.db.groups) && old(session.db.groups)[g].gen == gen &&
                b in old(session.db.batches) && old(session.db.batches)[b].status == Running &&
                old(session.db.batches)[b].embeddingsReserved + n <= old(session.db.batches)[b].maxEmbeddings
      ensures outcome.Reserved? ==>
                var row, batch := old(session.db.groups)[g], old(session.db.batches)[b];
                session.db == old(session.db).(
                  groups := old(session.db.groups)[g := row.(reserved := Some(Reservation(n, b)))],
                  batches := old(session.db.batches)[b := batch.(embeddingsReserved := batch.embeddingsReserved + n)])
      ensures outcome.Denied? ==>
                session.db == old(session.db).(groups := session.db.groups) &&
                session.db.groups == if g in old(session.db.groups) && old(session.db.groups)[g].gen == gen
                                     then old(session.db.groups)[g := old(session.db.groups)[g].(claim := None)] else old(session.db.groups)
    {
      if b !in session.db.batches {
        var _ := ReleaseContentIdentityGroupClaim(g, gen, None);
        return Denied(BatchNotFound);
      }
      if guard.Some? && guard.value != Normal {
        var _ := ReleaseContentIdentityGroupClaim(g, gen, None);
        return Denied(if guard.value == HardStop then GuardHardStop else GuardSoftStop);
      }
      var committed := session.db;
      if g !in session.db.groups || session.db.groups[g].gen != gen {
        session.db := committed;
        var _ := ReleaseContentIdentityGroupClaim(g, gen, None);
        return Denied(FencedOut);
      }
      session.db := session.db.(groups := session.db.groups[g := session.db.groups[g].(reserved := Some(Reservation(n, b)))]);
      var batch := session.db.batches[b];
      if batch.status != Running || batch.embeddingsReserved + n > batch.maxEmbeddings {
        session.db := committed;
        var _ := ReleaseContentIdentityGroupClaim(g, gen, None);
        return Denied(if batch.status != Running then BatchNotRunning else EnvelopeExhausted);
      }
      session.db := session.db.(batches := session.db.batches[b := batch.(embeddingsReserved := batch.embeddingsReserved + n)]);
      return Reserved(n);
    }

    /** The caller holds the row and a reservation on it. */
    predicate Reserving(g: GroupId, gen: nat)
      reads session
    {
      g in session.db.groups && session.db.groups[g].gen == gen && session.db.groups[g].reserved.Some?
    }

    /** The batch counter keeps what was consumed. */
    method ConsumeEmbeddingReservation(g: GroupId, gen: nat, to: PipelineState) returns (applied: bool)
      modifies session`db
      ensures applied == HoldsReservation(old(session.db), g, gen)
      ensures session.db == if applied then ReleaseGroup(ClearReservation(old(session.db), g, gen), g, gen, Some(to))
                            else old(session.db)
      ensures applied <==> old(Reserving(g, gen))
      ensures session.db == if !applied then old(session.db) else
                var row := old(session.db.groups)[g];
                old(session.db).(groups := old(session.db.groups)[g := Group(to, None, gen, None, row.pieces, row.created)])
    {
      if g !in session.db.groups || session.db.groups[g].gen != gen || session.db.groups[g].reserved.None? { return false; }
      session.db := session.db.(groups := session.db.groups[g := session.db.groups[g].(reserved := None)]);
      applied := ReleaseContentIdentityGroupClaim(g, gen, Some(to));
    }

    /** Gives the reserved amount back to the batch the row itself names. */
    method ReleaseEmbeddingReservation(g: GroupId, gen: nat) returns (applied: bool)
      modifies session`db
      ensures applied == HoldsReservation(old(session.db), g, gen)
      ensures session.db == if applied then ReleaseGroup(FreeReservation(old(session.db), g, gen), g, gen, None)
                            else old(session.db)
      ensures applied <==> old(Reserving(g, gen))
      ensures !applied ==> session.db == old(session.db)
      ensures applied ==>
                var row := old(session.db.groups)[g];
                session.db.groups == old(session.db.groups)[g := Group(row.state, None, gen, None, row.pieces, row.created)] &&
                session.db.batches.Keys == old(session.db.batches.Keys) &&
                (forall b :: b in session.db.batches ==>
                   session.db.batches[b] == old(session.db.batches)[b].(embeddingsReserved :=
                     old(session.db.batches)[b].embeddingsReserved - if b == row.reserved.value.batch then row.reserved.value.amount else 0)) &&
                session.db == old(session.db).(groups := session.db.groups, batches := session.db.batches)
    {
      if g !in session.db.groups || session.db.groups[g].gen != gen || session.db.groups[g].reserved.None? { return false; }
      var held := session.db.groups[g].reserved.value;
      session.db := session.db.(groups := session.db.groups[g := session.db.groups[g].(reserved := None)]);
      session.db := session.db.(batches := Credit(session.db.batches, held.batch, held.amount));
      var _ := ReleaseContentIdentityGroupClaim(g, gen, None);
      return true;
    }
  }
}
