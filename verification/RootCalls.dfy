/** The two services that work on selected roots, identity resolution and archive processing: what one
    call does to the tables, and that every call is a run of the protocol. */
module RootCalls {
  import opened Collections
  import opened Tables
  import opened Protocol
  import opened WorkerClaims
  import opened Stages
  import opened ArchiveTables
  import ArchiveWalk

  // ----- the two root services --------------------------------------------------------------------

  /** What reading a root file yields: nothing, or content with the state its group would start in. */
  datatype Source = Unreadable | Bytes(hash: GroupId, initial: InitialState, pieces: nat)

  function InstanceGen(db: Db, i: InstanceId): nat
  {
    if i in db.instances then db.instances[i].gen else 0
  }

  function Claimed(db: Db, i: InstanceId, who: WorkerId, now: int): Db
  {
    if i in db.instances then GrantInstance(db, i, who, now) else db
  }

  function ResolveCall(db: Db, i: InstanceId, who: WorkerId, now: int, source: Source): Db
  {
    var claimed := Claimed(db, i, who, now);
    var worked := match source
      case Unreadable => Record(claimed, OfInstance(i), FailedRetryable)
      case Bytes(hash, initial, pieces) =>
        Record(AssignIdentity(GetOrCreateGroup(claimed, hash, initial, pieces, 0), i, hash), OfInstance(i), Succeeded);
    ReleaseInstance(worked, i, InstanceGen(claimed, i))
  }

  predicate Refused(db: Db, batch: Option<BatchId>, estimate: nat, guarded: bool)
  {
    batch.Some? && batch.value in db.batches && (guarded || !Admits(db.batches[batch.value], estimate))
  }

  /** The batch whose byte counter an admitted archive is charged to. */
  function Charges(db: Db, batch: Option<BatchId>): Option<BatchId>
  {
    if batch.Some? && batch.value in db.batches && db.batches[batch.value].maxExtracted.Some? then batch else None
  }

  function Charged(db: Db, charge: Option<BatchId>, delta: int): Db
  {
    if charge.Some? then AddExtracted(db, charge.value, delta) else db
  }

  function Outcomes(result: ArchiveWalk.Result): Outcome
  {
    if result.Returned? then Succeeded else if result.TooDeep? then FailedDurable else FailedRetryable
  }

  /** The part of an archive call between the claim and the release. */
  function ArchiveWork(claimed: Db, i: InstanceId, batch: Option<BatchId>, guarded: bool, x: Extraction): Db
  {
    var estimate := EstimateOf(claimed, i);
    if Refused(claimed, batch, estimate, guarded) then claimed else
      var charge := Charges(claimed, batch);
      var walked := Performing(Charged(claimed, charge, estimate), i, x.names, WalkOf(x).ops);
      Record(Charged(walked, charge, if WalkOf(x).result.Returned? then WalkOf(x).bytes - estimate else 0 - estimate), OfInstance(i), Outcomes(WalkOf(x).result))
  }

  function ArchiveCall(db: Db, i: InstanceId, who: WorkerId, now: int, batch: Option<BatchId>, guarded: bool,
                       x: Extraction): Db
  {
    var claimed := Claimed(db, i, who, now);
    ReleaseInstance(ArchiveWork(claimed, i, batch, guarded, x), i, InstanceGen(claimed, i))
  }

  /** What an identity call leaves: a file that cannot be read is a retryable failure and nothing else; one that
      can gives the row the group of its content, which is created if there is none, and is a success. The claim
      is given back, one generation on. */
  predicate Resolved(db: Db, db': Db, i: InstanceId, source: Source)
  {
    i in db.instances && db.instances[i].group.None? &&
    var row := db.instances[i].(claim := None, gen := db.instances[i].gen + 1);
    match source
    case Unreadable =>
      db' == db.(instances := db.instances[i := row], attempts := db.attempts + {Attempt(OfInstance(i), FailedRetryable)})
    case Bytes(hash, initial, pieces) =>
      db' == db.(instances := db.instances[i := row.(group := Some(hash))], attempts := db.attempts + {Attempt(OfInstance(i), Succeeded)},
                 groups := if hash in db.groups then db.groups else db.groups[hash := Group(initial, None, 0, None, pieces, 0)])
  }

  lemma UnreadableIsResolved(db: Db, i: InstanceId, who: WorkerId, now: int)
    requires i in db.instances && db.instances[i].group.None?
    ensures Resolved(db, ResolveCall(db, i, who, now, Unreadable), i, Unreadable)
  {}

  lemma BytesAreResolved(db: Db, i: InstanceId, who: WorkerId, now: int, hash: GroupId, initial: InitialState, pieces: nat)
    requires i in db.instances && db.instances[i].group.None?
    ensures Resolved(db, ResolveCall(db, i, who, now, Bytes(hash, initial, pieces)), i, Bytes(hash, initial, pieces))
  {}

  lemma ResolveCallMeans(db: Db, i: InstanceId, who: WorkerId, now: int, source: Source)
    requires i in db.instances && db.instances[i].group.None?
    ensures Resolved(db, ResolveCall(db, i, who, now, source), i, source)
  {
    match source
    case Unreadable => UnreadableIsResolved(db, i, who, now);
    case Bytes(hash, initial, pieces) => BytesAreResolved(db, i, who, now, hash, initial, pieces);
  }

  /** An archive is turned away exactly if it is to be charged to a batch and the guard refuses, the batch is not
      RUNNING, or the declared size does not fit. */
  predicate TurnedAway(db: Db, batch: Option<BatchId>, declared: nat, guarded: bool)
  {
    batch.Some? && batch.value in db.batches &&
    var b := db.batches[batch.value];
    guarded || b.status != Running || (b.maxExtracted.Some? && b.extracted + declared > b.maxExtracted.value)
  }

  lemma RefusedExactly(db: Db, batch: Option<BatchId>, declared: nat, guarded: bool)
    ensures Refused(db, batch, declared, guarded) <==> TurnedAway(db, batch, declared, guarded)
  {}

  /** The whole tree is readable and nested no deeper than allowed. */
  predicate Extractable(x: Extraction)
  {
    ArchiveWalk.Readable(x.tree) && ArchiveWalk.Nesting(x.tree) <= x.maxDepth
  }

  /** One attempt is recorded: a success exactly if the whole tree could be extracted, a durable failure exactly if
      the walk ended too deep, a retryable one exactly if it ended at something unreadable. */
  predicate AttemptNoted(db: Db, db': Db, i: InstanceId, x: Extraction)
  {
    exists outcome ::
      db'.attempts == db.attempts + {Attempt(OfInstance(i), outcome)} && (outcome == Succeeded <==> Extractable(x)) &&
      (outcome == FailedDurable <==> WalkOf(x).result == ArchiveWalk.TooDeep) &&
      (outcome == FailedRetryable <==> WalkOf(x).result == ArchiveWalk.Broken)
  }

  /** The batch the call is made for, if it has a byte envelope, pays for the bytes of the whole tree on success,
      and nobody pays for anything otherwise. */
  predicate ArchivePaid(db: Db, db': Db, batch: Option<BatchId>, x: Extraction)
  {
    db'.batches.Keys == db.batches.Keys &&
    forall b :: b in db.batches ==>
      db'.batches[b] == db.batches[b].(extracted := db.batches[b].extracted +
        if batch == Some(b) && db.batches[b].maxExtracted.Some? && Extractable(x) then ArchiveWalk.TreeBytes(x.tree) else 0)
  }

  /** The root's own row is unclaimed again and one generation on. */
  predicate RootGivenBack(db: Db, db': Db, i: InstanceId)
  {
    i in db.instances && i in db'.instances &&
    db'.instances[i] == db.instances[i].(claim := None, gen := db.instances[i].gen + 1)
  }

  lemma WorkMeans(claimed: Db, i: InstanceId, batch: Option<BatchId>, guarded: bool, x: Extraction)
    requires i in claimed.instances && !claimed.instances[i].member && !Refused(claimed, batch, EstimateOf(claimed, i), guarded)
    ensures var db' := ArchiveWork(claimed, i, batch, guarded, x);
            AttemptNoted(claimed, db', i, x) && ArchivePaid(claimed, db', batch, x) && i in db'.instances &&
            db'.instances[i] == claimed.instances[i]
  {
    var estimate, charge := EstimateOf(claimed, i), Charges(claimed, batch);
    ArchiveWalk.WalkSucceedsExactly(x.tree, [], 0, x.maxDepth);
    WalkIsWalkStep(Charged(claimed, charge, estimate), i, x.names, WalkOf(x).ops);
    assert ArchiveWork(claimed, i, batch, guarded, x).attempts == claimed.attempts + {Attempt(OfInstance(i), Outcomes(WalkOf(x).result))};
  }

  /** What an archive call that is not turned away leaves of the root's row, the attempts and the counters. */
  lemma ArchiveCallMeans(db: Db, i: InstanceId, who: WorkerId, now: int, batch: Option<BatchId>, guarded: bool,
                         x: Extraction)
    requires i in db.instances && !db.instances[i].member && !TurnedAway(db, batch, db.instances[i].declared, guarded)
    ensures var db' := ArchiveCall(db, i, who, now, batch, guarded, x);
            RootGivenBack(db, db', i) && AttemptNoted(db, db', i, x) && ArchivePaid(db, db', batch, x)
  {
    var claimed := Claimed(db, i, who, now);
    RefusedExactly(claimed, batch, EstimateOf(claimed, i), guarded);
    WorkMeans(claimed, i, batch, guarded, x);
    var outcome :| ArchiveWork(claimed, i, batch, guarded, x).attempts == claimed.attempts + {Attempt(OfInstance(i), outcome)} &&
                   (outcome == Succeeded <==> Extractable(x)) &&
                   (outcome == FailedDurable <==> WalkOf(x).result == ArchiveWalk.TooDeep) &&
                   (outcome == FailedRetryable <==> WalkOf(x).result == ArchiveWalk.Broken);
    assert ArchiveCall(db, i, who, now, batch, guarded, x).attempts == db.attempts + {Attempt(OfInstance(i), outcome)};
  }

  /** A call that is turned away only moves the root's generation on. */
  lemma TurnedAwayMeans(db: Db, i: InstanceId, who: WorkerId, now: int, batch: Option<BatchId>, guarded: bool,
                        x: Extraction)
    requires i in db.instances && TurnedAway(db, batch, db.instances[i].declared, guarded)
    ensures var db' := ArchiveCall(db, i, who, now, batch, guarded, x);
            RootGivenBack(db, db', i) && db' == db.(instances := db.instances[i := db'.instances[i]])
  {
    RefusedExactly(db, batch, db.instances[i].declared, guarded);
  }

  /** Both cases together. */
  predicate Processed(db: Db, db': Db, i: InstanceId, batch: Option<BatchId>, guarded: bool, x: Extraction)
  {
    RootGivenBack(db, db', i) &&
    if TurnedAway(db, batch, db.instances[i].declared, guarded) then db' == db.(instances := db.instances[i := db'.instances[i]])
    else AttemptNoted(db, db', i, x) && ArchivePaid(db, db', batch, x)
  }

  lemma ArchiveIsProcessed(db: Db, i: InstanceId, who: WorkerId, now: int, batch: Option<BatchId>, guarded: bool, x: Extraction)
    requires i in db.instances && !db.instances[i].member
    ensures Processed(db, ArchiveCall(db, i, who, now, batch, guarded, x), i, batch, guarded, x)
    ensures Refused(Claimed(db, i, who, now), batch, EstimateOf(db, i), guarded) <==> TurnedAway(db, batch, db.instances[i].declared, guarded)
  {
    RefusedExactly(Claimed(db, i, who, now), batch, EstimateOf(db, i), guarded);
    if TurnedAway(db, batch, db.instances[i].declared, guarded) {
      TurnedAwayMeans(db, i, who, now, batch, guarded, x);
    } else {
      ArchiveCallMeans(db, i, who, now, batch, guarded, x);
    }
  }

  /** A readable archive that is nested too deep is dead after the call: terminal, and never tried again. One that
      ends at something unreadable is not, if no attempt before failed for good. */
  lemma OnlyTooDeepIsDead(db: Db, i: InstanceId, who: WorkerId, now: int, batch: Option<BatchId>, guarded: bool,
                          x: Extraction)
    requires i in db.instances && !db.instances[i].member && db.instances[i].archiveCategory && !SucceededBefore(db, i)
    requires !TurnedAway(db, batch, db.instances[i].declared, guarded)
    ensures var db' := ArchiveCall(db, i, who, now, batch, guarded, x);
            i in db'.instances &&
            (ArchiveWalk.Readable(x.tree) && ArchiveWalk.Nesting(x.tree) > x.maxDepth ==> ArchiveDead(db', i) && IsTerminal(db', i)) &&
            (ArchiveWalk.Readable(x.tree) && ArchiveWalk.Nesting(x.tree) <= x.maxDepth ==> ArchiveDone(db', i) && IsTerminal(db', i)) &&
            (WalkOf(x).result == ArchiveWalk.Broken && Attempt(OfInstance(i), FailedDurable) !in db.attempts ==> !IsTerminal(db', i))
  {
    ArchiveCallMeans(db, i, who, now, batch, guarded, x);
    ArchiveWalk.WalkSucceedsExactly(x.tree, [], 0, x.maxDepth);
  }

  /** A walk adds member rows and groups, and assigns members. */
  predicate WalkStep(db: Db, db': Db)
  {
    (forall i :: i in db.instances ==>
       i in db'.instances && db'.instances[i].member == db.instances[i].member &&
       (!db.instances[i].member ==> db'.instances[i] == db.instances[i])) &&
    (forall i :: i in db'.instances && i !in db.instances ==> db'.instances[i].member) &&
    (forall g :: g in db.groups ==> g in db'.groups && db'.groups[g] == db.groups[g]) &&
    db'.batches == db.batches && db'.attempts == db.attempts && db'.docs == db.docs
  }

  lemma OpIsWalkStep(db: Db, i: InstanceId, names: Naming, op: ArchiveWalk.Op)
    ensures WalkStep(db, Performed(db, i, names, op))
  {}

  lemma {:induction false} WalkIsWalkStep(db: Db, i: InstanceId, names: Naming, ops: seq<ArchiveWalk.Op>)
    ensures WalkStep(db, Performing(db, i, names, ops))
    decreases |ops|
  {
    if ops != [] {
      WalkIsWalkStep(db, i, names, ops[..|ops| - 1]);
      OpIsWalkStep(Performing(db, i, names, ops[..|ops| - 1]), i, names, ops[|ops| - 1]);
    }
  }

  class RootServices {
    const session: Session
    const claims: WorkerClaimService

    constructor (session: Session)
      ensures this.session == session && claims.session == session
    {
      this.session := session;
      claims := new WorkerClaimService(session);
    }

    method RecordAttempt(i: InstanceId, outcome: Outcome)
      modifies session`db
      ensures session.db == Record(old(session.db), OfInstance(i), outcome)
    {
      session.db := session.db.(attempts := session.db.attempts + {Attempt(OfInstance(i), outcome)});
    }

    method GetOrCreate(g: GroupId, initial: PipelineState, pieces: nat)
      modifies session`db
      ensures session.db == GetOrCreateGroup(old(session.db), g, initial, pieces, 0)
    {
      if g !in session.db.groups {
        session.db := session.db.(groups := session.db.groups[g := Group(initial, None, 0, None, pieces, 0)]);
      }
    }

    method ResolveNext(who: WorkerId, lease: nat, run: Option<RunId>, exclude: set<InstanceId>,
                       sources: InstanceId -> Source)
      returns (claimed: Option<InstanceId>)
      requires claims.session == session
      modifies session`db
      ensures claimed.None? ==> session.db == old(session.db) &&
                                InstanceCandidates(old(session.db), IdentityQueue, run, exclude, session.now - lease) == {}
      ensures claimed.Some? ==>
                OldestInstance(old(session.db), claimed.value,
                               InstanceCandidates(old(session.db), IdentityQueue, run, exclude, session.now - lease))
      ensures claimed.Some? ==>
                session.db == ResolveCall(old(session.db), claimed.value, who, session.now, sources(claimed.value))
      ensures claimed.Some? ==> Resolved(old(session.db), session.db, claimed.value, sources(claimed.value))
    {
      NobodyPaused(session.db);
      claimed := claims.ClaimSourceInstance(who, IdentityQueue, lease, run, exclude, {});
      if claimed.None? { return; }
      var i := claimed.value;
      ResolveCallMeans(old(session.db), i, who, session.now, sources(i));
      var gen := session.db.instances[i].gen;
      match sources(i) {
        case Unreadable => RecordAttempt(i, FailedRetryable);
        case Bytes(hash, initial, pieces) =>
          GetOrCreate(hash, initial, pieces);
          if session.db.instances[i].group.None? {
            session.db := session.db.(instances := session.db.instances[i := session.db.instances[i].(group := Some(hash))]);
          }
          RecordAttempt(i, Succeeded);
      }
      var _ := claims.ReleaseSourceInstanceClaim(i, gen);
    }

    method PreflightAdmit(b: BatchId, estimate: nat, guarded: bool) returns (admitted: bool, charge: Option<BatchId>)
      requires b in session.db.batches
      modifies session`db
      ensures admitted <==> !Refused(old(session.db), Some(b), estimate, guarded)
      ensures !admitted ==> session.db == old(session.db)
      ensures admitted ==> charge == Charges(old(session.db), Some(b)) && session.db == Charged(old(session.db), charge, estimate)
      ensures var batch := old(session.db.batches)[b];
              (admitted <==> !guarded && batch.status == Running &&
                             (batch.maxExtracted.Some? ==> batch.extracted + estimate <= batch.maxExtracted.value)) &&
              charge == (if admitted && batch.maxExtracted.Some? then Some(b) else None) &&
              session.db == if charge.Some?
                            then old(session.db).(batches := old(session.db.batches)[b := batch.(extracted := batch.extracted + estimate)])
                            else old(session.db)
    {
      charge := None;
      if guarded { return false, charge; }
      var batch := session.db.batches[b];
      if batch.maxExtracted.None? { return batch.status == Running, charge; }
      if batch.status != Running || batch.extracted + estimate > batch.maxExtracted.value { return false, charge; }
      session.db := session.db.(batches := session.db.batches[b := batch.(extracted := batch.extracted + estimate)]);
      return true, Some(b);
    }

    /** What the walk of the archive `a` leaves behind and reports. */
    ghost predicate Walked(before: Db, i: InstanceId, names: Naming, w: ArchiveWalk.Walk, result: ArchiveWalk.Result, bytes: nat)
      reads this, session
    {
      session.db == Performing(before, i, names, w.ops) && result == w.result && bytes == w.bytes
    }

    method CreateMember(i: InstanceId, names: Naming, full: ArchiveWalk.Path)
      modifies session`db
      ensures session.db == Performed(old(session.db), i, names, ArchiveWalk.CreateMember(full))
    {
      var m := names.id(full);
      if m !in session.db.instances && i in session.db.instances {
        var row := NewRoot(session.db.instances[i].run, names.pick(full)).(member := true);
        session.db := session.db.(instances := session.db.instances[m := row]);
      }
    }

    /** A member with a group already is skipped. */
    method IdentifyMember(i: InstanceId, names: Naming, full: ArchiveWalk.Path, hash: GroupId, initial: InitialState)
      modifies session`db
      ensures session.db == Performing(old(session.db), i, names,
                                       [ArchiveWalk.GetOrCreate(full, hash, initial), ArchiveWalk.Assign(full, hash)])
    {
      TwoOps(session.db, i, names, ArchiveWalk.GetOrCreate(full, hash, initial), ArchiveWalk.Assign(full, hash));
      var m := names.id(full);
      if m in session.db.instances && session.db.instances[m].group.Some? { return; }
      GetOrCreate(hash, initial, names.pieces(hash));
      if m in session.db.instances && session.db.instances[m].member {
        session.db := session.db.(instances := session.db.instances[m := session.db.instances[m].(group := Some(hash))]);
      }
    }

    /** `_extract_recursive`. */
    method ExtractRecursive(i: InstanceId, names: Naming, a: ArchiveWalk.Archive, prefix: ArchiveWalk.Path, depth: nat,
                            maxDepth: nat)
      returns (result: ArchiveWalk.Result, bytes: nat)
      modifies session`db
      ensures Walked(old(session.db), i, names, ArchiveWalk.WalkOf(a, prefix, depth, maxDepth), result, bytes)
      decreases a, 2
    {
      if depth >= maxDepth { return ArchiveWalk.TooDeep, 0; }
      if a.Unreadable? { return ArchiveWalk.Broken, 0; }
      result, bytes := ProcessMembers(i, names, a.members, prefix, depth, maxDepth);
      bytes := ArchiveWalk.Sizes(a.members) + bytes;
    }

    method ProcessMembers(i: InstanceId, names: Naming, ms: ArchiveWalk.Members, prefix: ArchiveWalk.Path, depth: nat,
                          maxDepth: nat)
      returns (result: ArchiveWalk.Result, bytes: nat)
      modifies session`db
      ensures Walked(old(session.db), i, names, ArchiveWalk.WalkMembers(ms, prefix, depth, maxDepth), result, bytes)
      decreases ms, 1
    {
      var rest := ms;
      bytes := 0;
      ghost var start, done, all := session.db, [], ArchiveWalk.WalkMembers(ms, prefix, depth, maxDepth);
      while rest.More?
        invariant rest == ms || rest < ms
        invariant WalkedSoFar(start, session.db, i, names, all, done, bytes, rest, prefix, depth, maxDepth)
        decreases rest
      {
        ghost var before, first := session.db, ArchiveWalk.WalkMember(rest.body, prefix + rest.path, depth, maxDepth);
        var inner;
        result, inner := ProcessMember(i, names, rest.body, prefix + rest.path, depth, maxDepth);
        MemberWalked(start, before, session.db, i, names, all, done, bytes, rest, prefix, depth, maxDepth);
        bytes := bytes + inner;
        done := done + first.ops;
        if result != ArchiveWalk.Returned { return; }
        rest := rest.rest;
      }
      AllWalked(all, done, bytes, rest, prefix, depth, maxDepth);
      result := ArchiveWalk.Returned;
    }

    /** One turn of the loop over the members. */
    method ProcessMember(i: InstanceId, names: Naming, body: ArchiveWalk.Body, full: ArchiveWalk.Path, depth: nat,
                         maxDepth: nat)
      returns (result: ArchiveWalk.Result, bytes: nat)
      modifies session`db
      ensures Walked(old(session.db), i, names, ArchiveWalk.WalkMember(body, full, depth, maxDepth), result, bytes)
      decreases body, 0
    {
      ghost var start := session.db;
      CreateMember(i, names, full);
      PerformOne(start, i, names, ArchiveWalk.CreateMember(full));
      match body {
        case Nested(archive) =>
          result, bytes := ExtractRecursive(i, names, archive, full, depth + 1, maxDepth);
          PerformAppend(start, i, names, [ArchiveWalk.CreateMember(full)],
                        ArchiveWalk.WalkOf(archive, full, depth + 1, maxDepth).ops);
        case File(hash, initial) =>
          IdentifyMember(i, names, full, hash, initial);
          PerformAppend(start, i, names, [ArchiveWalk.CreateMember(full)],
                        [ArchiveWalk.GetOrCreate(full, hash, initial), ArchiveWalk.Assign(full, hash)]);
          assert [ArchiveWalk.CreateMember(full)] + [ArchiveWalk.GetOrCreate(full, hash, initial), ArchiveWalk.Assign(full, hash)] ==
                 ArchiveWalk.WalkMember(body, full, depth, maxDepth).ops;
          return ArchiveWalk.Returned, 0;
      }
    }

    /** The claimed archive is walked; its charge is settled and the attempt recorded. */
    method ProcessClaimedArchive(i: InstanceId, charge: Option<BatchId>, estimate: nat, x: Extraction)
      modifies session`db
      ensures session.db == Record(Charged(Performing(old(session.db), i, x.names, WalkOf(x).ops), charge,
                                           if WalkOf(x).result.Returned? then WalkOf(x).bytes - estimate else 0 - estimate),
                                   OfInstance(i), Outcomes(WalkOf(x).result))
    {
      var result, bytes := ExtractRecursive(i, x.names, x.tree, [], 0, x.maxDepth);
      var delta: int := (if result.Returned? then bytes else 0) - estimate;
      if charge.Some? && delta != 0 { session.db := AddExtracted(session.db, charge.value, delta); }
      SameCounter(session.db, charge);
      RecordAttempt(i, Outcomes(result));
    }

    method AdmitAndProcess(i: InstanceId, batch: Option<BatchId>, guarded: bool, x: Extraction) returns (deferred: bool)
      requires i in session.db.instances && (batch.Some? ==> batch.value in session.db.batches)
      modifies session`db
      ensures deferred == Refused(old(session.db), batch, EstimateOf(old(session.db), i), guarded)
      ensures session.db == ArchiveWork(old(session.db), i, batch, guarded, x)
    {
      var estimate := session.db.instances[i].declared;
      var charge: Option<BatchId> := None;
      if batch.Some? {
        var admitted;
        admitted, charge := PreflightAdmit(batch.value, estimate, guarded);
        if !admitted { return true; }
      }
      ProcessClaimedArchive(i, charge, estimate, x);
      return false;
    }

    method ProcessNextArchive(who: WorkerId, lease: nat, run: Option<RunId>, batch: Option<BatchId>,
                              exclude: set<InstanceId>, guarded: bool, extractions: InstanceId -> Extraction)
      returns (claimed: Option<InstanceId>, deferred: bool)
      requires claims.session == session && (batch.Some? ==> batch.value in session.db.batches)
      modifies session`db
      ensures claimed.None? ==> session.db == old(session.db) && !deferred &&
                                InstanceCandidates(old(session.db), ArchiveQueue, run, exclude, session.now - lease) == {}
      ensures claimed.Some? ==>
                OldestInstance(old(session.db), claimed.value,
                               InstanceCandidates(old(session.db), ArchiveQueue, run, exclude, session.now - lease))
      ensures claimed.Some? ==>
                session.db == ArchiveCall(old(session.db), claimed.value, who, session.now, batch, guarded,
                                          extractions(claimed.value))
      ensures claimed.Some? ==>
                deferred == Refused(Claimed(old(session.db), claimed.value, who, session.now), batch,
                                                    EstimateOf(old(session.db), claimed.value), guarded)
      ensures claimed.Some? ==>
                claimed.value in old(session.db.instances) &&
                (deferred <==> TurnedAway(old(session.db), batch, old(session.db.instances)[claimed.value].declared, guarded)) &&
                Processed(old(session.db), session.db, claimed.value, batch, guarded, extractions(claimed.value))
    {
      deferred := false;
      NobodyPaused(session.db);
      claimed := claims.ClaimSourceInstance(who, ArchiveQueue, lease, run, exclude, {});
      if claimed.None? { return; }
      var i := claimed.value;
      var gen := session.db.instances[i].gen;
      deferred := AdmitAndProcess(i, batch, guarded, extractions(i));
      var _ := claims.ReleaseSourceInstanceClaim(i, gen);
      ArchiveIsProcessed(old(session.db), i, who, session.now, batch, guarded, extractions(i));
    }
  }

  /** After some members of an archive, with these still to come. */
  ghost predicate WalkedSoFar(start: Db, db: Db, i: InstanceId, names: Naming, all: ArchiveWalk.Walk, done: seq<ArchiveWalk.Op>,
                              counted: nat, ms: ArchiveWalk.Members, prefix: ArchiveWalk.Path, depth: nat, maxDepth: nat)
  {
    ArchiveWalk.WalkedTo(all, done, counted, ArchiveWalk.WalkMembers(ms, prefix, depth, maxDepth)) && db == Performing(start, i, names, done)
  }

  /** One more member of an archive is walked, and the walk goes on or ends with it. */
  lemma MemberWalked(start: Db, db: Db, db': Db, i: InstanceId, names: Naming, all: ArchiveWalk.Walk, done: seq<ArchiveWalk.Op>,
                     counted: nat, ms: ArchiveWalk.Members, prefix: ArchiveWalk.Path, depth: nat, maxDepth: nat)
    requires ms.More? && WalkedSoFar(start, db, i, names, all, done, counted, ms, prefix, depth, maxDepth)
    requires db' == Performing(db, i, names, ArchiveWalk.WalkMember(ms.body, prefix + ms.path, depth, maxDepth).ops)
    ensures var first := ArchiveWalk.WalkMember(ms.body, prefix + ms.path, depth, maxDepth);
            if first.result == ArchiveWalk.Returned
            then WalkedSoFar(start, db', i, names, all, done + first.ops, counted + first.bytes, ms.rest, prefix, depth, maxDepth)
            else all == ArchiveWalk.Walk(done + first.ops, first.result, counted + first.bytes) &&
                 db' == Performing(start, i, names, done + first.ops)
  {
    var first := ArchiveWalk.WalkMember(ms.body, prefix + ms.path, depth, maxDepth);
    PerformAppend(start, i, names, done, first.ops);
    if first.result == ArchiveWalk.Returned { ArchiveWalk.NextMember(all, done, counted, ms, prefix, depth, maxDepth); }
  }

  lemma AllWalked(all: ArchiveWalk.Walk, done: seq<ArchiveWalk.Op>, counted: nat, ms: ArchiveWalk.Members,
                  prefix: ArchiveWalk.Path, depth: nat, maxDepth: nat)
    requires ms.End? && ArchiveWalk.WalkedTo(all, done, counted, ArchiveWalk.WalkMembers(ms, prefix, depth, maxDepth))
    ensures all == ArchiveWalk.Walk(done, ArchiveWalk.Returned, counted)
  {
    assert done + [] == done;
  }

  lemma TwoOps(db: Db, i: InstanceId, names: Naming, a: ArchiveWalk.Op, b: ArchiveWalk.Op)
    ensures Performing(db, i, names, [a, b]) == Performed(Performed(db, i, names, a), i, names, b)
  {
    assert [a, b][..1] == [a];
    PerformOne(db, i, names, a);
  }

  lemma NobodyPaused(db: Db)
    ensures PauseAll(db, {}) == db
  {
    assert PauseAll(db, {}).batches == db.batches;
  }

  lemma SameCounter(db: Db, charge: Option<BatchId>)
    ensures Charged(db, charge, 0) == db
  {
    if charge.Some? && charge.value in db.batches { assert db.batches[charge.value := db.batches[charge.value]] == db.batches; }
  }

  // ----- an identity call is a run of the protocol ---------------------------------------------------------

  /** A call on a root instance is in flight under token `t`; everything else about the run is `s`'s. */
  predicate OnRoot(s: State, mid: State, t: Token, i: InstanceId, gen: nat, run: Option<RunId>, queue: Queue, pc: InstancePc)
  {
    t !in s.workers && mid.workers == s.workers[t := OnInstance(i, gen, run, queue, pc)] && mid.now == s.now
  }

  lemma SelectRun(s: State, t: Token, i: InstanceId, who: WorkerId, queue: Queue, run: Option<RunId>, lease: nat)
    returns (locked: State)
    requires t !in s.workers && i in InstanceCandidates(s.db, queue, run, {}, s.now - lease)
    ensures Later(s, locked) && Gate(locked.db, run)
    ensures locked == s.(db := s.db.(instances := s.db.instances[i := s.db.instances[i].(lock := Some(t))]),
                         workers := s.workers[t := Selecting(i, who, queue, run, s.now - lease)])
  {
    LaterStep(s, SelectInstance(t, i, who, queue, run, lease));
    locked := Do(s, SelectInstance(t, i, who, queue, run, lease));
    assert locked == DoSelectInstance(s, t, i, who, queue, run, lease);
    if run.Some? { assert RunIsRunning(s.db, run.value); }
  }

  function FirstPc(queue: Queue): InstancePc
  {
    if queue.IdentityQueue? then Reading else Admitting
  }

  lemma GrantRun(s: State, locked: State, t: Token, i: InstanceId, who: WorkerId, queue: Queue, run: Option<RunId>, lease: nat)
    requires t !in s.workers && i in s.db.instances && FreeOrStale(s.db.instances[i].claim, s.now - lease)
    requires s.db.instances[i].lock.None? && Gate(locked.db, run)
    requires locked == s.(db := s.db.(instances := s.db.instances[i := s.db.instances[i].(lock := Some(t))]),
                          workers := s.workers[t := Selecting(i, who, queue, run, s.now - lease)])
    ensures var mid := DoGrantSelected(locked, t);
            mid.db == Claimed(s.db, i, who, s.now) && OnRoot(s, mid, t, i, InstanceGen(mid.db, i), run, queue, FirstPc(queue))
  {
    assert GrantApplies(locked, t);
    var mid, row := DoGrantSelected(locked, t), s.db.instances[i];
    assert mid.db.instances == s.db.instances[i := row.(claim := Some(Claim(who, s.now)), gen := row.gen + 1)];
  }

  lemma RootClaimRun(s: State, t: Token, i: InstanceId, who: WorkerId, queue: Queue, run: Option<RunId>, lease: nat)
    returns (mid: State)
    requires t !in s.workers && i in InstanceCandidates(s.db, queue, run, {}, s.now - lease)
    ensures Later(s, mid) && mid.db == Claimed(s.db, i, who, s.now)
    ensures OnRoot(s, mid, t, i, InstanceGen(mid.db, i), run, queue, FirstPc(queue))
  {
    var locked := SelectRun(s, t, i, who, queue, run, lease);
    Extend(s, locked, GrantSelected(t));
    mid := Do(locked, GrantSelected(t));
    GrantRun(s, locked, t, i, who, queue, run, lease);
  }

  lemma RootStepRun(s: State, mid: State, t: Token, i: InstanceId, gen: nat, run: Option<RunId>, queue: Queue,
                    pc: InstancePc, a: InstanceAction)
    returns (next: State)
    requires Later(s, mid) && OnRoot(s, mid, t, i, gen, run, queue, pc)
    ensures next == DoInstance(mid, t, a) && Later(s, next)
  {
    Extend(s, mid, InstanceStep(t, a));
    next := Do(mid, InstanceStep(t, a));
  }

  lemma LeaveRun(s: State, mid: State, t: Token, i: InstanceId, gen: nat, run: Option<RunId>, queue: Queue)
    returns (end: State)
    requires Later(s, mid) && OnRoot(s, mid, t, i, gen, run, queue, Leaving) && Unlocked(mid.db, i)
    ensures Later(s, end) && Returned(s, end, ReleaseInstance(mid.db, i, gen))
  {
    end := RootStepRun(s, mid, t, i, gen, run, queue, Leaving, Leave);
    assert end == DoLeaveInstance(mid, t);
    assert s.workers[t := OnInstance(i, gen, run, queue, Leaving)] - {t} == s.workers;
  }

  lemma AssignRun(s: State, mid: State, t: Token, i: InstanceId, gen: nat, run: Option<RunId>, g: GroupId)
    returns (next: State)
    requires Later(s, mid) && OnRoot(s, mid, t, i, gen, run, IdentityQueue, Identified(g)) && Unlocked(mid.db, i)
    requires mid.db.instances[i].group.None?
    ensures Later(s, next) && OnRoot(s, next, t, i, gen, run, IdentityQueue, Leaving)
    ensures next.db == Record(AssignIdentity(mid.db, i, g), OfInstance(i), Succeeded)
  {
    var held := RootStepRun(s, mid, t, i, gen, run, IdentityQueue, Identified(g), InstanceAction.Assign);
    assert held == DoAssign(mid, t);
    next := RootStepRun(s, held, t, i, gen, run, IdentityQueue, Assigned, RecordIdentity);
    assert next == DoRecordIdentity(held, t);
  }

  /** An identity call that is not interrupted is a run: select, grant, group, assignment, attempt,
      release; or select, grant, failed attempt, release. */
  lemma ResolveIsARun(s: State, t: Token, i: InstanceId, who: WorkerId, run: Option<RunId>, lease: nat, source: Source)
    returns (end: State)
    requires t !in s.workers && i in InstanceCandidates(s.db, IdentityQueue, run, {}, s.now - lease)
    ensures Later(s, end) && Returned(s, end, ResolveCall(s.db, i, who, s.now, source))
  {
    var mid := RootClaimRun(s, t, i, who, IdentityQueue, run, lease);
    var gen := InstanceGen(mid.db, i);
    match source {
      case Unreadable =>
        var failed := RootStepRun(s, mid, t, i, gen, run, IdentityQueue, Reading, ReadFails);
        assert failed == DoReadFails(mid, t);
        end := LeaveRun(s, failed, t, i, gen, run, IdentityQueue);
      case Bytes(hash, initial, pieces) =>
        var found := RootStepRun(s, mid, t, i, gen, run, IdentityQueue, Reading, Identify(hash, initial, pieces, 0));
        assert found == DoIdentify(mid, t, hash, initial, pieces, 0);
        var held := AssignRun(s, found, t, i, gen, run, hash);
        end := LeaveRun(s, held, t, i, gen, run, IdentityQueue);
    }
  }

  // ----- an archive call is a run of the protocol ----------------------------------------------------------

  lemma ArchiveStepRun(s: State, mid: State, t: Token, i: InstanceId, gen: nat, run: Option<RunId>, pc: InstancePc,
                       a: ArchiveAction)
    returns (next: State)
    requires Later(s, mid) && OnRoot(s, mid, t, i, gen, run, ArchiveQueue, pc)
    ensures next == DoArchive(mid, t, a) && Later(s, next)
  {
    Extend(s, mid, ArchiveStep(t, a));
    next := Do(mid, ArchiveStep(t, a));
  }

  /** A commit that has nothing to do is no action at all. */
  lemma CommitRun(s: State, mid: State, t: Token, i: InstanceId, gen: nat, run: Option<RunId>, charge: Option<Charge>,
                  commit: ArchiveAction)
    returns (next: State)
    requires Later(s, mid) && OnRoot(s, mid, t, i, gen, run, ArchiveQueue, Walking(charge, 0))
    ensures Later(s, next) && OnRoot(s, next, t, i, gen, run, ArchiveQueue, Walking(charge, 0))
    ensures next.db == Committed(mid.db, i, commit)
  {
    if Committed(mid.db, i, commit) == mid.db {
      next := mid;
    } else {
      next := ArchiveStepRun(s, mid, t, i, gen, run, Walking(charge, 0), commit);
    }
  }

  lemma {:induction false} CommitsRun(s: State, mid: State, t: Token, i: InstanceId, gen: nat, run: Option<RunId>,
                                      charge: Option<Charge>, names: Naming, ops: seq<ArchiveWalk.Op>)
    returns (next: State)
    requires Later(s, mid) && OnRoot(s, mid, t, i, gen, run, ArchiveQueue, Walking(charge, 0))
    ensures Later(s, next) && OnRoot(s, next, t, i, gen, run, ArchiveQueue, Walking(charge, 0))
    ensures next.db == Performing(mid.db, i, names, ops)
    decreases |ops|
  {
    next := mid;
    if ops != [] {
      var op := ops[|ops| - 1];
      next := CommitsRun(s, mid, t, i, gen, run, charge, names, ops[..|ops| - 1]);
      if Performed(next.db, i, names, op) != next.db {
        next := CommitRun(s, next, t, i, gen, run, charge, ActionOf(names, op));
      }
    }
  }

  /** The counter as a settled charge leaves it. */
  function SettledBy(db: Db, charge: Option<Charge>, delta: int): Db
  {
    if charge.Some? then AddExtracted(db, charge.value.batch, delta) else db
  }

  lemma MeasuredRun(s: State, mid: State, t: Token, i: InstanceId, gen: nat, run: Option<RunId>,
                    charge: Option<Charge>, bytes: nat)
    returns (next: State)
    requires Later(s, mid) && OnRoot(s, mid, t, i, gen, run, ArchiveQueue, Walking(charge, 0))
    ensures Later(s, next) && next.db == mid.db && OnRoot(s, next, t, i, gen, run, ArchiveQueue, InstancePc.Walked(charge, bytes))
  {
    var measured := ArchiveStepRun(s, mid, t, i, gen, run, Walking(charge, 0), ArchiveAction.Extract(bytes));
    assert measured == DoExtract(mid, t, bytes);
    next := ArchiveStepRun(s, measured, t, i, gen, run, Walking(charge, bytes), WalkReturns);
    assert next == DoWalkReturns(measured, t);
  }

  /** The end of a walk that returned: measure, return, reconcile, record. */
  lemma WalkReturnsRun(s: State, mid: State, t: Token, i: InstanceId, gen: nat, run: Option<RunId>,
                       charge: Option<Charge>, bytes: nat)
    returns (next: State)
    requires Later(s, mid) && OnRoot(s, mid, t, i, gen, run, ArchiveQueue, Walking(charge, 0))
    ensures Later(s, next) && OnRoot(s, next, t, i, gen, run, ArchiveQueue, Leaving)
    ensures next.db == Record(SettledBy(mid.db, charge, if charge.Some? then bytes - charge.value.amount else 0), OfInstance(i), Succeeded)
  {
    var walked := MeasuredRun(s, mid, t, i, gen, run, charge, bytes);
    var reconciled := ArchiveStepRun(s, walked, t, i, gen, run, InstancePc.Walked(charge, bytes), Reconcile);
    assert reconciled == DoReconcile(walked, t);
    next := ArchiveStepRun(s, reconciled, t, i, gen, run, Reconciled, RecordArchive);
    assert next == DoRecordArchive(reconciled, t);
  }

  lemma DischargedRun(s: State, mid: State, t: Token, i: InstanceId, gen: nat, run: Option<RunId>, charge: Option<Charge>)
    returns (next: State)
    requires Later(s, mid) && OnRoot(s, mid, t, i, gen, run, ArchiveQueue, Walking(charge, 0))
    ensures Later(s, next) && OnRoot(s, next, t, i, gen, run, ArchiveQueue, Discharged)
    ensures next.db == SettledBy(mid.db, charge, if charge.Some? then 0 - charge.value.amount else 0)
  {
    var failed := ArchiveStepRun(s, mid, t, i, gen, run, Walking(charge, 0), WalkRaises);
    assert failed == DoWalkRaises(mid, t);
    next := ArchiveStepRun(s, failed, t, i, gen, run, WalkFailed(charge), Discharge);
    assert next == DoDischarge(failed, t);
  }

  /** The end of a walk that raised: the estimate is given back, the failure recorded. */
  lemma WalkRaisesRun(s: State, mid: State, t: Token, i: InstanceId, gen: nat, run: Option<RunId>,
                      charge: Option<Charge>, retryable: bool)
    returns (next: State)
    requires Later(s, mid) && OnRoot(s, mid, t, i, gen, run, ArchiveQueue, Walking(charge, 0))
    ensures Later(s, next) && OnRoot(s, next, t, i, gen, run, ArchiveQueue, Leaving)
    ensures next.db == Record(SettledBy(mid.db, charge, if charge.Some? then 0 - charge.value.amount else 0), OfInstance(i),
                              if retryable then FailedRetryable else FailedDurable)
  {
    var discharged := DischargedRun(s, mid, t, i, gen, run, charge);
    next := ArchiveStepRun(s, discharged, t, i, gen, run, Discharged, RecordArchiveFailure(retryable));
    assert next == DoRecordArchiveFailure(discharged, t, retryable);
  }

  /** The batch a call is admitted against is the batch of its classification run. */
  predicate BatchOfRun(db: Db, run: Option<RunId>, batch: Option<BatchId>)
  {
    match batch
    case Some(b) => b in db.batches && run == Some(db.batches[b].run)
    case None => run.None?
  }

  lemma AdmitRun(s: State, mid: State, t: Token, i: InstanceId, gen: nat, run: Option<RunId>, batch: Option<BatchId>)
    returns (next: State)
    requires Later(s, mid) && OnRoot(s, mid, t, i, gen, run, ArchiveQueue, Admitting) && BatchOfRun(mid.db, run, batch)
    requires !Refused(mid.db, batch, EstimateOf(mid.db, i), false)
    ensures var charge := Charges(mid.db, batch);
            Later(s, next) && next.db == Charged(mid.db, charge, EstimateOf(mid.db, i)) &&
            OnRoot(s, next, t, i, gen, run, ArchiveQueue,
                   Walking(if charge.Some? then Some(Charge(charge.value, EstimateOf(mid.db, i))) else None, 0))
  {
    next := ArchiveStepRun(s, mid, t, i, gen, run, Admitting, Admit(batch, false));
    assert next == DoAdmit(mid, t, batch, false);
  }

  lemma RefusedRun(s: State, mid: State, t: Token, i: InstanceId, gen: nat, run: Option<RunId>, batch: Option<BatchId>,
                   guarded: bool)
    returns (next: State)
    requires Later(s, mid) && OnRoot(s, mid, t, i, gen, run, ArchiveQueue, Admitting) && BatchOfRun(mid.db, run, batch)
    requires Refused(mid.db, batch, EstimateOf(mid.db, i), guarded)
    ensures Later(s, next) && next.db == mid.db && OnRoot(s, next, t, i, gen, run, ArchiveQueue, Leaving)
  {
    next := ArchiveStepRun(s, mid, t, i, gen, run, Admitting, Admit(batch, guarded));
    assert next == DoAdmit(mid, t, batch, guarded);
  }

  lemma ArchiveWorkRun(s: State, mid: State, t: Token, i: InstanceId, gen: nat, run: Option<RunId>,
                       batch: Option<BatchId>, guarded: bool, x: Extraction)
    returns (next: State)
    requires Later(s, mid) && OnRoot(s, mid, t, i, gen, run, ArchiveQueue, Admitting) && BatchOfRun(mid.db, run, batch)
    requires batch.None? ==> !guarded
    ensures Later(s, next) && OnRoot(s, next, t, i, gen, run, ArchiveQueue, Leaving)
    ensures next.db == ArchiveWork(mid.db, i, batch, guarded, x)
  {
    var estimate := EstimateOf(mid.db, i);
    if Refused(mid.db, batch, estimate, guarded) {
      next := RefusedRun(s, mid, t, i, gen, run, batch, guarded);
    } else {
      var charge := Charges(mid.db, batch);
      var held := if charge.Some? then Some(Charge(charge.value, estimate)) else None;
      var admitted := AdmitRun(s, mid, t, i, gen, run, batch);
      var walked := CommitsRun(s, admitted, t, i, gen, run, held, x.names, WalkOf(x).ops);
      if WalkOf(x).result.Returned? {
        next := WalkReturnsRun(s, walked, t, i, gen, run, held, WalkOf(x).bytes);
      } else {
        next := WalkRaisesRun(s, walked, t, i, gen, run, held, !WalkOf(x).result.TooDeep?);
      }
    }
  }

  /** The row stays as the claim left it while the call works. */
  lemma WorkKeepsRow(claimed: Db, i: InstanceId, batch: Option<BatchId>, guarded: bool, x: Extraction)
    requires i in claimed.instances && !claimed.instances[i].member
    ensures var db := ArchiveWork(claimed, i, batch, guarded, x);
            i in db.instances && db.instances[i] == claimed.instances[i]
  {
    WalkIsWalkStep(Charged(claimed, Charges(claimed, batch), EstimateOf(claimed, i)), i, x.names, WalkOf(x).ops);
  }

  /** An archive call that is not interrupted is a run: select, grant, admission, the commits of the walk
      one by one, settlement of the charge, attempt, release. */
  lemma ArchiveIsARun(s: State, t: Token, i: InstanceId, who: WorkerId, run: Option<RunId>, lease: nat,
                      batch: Option<BatchId>, guarded: bool, x: Extraction)
    returns (end: State)
    requires t !in s.workers && i in InstanceCandidates(s.db, ArchiveQueue, run, {}, s.now - lease)
    requires BatchOfRun(s.db, run, batch) && (batch.None? ==> !guarded)
    ensures Later(s, end) && Returned(s, end, ArchiveCall(s.db, i, who, s.now, batch, guarded, x))
  {
    var mid := RootClaimRun(s, t, i, who, ArchiveQueue, run, lease);
    var gen := InstanceGen(mid.db, i);
    var worked := ArchiveWorkRun(s, mid, t, i, gen, run, batch, guarded, x);
    WorkKeepsRow(mid.db, i, batch, guarded, x);
    end := LeaveRun(s, worked, t, i, gen, run, ArchiveQueue);
  }

  // ----- one attempt leaves every other root claimable or not, as it was ---------------------------------

  predicate SameStanding(a: Batch, b: Batch)
  {
    a.run == b.run && a.status == b.status
  }

  predicate SameRow(db: Db, db': Db, j: InstanceId)
    requires j in db.instances
  {
    j in db'.instances && db'.instances[j].member == db.instances[j].member &&
    (!db.instances[j].member ==> db'.instances[j] == db.instances[j] && (SucceededBefore(db', j) <==> SucceededBefore(db, j)))
  }

  ghost predicate RootStep(db: Db, db': Db, i: InstanceId)
  {
    db'.batches.Keys == db.batches.Keys && (forall b :: b in db.batches ==> SameStanding(db.batches[b], db'.batches[b])) &&
    (forall j :: j in db.instances && j != i ==> SameRow(db, db', j)) &&
    (forall j :: j in db'.instances && j !in db.instances ==> db'.instances[j].member)
  }

  lemma StandingGate(db: Db, db': Db, run: Option<RunId>)
    requires db'.batches.Keys == db.batches.Keys && forall b :: b in db.batches ==> SameStanding(db.batches[b], db'.batches[b])
    ensures Gate(db', run) <==> Gate(db, run)
  {
    if run.Some? {
      if b :| b in db.batches && db.batches[b].run == run.value && db.batches[b].status == Running {
        assert SameStanding(db.batches[b], db'.batches[b]);
      }
      if b :| b in db'.batches && db'.batches[b].run == run.value && db'.batches[b].status == Running {
        assert SameStanding(db.batches[b], db'.batches[b]);
      }
    }
  }

  lemma CandidatesShrink(db: Db, db': Db, i: InstanceId, queue: Queue, run: Option<RunId>, seen: set<InstanceId>,
                         staleBefore: int)
    requires RootStep(db, db', i)
    ensures InstanceCandidates(db', queue, run, seen + {i}, staleBefore) == InstanceCandidates(db, queue, run, seen, staleBefore) - {i}
  {
    StandingGate(db, db', run);
    var before, after := InstanceCandidates(db, queue, run, seen, staleBefore), InstanceCandidates(db', queue, run, seen + {i}, staleBefore);
    forall j ensures j in after <==> j in before - {i} {
      if j in db.instances && j != i { assert SameRow(db, db', j); }
    }
  }

  lemma ResolveIsRootStep(db: Db, i: InstanceId, who: WorkerId, now: int, source: Source)
    requires i in db.instances
    ensures RootStep(db, ResolveCall(db, i, who, now, source), i)
  {}

  lemma RootStepsCompose(a: Db, b: Db, c: Db, i: InstanceId)
    requires RootStep(a, b, i) && RootStep(b, c, i) && i in a.instances && i in b.instances
    ensures RootStep(a, c, i)
  {
    forall k | k in a.batches ensures SameStanding(a.batches[k], c.batches[k]) {
      assert SameStanding(a.batches[k], b.batches[k]) && SameStanding(b.batches[k], c.batches[k]);
    }
    forall j | j in a.instances && j != i ensures SameRow(a, c, j) { assert SameRow(a, b, j) && SameRow(b, c, j); }
  }

  lemma ChargeIsRootStep(db: Db, charge: Option<BatchId>, delta: int, i: InstanceId)
    ensures RootStep(db, Charged(db, charge, delta), i) && Charged(db, charge, delta).instances == db.instances
  {}

  lemma WalkIsRootStep(db: Db, i: InstanceId, x: Extraction)
    ensures var db' := Performing(db, i, x.names, WalkOf(x).ops); RootStep(db, db', i) && db.instances.Keys <= db'.instances.Keys
  {
    WalkIsWalkStep(db, i, x.names, WalkOf(x).ops);
  }

  lemma ChargedWalkIsRootStep(db: Db, charge: Option<BatchId>, estimate: nat, i: InstanceId, x: Extraction)
    requires i in db.instances
    ensures var walked := Performing(Charged(db, charge, estimate), i, x.names, WalkOf(x).ops);
            RootStep(db, walked, i) && i in walked.instances
  {
    var admitted := Charged(db, charge, estimate);
    ChargeIsRootStep(db, charge, estimate, i);
    WalkIsRootStep(admitted, i, x);
    RootStepsCompose(db, admitted, Performing(admitted, i, x.names, WalkOf(x).ops), i);
  }

  lemma SettlingIsRootStep(db: Db, charge: Option<BatchId>, delta: int, i: InstanceId, outcome: Outcome)
    ensures RootStep(db, Record(Charged(db, charge, delta), OfInstance(i), outcome), i)
  {}

  lemma WorkIsRootStep(claimed: Db, i: InstanceId, batch: Option<BatchId>, guarded: bool, x: Extraction)
    requires i in claimed.instances
    ensures var db := ArchiveWork(claimed, i, batch, guarded, x); RootStep(claimed, db, i) && i in db.instances
  {
    var estimate, charge := EstimateOf(claimed, i), Charges(claimed, batch);
    if !Refused(claimed, batch, estimate, guarded) {
      var delta: int := (if WalkOf(x).result.Returned? then WalkOf(x).bytes else 0) - estimate;
      var walked := Performing(Charged(claimed, charge, estimate), i, x.names, WalkOf(x).ops);
      ChargedWalkIsRootStep(claimed, charge, estimate, i, x);
      SettlingIsRootStep(walked, charge, delta, i, Outcomes(WalkOf(x).result));
      RootStepsCompose(claimed, walked, Record(Charged(walked, charge, delta), OfInstance(i), Outcomes(WalkOf(x).result)), i);
    }
  }

  lemma ClaimIsRootStep(db: Db, i: InstanceId, who: WorkerId, now: int)
    ensures RootStep(db, Claimed(db, i, who, now), i) && (i in db.instances ==> i in Claimed(db, i, who, now).instances)
  {}

  lemma ReleaseIsRootStep(db: Db, i: InstanceId, gen: nat)
    ensures RootStep(db, ReleaseInstance(db, i, gen), i)
  {}

  lemma ArchiveIsRootStep(db: Db, i: InstanceId, who: WorkerId, now: int, batch: Option<BatchId>, guarded: bool,
                          x: Extraction)
    requires i in db.instances
    ensures RootStep(db, ArchiveCall(db, i, who, now, batch, guarded, x), i)
  {
    var claimed := Claimed(db, i, who, now);
    var worked := ArchiveWork(claimed, i, batch, guarded, x);
    ClaimIsRootStep(db, i, who, now);
    WorkIsRootStep(claimed, i, batch, guarded, x);
    RootStepsCompose(db, claimed, worked, i);
    ReleaseIsRootStep(worked, i, InstanceGen(claimed, i));
    RootStepsCompose(db, worked, ArchiveCall(db, i, who, now, batch, guarded, x), i);
  }

  lemma WorkKeepsSuffix(claimed: Db, i: InstanceId, batch: Option<BatchId>, guarded: bool, x: Extraction)
    requires i in claimed.instances && !claimed.instances[i].member
    ensures var db := ReleaseInstance(ArchiveWork(claimed, i, batch, guarded, x), i, InstanceGen(claimed, i));
            i in db.instances && !db.instances[i].member &&
            db.instances[i].archiveSuffix == claimed.instances[i].archiveSuffix
  {
    WorkKeepsRow(claimed, i, batch, guarded, x);
  }

  /** A selected file that is not an archive. */
  predicate IsLoose(db: Db, j: InstanceId)
  {
    j in db.instances && !db.instances[j].member && !db.instances[j].archiveSuffix
  }

  predicate SameLoose(db: Db, db': Db, j: InstanceId)
  {
    (IsLoose(db', j) <==> IsLoose(db, j)) && (IsLoose(db, j) ==> db'.instances[j] == db.instances[j])
  }

  ghost predicate SameStandings(db: Db, db': Db)
  {
    db'.batches.Keys == db.batches.Keys && forall b :: b in db.batches ==> SameStanding(db.batches[b], db'.batches[b])
  }

  /** The selected files that are not archives, and the runs and statuses of the batches, are as they were. */
  ghost predicate LeavesOthers(db: Db, db': Db)
  {
    SameStandings(db, db') && forall j :: SameLoose(db, db', j)
  }

  lemma NothingTouched(db: Db)
    ensures LeavesOthers(db, db)
  {}

  lemma LeavesOthersComposes(a: Db, b: Db, c: Db)
    requires LeavesOthers(a, b) && LeavesOthers(b, c)
    ensures LeavesOthers(a, c)
  {
    forall k | k in a.batches ensures SameStanding(a.batches[k], c.batches[k]) {
      assert SameStanding(a.batches[k], b.batches[k]) && SameStanding(b.batches[k], c.batches[k]);
    }
    forall j ensures SameLoose(a, c, j) { assert SameLoose(a, b, j) && SameLoose(b, c, j); }
  }

  /** The loose roots are none of an archive call's business. */
  lemma ArchivesLeaveOthers(db: Db, i: InstanceId, who: WorkerId, now: int, batch: Option<BatchId>, guarded: bool,
                            x: Extraction)
    requires i in db.instances && db.instances[i].archiveSuffix && !db.instances[i].member
    ensures LeavesOthers(db, ArchiveCall(db, i, who, now, batch, guarded, x))
  {
    ArchiveIsRootStep(db, i, who, now, batch, guarded, x);
    WorkKeepsSuffix(Claimed(db, i, who, now), i, batch, guarded, x);
    OthersSame(db, ArchiveCall(db, i, who, now, batch, guarded, x), i);
  }

  lemma OthersSame(db: Db, db': Db, i: InstanceId)
    requires RootStep(db, db', i) && i in db.instances && i in db'.instances
    requires db.instances[i].archiveSuffix && db'.instances[i].archiveSuffix
    ensures LeavesOthers(db, db')
  {
    forall j ensures SameLoose(db, db', j) {
      if j in db.instances && j != i { assert SameRow(db, db', j); }
    }
  }

  lemma IdentitiesStay(db: Db, db': Db, run: Option<RunId>, staleBefore: int)
    requires LeavesOthers(db, db')
    ensures InstanceCandidates(db', IdentityQueue, run, {}, staleBefore) == InstanceCandidates(db, IdentityQueue, run, {}, staleBefore)
    ensures db'.batches.Keys == db.batches.Keys
  {
    StandingGate(db, db', run);
    forall j ensures j in InstanceCandidates(db', IdentityQueue, run, {}, staleBefore) <==>
                     j in InstanceCandidates(db, IdentityQueue, run, {}, staleBefore)
    {
      assert SameLoose(db, db', j);
    }
  }
}
