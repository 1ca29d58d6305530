/** The document stages as the services run them: claim a group, work on it statement by statement,
    release it. Each call's effect is a function of the tables, and that effect is a run of the
    protocol, so everything proved about runs holds of calls of this code. */
module Stages {
  import opened Collections
  import opened Tables
  import opened Protocol
  import opened WorkerClaims

  /** What the workspace holds for a group; an insert of its chunks can be refused by the database. */
  datatype Content = NoContent | Corrupt | Text(insertable: bool)

  function GenOf(db: Db, g: GroupId): nat
  {
    if g in db.groups then db.groups[g].gen else 0
  }

  function Granted(db: Db, g: GroupId, who: WorkerId, now: int): Db
  {
    if g in db.groups then GrantGroup(db, g, who, now, None) else db
  }

  /** Records the attempt and releases the claim into `to`. */
  function Closed(db: Db, g: GroupId, outcome: Outcome, to: PipelineState): Db
  {
    ReleaseGroup(Record(db, OfGroup(g), outcome), g, GenOf(db, g), Some(to))
  }

  function WithDocument(db: Db, g: GroupId): Db
  {
    if g in db.docs then db else db.(docs := db.docs[g := []])
  }

  function NormalizeCall(db: Db, g: GroupId, who: WorkerId, now: int, content: Content): Db
  {
    var claimed := Granted(db, g, who, now);
    if content.Text? then Closed(WithDocument(claimed, g), g, Succeeded, Normalized)
    else Closed(claimed, g, FailedRetryable, Failed)
  }

  function WithChunks(db: Db, g: GroupId): Db
  {
    if g in db.docs && g in db.groups && db.docs[g] == []
    then db.(docs := db.docs[g := seq(db.groups[g].pieces, _ => false)]) else db
  }

  function ChunkCall(db: Db, g: GroupId, who: WorkerId, now: int, content: Content): Db
  {
    var claimed := Granted(db, g, who, now);
    if g in db.docs && (db.docs[g] != [] || content == Text(true))
    then Closed(WithChunks(claimed, g), g, Succeeded, Chunked)
    else Closed(claimed, g, FailedRetryable, Failed)
  }

  function WithEmbeddings(db: Db, g: GroupId, stored: set<nat>): Db
  {
    if g in db.docs then db.(docs := db.docs[g := WithVectors(db.docs[g], stored)]) else db
  }

  function Final(db: Db, g: GroupId): PipelineState
  {
    if g in db.docs && Unembedded(db.docs[g]) == {} then Ingested else Embedded
  }

  /** A call that reserved and then embedded, or that failed and gave its reservation back. */
  function EmbedReserved(claimed: Db, g: GroupId, b: BatchId, n: nat, stored: Option<set<nat>>): Db
  {
    var gen := GenOf(claimed, g);
    var reserved := Reserve(claimed, g, gen, b, n);
    match stored
    case Some(chunks) =>
      var done := Record(WithEmbeddings(reserved, g, chunks), OfGroup(g), Succeeded);
      ReleaseGroup(ClearReservation(done, g, gen), g, gen, Some(Final(done, g)))
    case None =>
      var failed := Record(reserved, OfGroup(g), FailedRetryable);
      ReleaseGroup(ReleaseGroup(FreeReservation(failed, g, gen), g, gen, None), g, gen, Some(Failed))
  }

  function EmbedUnreserved(claimed: Db, g: GroupId, stored: Option<set<nat>>): Db
  {
    match stored
    case Some(chunks) => Closed(WithEmbeddings(claimed, g, chunks), g, Succeeded, Final(WithEmbeddings(claimed, g, chunks), g))
    case None => Closed(claimed, g, FailedRetryable, Failed)
  }

  /** `owner` is the batch the group resolves to, `stored` the chunks that got a vector (none if the
      embedding client raised), `guarded` whether the resource guard refuses. */
  function EmbedCall(db: Db, g: GroupId, who: WorkerId, now: int, owner: Option<BatchId>, guarded: bool,
                     stored: Option<set<nat>>): Db
  {
    var claimed := Granted(db, g, who, now);
    if g !in db.docs then Closed(claimed, g, FailedRetryable, Failed) else
      var todo := Unembedded(db.docs[g]);
      if todo == {} then Closed(claimed, g, Succeeded, Ingested)
      else if owner.None? then EmbedUnreserved(claimed, g, stored)
      else if guarded || !CanReserve(claimed, g, GenOf(claimed, g), owner.value, |todo|)
      then ReleaseGroup(claimed, g, GenOf(claimed, g), None)
      else EmbedReserved(claimed, g, owner.value, |todo|, stored)
  }

  // ----- every call is a run of the protocol ------------------------------------------------------

  lemma Extend(s: State, mid: State, a: Action)
    requires Later(s, mid)
    ensures Later(s, Do(mid, a))
  {
    LaterStep(mid, a);
    LaterTransitive(s, mid, Do(mid, a));
  }

  /** A call is in flight under token `t` and `s` is otherwise where the run started. */
  predicate Calls(s: State, mid: State, t: Token, w: Worker)
  {
    t !in s.workers && mid.workers == s.workers[t := w] && mid.now == s.now
  }

  predicate Returned(s: State, end: State, db: Db)
  {
    end.db == db && end.workers == s.workers && end.now == s.now
  }

  lemma ClaimRun(s: State, t: Token, g: GroupId, stage: Stage, who: WorkerId, lease: nat) returns (mid: State)
    requires t !in s.workers && g in GroupCandidates(s.db, Eligible(stage), s.now - lease, {})
    ensures Later(s, mid) && mid.db == Granted(s.db, g, who, s.now)
    ensures Calls(s, mid, t, OnGroup(g, GenOf(mid.db, g), stage, Working))
  {
    mid := Do(s, ClaimGroup(t, g, stage, who, lease));
    LaterStep(s, ClaimGroup(t, g, stage, who, lease));
  }

  /** The step of a call in flight, on the call itself. */
  lemma CallRun(s: State, mid: State, t: Token, w: Worker, a: GroupAction) returns (next: State)
    requires Later(s, mid) && Calls(s, mid, t, w) && w.OnGroup?
    ensures next == DoGroup(mid, t, a) && Later(s, next)
  {
    Extend(s, mid, GroupStep(t, a));
    next := Do(mid, GroupStep(t, a));
  }

  lemma ReleaseRun(s: State, mid: State, t: Token, g: GroupId, gen: nat, stage: Stage, to: Option<PipelineState>)
    returns (end: State)
    requires Later(s, mid) && Calls(s, mid, t, OnGroup(g, gen, stage, Releasing(to)))
    ensures Later(s, end) && Returned(s, end, ReleaseGroup(mid.db, g, gen, to))
  {
    end := CallRun(s, mid, t, OnGroup(g, gen, stage, Releasing(to)), Release);
    assert end == DoRelease(mid, t);
    assert s.workers[t := OnGroup(g, gen, stage, Releasing(to))] - {t} == s.workers;
  }

  lemma FailRun(s: State, mid: State, t: Token, g: GroupId, gen: nat, stage: Stage) returns (end: State)
    requires Later(s, mid) && Calls(s, mid, t, OnGroup(g, gen, stage, Failing(false)))
    ensures Later(s, end) && Returned(s, end, ReleaseGroup(Record(mid.db, OfGroup(g), FailedRetryable), g, gen, Some(Failed)))
  {
    var w := OnGroup(g, gen, stage, Failing(false));
    var next := CallRun(s, mid, t, w, RecordFailure);
    assert next == DoRecordFailure(mid, t);
    end := ReleaseRun(s, next, t, g, gen, stage, Some(Failed));
  }

  lemma FailWorkingRun(s: State, mid: State, t: Token, g: GroupId, gen: nat, stage: Stage) returns (end: State)
    requires Later(s, mid) && Calls(s, mid, t, OnGroup(g, gen, stage, Working))
    requires (stage.Embedding? ==> g !in mid.db.docs)
    ensures Later(s, end) && Returned(s, end, ReleaseGroup(Record(mid.db, OfGroup(g), FailedRetryable), g, gen, Some(Failed)))
  {
    var next := CallRun(s, mid, t, OnGroup(g, gen, stage, Working), Fail);
    assert next == DoFail(mid, t);
    end := FailRun(s, next, t, g, gen, stage);
  }

  lemma PreparedRun(s: State, mid: State, t: Token, g: GroupId, gen: nat, stage: Stage) returns (end: State)
    requires Later(s, mid) && Calls(s, mid, t, OnGroup(g, gen, stage, Prepared)) && !stage.Embedding?
    ensures Later(s, end)
    ensures Returned(s, end, ReleaseGroup(Record(mid.db, OfGroup(g), Succeeded), g, gen,
                                          Some(if stage.Normalizing? then Normalized else Chunked)))
  {
    var next := CallRun(s, mid, t, OnGroup(g, gen, stage, Prepared), RecordPrepared);
    assert next == DoRecordPrepared(mid, t);
    end := ReleaseRun(s, next, t, g, gen, stage, Some(if stage.Normalizing? then Normalized else Chunked));
  }

  /** A normalization call is a run: claim, document, attempt, release. */
  lemma NormalizeIsARun(s: State, t: Token, g: GroupId, who: WorkerId, lease: nat, content: Content)
    returns (end: State)
    requires t !in s.workers && g in GroupCandidates(s.db, {Extracted}, s.now - lease, {})
    ensures Later(s, end) && Returned(s, end, NormalizeCall(s.db, g, who, s.now, content))
  {
    var mid := ClaimRun(s, t, g, Normalizing, who, lease);
    var gen := GenOf(mid.db, g);
    if content.Text? {
      var next := CallRun(s, mid, t, OnGroup(g, gen, Normalizing, Working), WriteDocument);
      assert next == DoWriteDocument(mid, t);
      end := PreparedRun(s, next, t, g, gen, Normalizing);
    } else {
      end := FailWorkingRun(s, mid, t, g, gen, Normalizing);
    }
  }

  lemma ChunkIsARun(s: State, t: Token, g: GroupId, who: WorkerId, lease: nat, content: Content) returns (end: State)
    requires t !in s.workers && g in GroupCandidates(s.db, {Normalized}, s.now - lease, {})
    ensures Later(s, end) && Returned(s, end, ChunkCall(s.db, g, who, s.now, content))
  {
    var mid := ClaimRun(s, t, g, Chunking, who, lease);
    var gen := GenOf(mid.db, g);
    if g in s.db.docs && (s.db.docs[g] != [] || content == Text(true)) {
      var next := CallRun(s, mid, t, OnGroup(g, gen, Chunking, Working), WriteChunks);
      assert next == DoWriteChunks(mid, t);
      assert next.db.docs == WithChunks(mid.db, g).docs;
      end := PreparedRun(s, next, t, g, gen, Chunking);
    } else {
      end := FailWorkingRun(s, mid, t, g, gen, Chunking);
    }
  }

  lemma StoredRun(s: State, mid: State, t: Token, g: GroupId, gen: nat, reserved: bool) returns (next: State)
    requires Later(s, mid) && Calls(s, mid, t, OnGroup(g, gen, Embedding, Stored(reserved))) && g in mid.db.docs
    ensures Later(s, next) && next.db == Record(mid.db, OfGroup(g), Succeeded)
    ensures Calls(s, next, t, OnGroup(g, gen, Embedding,
              if reserved then Consuming(Final(mid.db, g)) else Releasing(Some(Final(mid.db, g)))))
  {
    var counting := CallRun(s, mid, t, OnGroup(g, gen, Embedding, Stored(reserved)), RecordStored);
    assert counting == DoRecordStored(mid, t);
    next := CallRun(s, counting, t, OnGroup(g, gen, Embedding, Counting(reserved)), CountRemaining);
    assert next == DoCountRemaining(counting, t);
  }

  /** The embedding client answers, or raises, for a call that has asked for `todo`. */
  lemma AnswerRun(s: State, mid: State, t: Token, g: GroupId, gen: nat, todo: set<nat>, reserved: bool,
                  stored: Option<set<nat>>)
    returns (next: State)
    requires Later(s, mid) && Calls(s, mid, t, OnGroup(g, gen, Embedding, Calling(todo, reserved))) && g in mid.db.docs
    requires stored.Some? ==> stored.value <= todo
    ensures Later(s, next) && next.db == if stored.Some? then WithEmbeddings(mid.db, g, stored.value) else mid.db
    ensures Calls(s, next, t, OnGroup(g, gen, Embedding, if stored.Some? then Stored(reserved) else Failing(reserved)))
  {
    if stored.Some? {
      next := CallRun(s, mid, t, OnGroup(g, gen, Embedding, Calling(todo, reserved)), Embed(stored.value));
      assert next == DoEmbed(mid, t, stored.value);
    } else {
      next := CallRun(s, mid, t, OnGroup(g, gen, Embedding, Calling(todo, reserved)), Fail);
      assert next == DoFail(mid, t);
    }
  }

  lemma ConsumeRun(s: State, mid: State, t: Token, g: GroupId, gen: nat, final: PipelineState) returns (end: State)
    requires Later(s, mid) && Calls(s, mid, t, OnGroup(g, gen, Embedding, Consuming(final)))
    requires HoldsReservation(mid.db, g, gen)
    ensures Later(s, end) && Returned(s, end, ReleaseGroup(ClearReservation(mid.db, g, gen), g, gen, Some(final)))
  {
    var next := CallRun(s, mid, t, OnGroup(g, gen, Embedding, Consuming(final)), Consume);
    assert next == DoConsume(mid, t);
    end := ReleaseRun(s, next, t, g, gen, Embedding, Some(final));
  }

  lemma FreedRun(s: State, mid: State, t: Token, g: GroupId, gen: nat) returns (next: State)
    requires Later(s, mid) && Calls(s, mid, t, OnGroup(g, gen, Embedding, Failing(true)))
    requires HoldsReservation(mid.db, g, gen)
    ensures Later(s, next) && next.db == FreeReservation(Record(mid.db, OfGroup(g), FailedRetryable), g, gen)
    ensures Calls(s, next, t, OnGroup(g, gen, Embedding, Freed))
  {
    var recorded := CallRun(s, mid, t, OnGroup(g, gen, Embedding, Failing(true)), RecordFailure);
    assert recorded == DoRecordFailure(mid, t);
    next := CallRun(s, recorded, t, OnGroup(g, gen, Embedding, Freeing), Free);
    assert next == DoFree(recorded, t);
  }

  lemma GiveBackRun(s: State, mid: State, t: Token, g: GroupId, gen: nat) returns (end: State)
    requires Later(s, mid) && Calls(s, mid, t, OnGroup(g, gen, Embedding, Failing(true)))
    requires HoldsReservation(mid.db, g, gen)
    ensures Later(s, end)
    ensures var failed := Record(mid.db, OfGroup(g), FailedRetryable);
            Returned(s, end, ReleaseGroup(ReleaseGroup(FreeReservation(failed, g, gen), g, gen, None), g, gen, Some(Failed)))
  {
    var freed := FreedRun(s, mid, t, g, gen);
    var released := CallRun(s, freed, t, OnGroup(g, gen, Embedding, Freed), ReleaseFreed);
    assert released == DoReleaseFreed(freed, t);
    end := ReleaseRun(s, released, t, g, gen, Embedding, Some(Failed));
  }

  lemma ReservedRun(s: State, mid: State, t: Token, g: GroupId, gen: nat, todo: set<nat>, b: BatchId,
                    stored: Option<set<nat>>)
    returns (end: State)
    requires Later(s, mid) && Calls(s, mid, t, OnGroup(g, gen, Embedding, Reserving(todo, b))) && g in mid.db.docs
    requires gen == GenOf(mid.db, g) && CanReserve(mid.db, g, gen, b, |todo|) && (stored.Some? ==> stored.value <= todo)
    ensures Later(s, end) && Returned(s, end, EmbedReserved(mid.db, g, b, |todo|, stored))
  {
    var reserved := CallRun(s, mid, t, OnGroup(g, gen, Embedding, Reserving(todo, b)), ReserveFor(false));
    assert reserved == DoReserve(mid, t, false);
    var answered := AnswerRun(s, reserved, t, g, gen, todo, true, stored);
    if stored.Some? {
      var counted := StoredRun(s, answered, t, g, gen, true);
      end := ConsumeRun(s, counted, t, g, gen, Final(answered.db, g));
    } else {
      end := GiveBackRun(s, answered, t, g, gen);
    }
  }

  lemma UnreservedRun(s: State, mid: State, t: Token, g: GroupId, gen: nat, todo: set<nat>, stored: Option<set<nat>>)
    returns (end: State)
    requires Later(s, mid) && Calls(s, mid, t, OnGroup(g, gen, Embedding, Calling(todo, false))) && g in mid.db.docs
    requires gen == GenOf(mid.db, g) && (stored.Some? ==> stored.value <= todo)
    ensures Later(s, end) && Returned(s, end, EmbedUnreserved(mid.db, g, stored))
  {
    var answered := AnswerRun(s, mid, t, g, gen, todo, false, stored);
    if stored.Some? {
      var counted := StoredRun(s, answered, t, g, gen, false);
      end := ReleaseRun(s, counted, t, g, gen, Embedding, Some(Final(answered.db, g)));
    } else {
      end := FailRun(s, answered, t, g, gen, Embedding);
    }
  }

  lemma PendingRun(s: State, mid: State, t: Token, g: GroupId, gen: nat, owner: Option<BatchId>, guarded: bool,
                   stored: Option<set<nat>>) returns (end: State)
    requires g in mid.db.docs && gen == GenOf(mid.db, g) && Later(s, mid)
    requires Calls(s, mid, t, OnGroup(g, gen, Embedding, Pending(Unembedded(mid.db.docs[g]))))
    requires Resolves(mid.db, g, owner) && (stored.Some? ==> stored.value <= Unembedded(mid.db.docs[g]))
    ensures Later(s, end)
    ensures var n := |Unembedded(mid.db.docs[g])|;
            Returned(s, end, if owner.None? then EmbedUnreserved(mid.db, g, stored)
                             else if guarded || !CanReserve(mid.db, g, gen, owner.value, n) then ReleaseGroup(mid.db, g, gen, None)
                             else EmbedReserved(mid.db, g, owner.value, n, stored))
  {
    var todo := Unembedded(mid.db.docs[g]);
    var resolved := CallRun(s, mid, t, OnGroup(g, gen, Embedding, Pending(todo)), ResolveBatch(owner));
    assert resolved == DoResolveBatch(mid, t, owner);
    if owner.None? {
      end := UnreservedRun(s, resolved, t, g, gen, todo, stored);
    } else if guarded || !CanReserve(mid.db, g, gen, owner.value, |todo|) {
      var denied := CallRun(s, resolved, t, OnGroup(g, gen, Embedding, Reserving(todo, owner.value)), ReserveFor(guarded));
      assert denied == DoReserve(resolved, t, guarded);
      end := ReleaseRun(s, denied, t, g, gen, Embedding, None);
    } else {
      end := ReservedRun(s, resolved, t, g, gen, todo, owner.value, stored);
    }
  }

  /** An embedding call is a run, whatever the guard, the batch's envelope and the client answer. */
  lemma EmbedIsARun(s: State, t: Token, g: GroupId, who: WorkerId, lease: nat, owner: Option<BatchId>, guarded: bool,
                    stored: Option<set<nat>>) returns (end: State)
    requires t !in s.workers && g in GroupCandidates(s.db, {Chunked, Embedded}, s.now - lease, {})
    requires Resolves(Granted(s.db, g, who, s.now), g, owner)
    requires g in s.db.docs && stored.Some? ==> stored.value <= Unembedded(s.db.docs[g])
    ensures Later(s, end) && Returned(s, end, EmbedCall(s.db, g, who, s.now, owner, guarded, stored))
  {
    var mid := ClaimRun(s, t, g, Embedding, who, lease);
    var gen := GenOf(mid.db, g);
    if g !in s.db.docs {
      end := FailWorkingRun(s, mid, t, g, gen, Embedding);
    } else {
      var read := CallRun(s, mid, t, OnGroup(g, gen, Embedding, Working), ReadPending);
      assert read == DoReadPending(mid, t);
      if Unembedded(s.db.docs[g]) == {} {
        var counted := StoredRun(s, read, t, g, gen, false);
        end := ReleaseRun(s, counted, t, g, gen, Embedding, Some(Ingested));
      } else {
        end := PendingRun(s, read, t, g, gen, owner, guarded, stored);
      }
    }
  }

  // ----- what the calls leave behind ---------------------------------------------------------------

  predicate Settled(before: Group, after: Group)
  {
    after.claim.None? && after.reserved.None? && after.gen == before.gen && after.pieces == before.pieces
  }

  predicate AllTrue(chunks: seq<bool>)
  {
    forall k :: 0 <= k < |chunks| ==> chunks[k]
  }

  lemma FinalMeans(db: Db, g: GroupId)
    requires g in db.docs
    ensures Final(db, g) == Ingested <==> AllTrue(db.docs[g])
  {
    assert forall k :: 0 <= k < |db.docs[g]| && !db.docs[g][k] ==> k in Unembedded(db.docs[g]);
  }

  /** A reserved call that embedded leaves the batch charged for exactly what it reserved; one that
      failed leaves every batch as it found it. */
  lemma ReservedSettles(db: Db, g: GroupId, b: BatchId, n: nat, stored: Option<set<nat>>)
    requires g in db.docs && CanReserve(db, g, GenOf(db, g), b, n)
    ensures var db' := EmbedReserved(db, g, b, n, stored);
            g in db'.groups && g in db'.docs && Settled(db.groups[g], db'.groups[g])
    ensures var db' := EmbedReserved(db, g, b, n, stored);
            if stored.None? then db'.batches == db.batches && db'.docs == db.docs && db'.groups[g].state == Failed
            else db'.batches == db.batches[b := db.batches[b].(embeddingsReserved := db.batches[b].embeddingsReserved + n)] &&
                 (db'.groups[g].state == Ingested <==> AllTrue(db'.docs[g])) && db'.groups[g].state in {Embedded, Ingested}
  {
    if stored.Some? {
      FinalMeans(Record(WithEmbeddings(Reserve(db, g, GenOf(db, g), b, n), g, stored.value), OfGroup(g), Succeeded), g);
    } else {
      assert db.batches[b := db.batches[b]] == db.batches;
    }
  }

  lemma UnreservedSettles(db: Db, g: GroupId, stored: Option<set<nat>>)
    requires g in db.docs && g in db.groups && db.groups[g].reserved.None?
    ensures var db' := EmbedUnreserved(db, g, stored);
            g in db'.groups && g in db'.docs && Settled(db.groups[g], db'.groups[g]) && db'.batches == db.batches
    ensures var db' := EmbedUnreserved(db, g, stored);
            if stored.None? then db'.groups[g].state == Failed
            else (db'.groups[g].state == Ingested <==> AllTrue(db'.docs[g])) && db'.groups[g].state in {Embedded, Ingested}
  {
    if stored.Some? { FinalMeans(WithEmbeddings(db, g, stored.value), g); }
  }

  predicate Deferred(db: Db, g: GroupId, who: WorkerId, now: int, owner: Option<BatchId>, guarded: bool)
  {
    var claimed := Granted(db, g, who, now);
    g in db.docs && Unembedded(db.docs[g]) != {} && owner.Some? &&
    (guarded || !CanReserve(claimed, g, GenOf(claimed, g), owner.value, |Unembedded(db.docs[g])|))
  }

  /** Run to its end, an embedding call leaves its group unclaimed and unreserved one generation on.
      A deferred call changes nothing else about it; any other moves it to FAILED, EMBEDDED or INGESTED, and
      to INGESTED exactly when every chunk has its embedding. */
  lemma EmbedCallSettles(db: Db, g: GroupId, who: WorkerId, now: int, owner: Option<BatchId>, guarded: bool,
                         stored: Option<set<nat>>)
    requires g in db.groups && g in db.docs
    ensures var db' := EmbedCall(db, g, who, now, owner, guarded, stored);
            g in db'.groups && g in db'.docs && Settled(db.groups[g].(gen := db.groups[g].gen + 1), db'.groups[g])
    ensures var db' := EmbedCall(db, g, who, now, owner, guarded, stored);
            if Deferred(db, g, who, now, owner, guarded) then db'.groups[g].state == db.groups[g].state && db'.docs == db.docs
            else db'.groups[g].state in {Failed, Embedded, Ingested} && (db'.groups[g].state == Ingested ==> AllTrue(db'.docs[g])) &&
                 (db'.groups[g].state == Embedded ==> !AllTrue(db'.docs[g]))
  {
    var claimed := Granted(db, g, who, now);
    var todo := Unembedded(db.docs[g]);
    if todo == {} {
      FinalMeans(db, g);
    } else if owner.None? {
      UnreservedSettles(claimed, g, stored);
    } else if !Deferred(db, g, who, now, owner, guarded) {
      ReservedSettles(claimed, g, owner.value, |todo|, stored);
    }
  }

  /** What a call on a group leaves of its row, of the documents and of the attempts: the row one generation on,
      neither claimed nor reserved. */
  predicate Leaves(db: Db, db': Db, g: GroupId, state: PipelineState, docs: map<GroupId, seq<bool>>, outcome: Outcome)
  {
    g in db.groups && db'.docs == docs && db'.instances == db.instances &&
    db'.groups == db.groups[g := Group(state, None, db.groups[g].gen + 1, None, db.groups[g].pieces, db.groups[g].created)] &&
    db'.attempts == db.attempts + {Attempt(OfGroup(g), outcome)}
  }

  /** A normalization call succeeds exactly if the workspace holds text: the group then has a document, the
      one it had or a new one without chunk rows. */
  lemma NormalizeCallMeans(db: Db, g: GroupId, who: WorkerId, now: int, content: Content)
    requires g in db.groups
    ensures var db' := NormalizeCall(db, g, who, now, content);
            if content.NoContent? || content.Corrupt? then Leaves(db, db', g, Failed, db.docs, FailedRetryable)
            else Leaves(db, db', g, Normalized, if g in db.docs then db.docs else db.docs[g := []], Succeeded)
  {}

  /** A chunking call succeeds exactly if there is a document and it has chunk rows already or they can be
      inserted; chunk rows that are there are left alone, and otherwise all of them come, without embeddings. */
  lemma ChunkCallMeans(db: Db, g: GroupId, who: WorkerId, now: int, content: Content)
    requires g in db.groups
    ensures var db' := ChunkCall(db, g, who, now, content);
            if !(g in db.docs && (|db.docs[g]| > 0 || content == Text(true)))
            then Leaves(db, db', g, Failed, db.docs, FailedRetryable)
            else Leaves(db, db', g, Chunked, db'.docs, Succeeded) && db'.docs.Keys == db.docs.Keys &&
                 (forall h :: h in db.docs && (h != g || |db.docs[h]| > 0) ==> db'.docs[h] == db.docs[h]) &&
                 (|db.docs[g]| == 0 ==> |db'.docs[g]| == db.groups[g].pieces && forall k :: 0 <= k < |db'.docs[g]| ==> !db'.docs[g][k])
  {}

  /** An embedding call that is not deferred, case by case: without a document it fails; with nothing to embed
      the group is ingested; otherwise it fails exactly if the client raises, and if not the answered chunks
      have their embeddings, and the group is ingested exactly if that makes all of them. A deferred call only
      gives the claim back. */
  lemma EmbedCallMeans(db: Db, g: GroupId, who: WorkerId, now: int, owner: Option<BatchId>, guarded: bool,
                       stored: Option<set<nat>>)
    requires g in db.groups
    ensures var db' := EmbedCall(db, g, who, now, owner, guarded, stored);
            if g !in db.docs then Leaves(db, db', g, Failed, db.docs, FailedRetryable)
            else if forall k :: 0 <= k < |db.docs[g]| ==> db.docs[g][k] then Leaves(db, db', g, Ingested, db.docs, Succeeded)
            else if Deferred(db, g, who, now, owner, guarded)
            then db'.groups == db.groups[g := db.groups[g].(claim := None, gen := db.groups[g].gen + 1, reserved := None)] &&
                 db'.docs == db.docs && db'.attempts == db.attempts && db'.instances == db.instances
            else if stored.None? then Leaves(db, db', g, Failed, db.docs, FailedRetryable)
            else var chunks := WithVectors(db.docs[g], stored.value);
                 Leaves(db, db', g, if forall k :: 0 <= k < |chunks| ==> chunks[k] then Ingested else Embedded,
                        db.docs[g := chunks], Succeeded)
  {
    if g in db.docs {
      FinalMeans(db, g);
      var claimed := Granted(db, g, who, now);
      if k :| 0 <= k < |db.docs[g]| && !db.docs[g][k] {
        assert k in Unembedded(db.docs[g]);
        if !Deferred(db, g, who, now, owner, guarded) { EmbedAskedMeans(db, claimed, g, who, now, owner, guarded, stored); }
      } else {
        assert Unembedded(db.docs[g]) == {};
      }
    }
  }

  lemma EmbedAskedMeans(db: Db, claimed: Db, g: GroupId, who: WorkerId, now: int, owner: Option<BatchId>, guarded: bool,
                        stored: Option<set<nat>>)
    requires g in db.groups && g in db.docs && Unembedded(db.docs[g]) != {} && claimed == Granted(db, g, who, now)
    requires !Deferred(db, g, who, now, owner, guarded)
    ensures var db' := EmbedCall(db, g, who, now, owner, guarded, stored);
            if stored.None? then Leaves(db, db', g, Failed, db.docs, FailedRetryable)
            else var chunks := WithVectors(db.docs[g], stored.value);
                 Leaves(db, db', g, if forall k :: 0 <= k < |chunks| ==> chunks[k] then Ingested else Embedded,
                        db.docs[g := chunks], Succeeded)
  {
    if owner.None? {
      UnreservedLeaves(db, claimed, g, stored);
    } else {
      ReservedLeaves(db, claimed, g, owner.value, |Unembedded(db.docs[g])|, stored);
    }
  }

  lemma UnreservedLeaves(db: Db, claimed: Db, g: GroupId, stored: Option<set<nat>>)
    requires g in db.docs && WasGranted(db, claimed, g)
    ensures var db' := EmbedUnreserved(claimed, g, stored);
            if stored.None? then Leaves(db, db', g, Failed, db.docs, FailedRetryable)
            else var chunks := WithVectors(db.docs[g], stored.value);
                 Leaves(db, db', g, if forall k :: 0 <= k < |chunks| ==> chunks[k] then Ingested else Embedded,
                        db.docs[g := chunks], Succeeded)
  {
    if stored.Some? { FinalMeans(WithEmbeddings(claimed, g, stored.value), g); }
  }

  lemma ReservedLeaves(db: Db, claimed: Db, g: GroupId, b: BatchId, n: nat, stored: Option<set<nat>>)
    requires g in db.docs && WasGranted(db, claimed, g) && CanReserve(claimed, g, GenOf(claimed, g), b, n)
    ensures var db' := EmbedReserved(claimed, g, b, n, stored);
            if stored.None? then Leaves(db, db', g, Failed, db.docs, FailedRetryable)
            else var chunks := WithVectors(db.docs[g], stored.value);
                 Leaves(db, db', g, if forall k :: 0 <= k < |chunks| ==> chunks[k] then Ingested else Embedded,
                        db.docs[g := chunks], Succeeded)
  {
    if stored.Some? {
      FinalMeans(Record(WithEmbeddings(Reserve(claimed, g, GenOf(claimed, g), b, n), g, stored.value), OfGroup(g), Succeeded), g);
    }
  }

  /** The group's row is claimed, one generation on and without a reservation; only batches may differ besides. */
  predicate WasGranted(db: Db, claimed: Db, g: GroupId)
  {
    g in db.groups && g in claimed.groups && claimed.docs == db.docs && claimed.instances == db.instances && claimed.attempts == db.attempts &&
    claimed.groups == db.groups[g := db.groups[g].(claim := claimed.groups[g].claim, gen := db.groups[g].gen + 1, reserved := None)]
  }

  /** An embedding call is deferred exactly if something is to be embedded, the group has an owner, and the guard
      refuses, or the owner is not RUNNING, or what is to be embedded does not fit its envelope, an abandoned
      reservation of the row given back. */
  lemma DeferredExactly(db: Db, g: GroupId, who: WorkerId, now: int, owner: Option<BatchId>, guarded: bool)
    requires g in db.groups && g in db.docs && (owner.Some? ==> owner.value in db.batches)
    ensures Deferred(db, g, who, now, owner, guarded) <==>
            (exists k :: 0 <= k < |db.docs[g]| && !db.docs[g][k]) && owner.Some? &&
            (guarded || db.batches[owner.value].status != Running ||
             db.batches[owner.value].embeddingsReserved + |set k: nat | k < |db.docs[g]| && !db.docs[g][k]| >
             db.batches[owner.value].maxEmbeddings +
             if db.groups[g].reserved.Some? && db.groups[g].reserved.value.batch == owner.value
             then db.groups[g].reserved.value.amount else 0)
  {
    if k :| 0 <= k < |db.docs[g]| && !db.docs[g][k] { assert k in Unembedded(db.docs[g]); }
    if k :| k in Unembedded(db.docs[g]) { assert !db.docs[g][k]; }
    assert (set k: nat | k < |db.docs[g]| && !db.docs[g][k]) == Unembedded(db.docs[g]);
  }

  // ----- the services ------------------------------------------------------------------------------

  /** The chunk rows without an embedding, in chunk order. */
  function Todo(chunks: seq<bool>, from: nat): (r: seq<nat>)
    requires from <= |chunks|
    ensures forall i :: 0 <= i < |r| ==> from <= r[i] < |chunks| && !chunks[r[i]]
    ensures forall i, j :: 0 <= i < j < |r| ==> r[i] < r[j]
    ensures forall k :: from <= k < |chunks| && !chunks[k] ==> k in r
    decreases |chunks| - from
  {
    if from == |chunks| then [] else
      var rest := Todo(chunks, from + 1);
      if chunks[from] then rest else [from] + rest
  }

  function FirstOf(todo: seq<nat>, count: nat): set<nat>
  {
    set i | 0 <= i < |todo| && i < count :: todo[i]
  }

  function LeftFrom(chunks: seq<bool>, from: nat): set<nat>
  {
    set k: nat | from <= k < |chunks| && !chunks[k]
  }

  lemma LeftStep(chunks: seq<bool>, from: nat)
    requires from < |chunks|
    ensures |LeftFrom(chunks, from)| == |LeftFrom(chunks, from + 1)| + if chunks[from] then 0 else 1
  {
    var rest := LeftFrom(chunks, from + 1);
    assert LeftFrom(chunks, from) == if chunks[from] then rest else rest + {from};
  }

  lemma TodoStep(chunks: seq<bool>, from: nat)
    requires from < |chunks|
    ensures |Todo(chunks, from)| == |Todo(chunks, from + 1)| + if chunks[from] then 0 else 1
  {}

  lemma {:induction false} TodoCounts(chunks: seq<bool>, from: nat)
    requires from <= |chunks|
    ensures |Todo(chunks, from)| == |LeftFrom(chunks, from)|
    decreases |chunks| - from
  {
    if from < |chunks| {
      TodoCounts(chunks, from + 1);
      TodoStep(chunks, from);
      LeftStep(chunks, from);
    } else {
      assert LeftFrom(chunks, from) == {};
    }
  }

  lemma TodoIsUnembedded(chunks: seq<bool>)
    ensures (set k | k in Todo(chunks, 0)) == Unembedded(chunks)
    ensures |Todo(chunks, 0)| == |Unembedded(chunks)|
  {
    TodoCounts(chunks, 0);
    assert Unembedded(chunks) == LeftFrom(chunks, 0);
  }

  lemma FirstCounts(todo: seq<nat>, count: nat)
    requires forall i, j :: 0 <= i < j < |todo| ==> todo[i] < todo[j]
    ensures |FirstOf(todo, count)| == Least(|todo|, count)
    decreases count
  {
    if count == 0 {
      assert FirstOf(todo, 0) == {};
    } else {
      FirstCounts(todo, count - 1);
      if count <= |todo| {
        assert FirstOf(todo, count) == FirstOf(todo, count - 1) + {todo[count - 1]};
      } else {
        assert FirstOf(todo, count) == FirstOf(todo, count - 1);
      }
    }
  }

  /** The chunks that get a vector are those without one, from the first on, as many as there are vectors. */
  lemma FirstGetVectors(chunks: seq<bool>, count: nat)
    ensures var stored := FirstOf(Todo(chunks, 0), count);
            (forall k :: k in stored ==> k < |chunks| && !chunks[k]) &&
            (forall j, k :: 0 <= j < k < |chunks| && k in stored && !chunks[j] ==> j in stored) &&
            |stored| == Least(|set k: nat | k < |chunks| && !chunks[k]|, count)
  {
    var todo := Todo(chunks, 0);
    TodoIsUnembedded(chunks);
    FirstCounts(todo, count);
    assert (set k: nat | k < |chunks| && !chunks[k]) == Unembedded(chunks);
    forall j, k | 0 <= j < k < |chunks| && k in FirstOf(todo, count) && !chunks[j] ensures j in FirstOf(todo, count) {
      var i :| 0 <= i < |todo| && i < count && todo[i] == k;
      var m :| 0 <= m < |todo| && todo[m] == j;
    }
  }

  class StageServices {
    const session: Session
    const claims: WorkerClaimService

    constructor (session: Session)
      ensures this.session == session && claims.session == session
    {
      this.session := session;
      claims := new WorkerClaimService(session);
    }

    method RecordPipelineAttempt(g: GroupId, outcome: Outcome)
      modifies session`db
      ensures session.db == Record(old(session.db), OfGroup(g), outcome)
    {
      session.db := session.db.(attempts := session.db.attempts + {Attempt(OfGroup(g), outcome)});
    }

    method Fail(g: GroupId, gen: nat)
      requires claims.session == session
      modifies session`db
      ensures session.db == ReleaseGroup(Record(old(session.db), OfGroup(g), FailedRetryable), g, gen, Some(Failed))
    {
      RecordPipelineAttempt(g, FailedRetryable);
      var _ := claims.ReleaseContentIdentityGroupClaim(g, gen, Some(Failed));
    }

    method NormalizeNext(who: WorkerId, lease: nat, locked: set<GroupId>, workspace: GroupId -> Content)
      returns (claimed: Option<GroupId>)
      requires claims.session == session
      modifies session`db
      ensures claimed.None? ==>
                GroupCandidates(session.db, {Extracted}, session.now - lease, locked) == {} && session.db == old(session.db)
      ensures claimed.Some? ==>
                OldestGroup(old(session.db), claimed.value, GroupCandidates(old(session.db), {Extracted}, session.now - lease, locked))
      ensures claimed.Some? ==>
                session.db == NormalizeCall(old(session.db), claimed.value, who, session.now, workspace(claimed.value))
      ensures claimed.Some? ==>
                var g := claimed.value;
                if workspace(g).Text?
                then Leaves(old(session.db), session.db, g, Normalized,
                            if g in old(session.db.docs) then old(session.db.docs) else old(session.db.docs)[g := []], Succeeded)
                else Leaves(old(session.db), session.db, g, Failed, old(session.db.docs), FailedRetryable)
    {
      claimed := claims.ClaimContentIdentityGroup(who, {Extracted}, lease, locked, None);
      if claimed.None? { return; }
      var g := claimed.value;
      var gen := session.db.groups[g].gen;
      if !workspace(g).Text? { Fail(g, gen); return; }
      if g !in session.db.docs { session.db := session.db.(docs := session.db.docs[g := []]); }
      RecordPipelineAttempt(g, Succeeded);
      var _ := claims.ReleaseContentIdentityGroupClaim(g, gen, Some(Normalized));
    }

    method ChunkNext(who: WorkerId, lease: nat, locked: set<GroupId>, workspace: GroupId -> Content)
      returns (claimed: Option<GroupId>)
      requires claims.session == session
      modifies session`db
      ensures claimed.None? ==>
                GroupCandidates(session.db, {Normalized}, session.now - lease, locked) == {} && session.db == old(session.db)
      ensures claimed.Some? ==>
                OldestGroup(old(session.db), claimed.value, GroupCandidates(old(session.db), {Normalized}, session.now - lease, locked))
      ensures claimed.Some? ==>
                session.db == ChunkCall(old(session.db), claimed.value, who, session.now, workspace(claimed.value))
      ensures claimed.Some? ==>
                var g, docs := claimed.value, old(session.db.docs);
                if g in docs && (|docs[g]| > 0 || workspace(g) == Text(true))
                then Leaves(old(session.db), session.db, g, Chunked,
                            if |docs[g]| > 0 then docs else docs[g := seq(old(session.db.groups)[g].pieces, _ => false)], Succeeded)
                else Leaves(old(session.db), session.db, g, Failed, docs, FailedRetryable)
    {
      claimed := claims.ClaimContentIdentityGroup(who, {Normalized}, lease, locked, None);
      if claimed.None? { return; }
      var g := claimed.value;
      var gen := session.db.groups[g].gen;
      if g !in session.db.docs { Fail(g, gen); return; }
      if |session.db.docs[g]| == 0 {
        if workspace(g) != Text(true) { Fail(g, gen); return; }
        session.db := session.db.(docs := session.db.docs[g := seq(session.db.groups[g].pieces, _ => false)]);
      }
      RecordPipelineAttempt(g, Succeeded);
      var _ := claims.ReleaseContentIdentityGroupClaim(g, gen, Some(Chunked));
    }

    /** The lowest id among the RUNNING batches one of whose instances resolves to the group. */
    method ResolveOwningRunningBatch(g: GroupId) returns (owner: Option<BatchId>)
      ensures Resolves(session.db, g, owner)
      ensures owner.None? ==>
                forall b, i ::
                  b in session.db.batches && session.db.batches[b].status == Running &&
                  i in session.db.instances && session.db.instances[i].run == session.db.batches[b].run ==>
                    session.db.instances[i].group != Some(g)
      ensures owner.Some? ==>
                owner.value in session.db.batches && session.db.batches[owner.value].status == Running &&
                (exists i :: i in session.db.instances && session.db.instances[i].run == session.db.batches[owner.value].run &&
                             session.db.instances[i].group == Some(g)) &&
                forall b, i ::
                  b in session.db.batches && session.db.batches[b].status == Running &&
                  i in session.db.instances && session.db.instances[i].run == session.db.batches[b].run &&
                  session.db.instances[i].group == Some(g) ==>
                    owner.value <= b
    {
      var db := session.db;
      var owners := set b | b in db.batches && db.batches[b].status == Running && Owns(db, b, g);
      if owners == {} {
        assert forall c :: c in db.batches && db.batches[c].status == Running && Owns(db, c, g) ==> c in owners;
        return None;
      }
      ghost var least := LeastExists<BatchId>(owners, c => c);
      var b :| b in owners && forall c :: c in owners ==> b <= c;
      assert forall c :: c in db.batches && db.batches[c].status == Running && Owns(db, c, g) ==> c in owners;
      return Some(b);
    }

    /** `zip` pairs chunks and vectors in order, up to the shorter of the two. */
    method StoreVectors(g: GroupId, todo: seq<nat>, count: nat)
      requires g in session.db.docs && forall i :: 0 <= i < |todo| ==> todo[i] < |session.db.docs[g]|
      modifies session`db
      ensures session.db == WithEmbeddings(old(session.db), g, FirstOf(todo, count))
    {
      var i := 0;
      assert WithVectors(session.db.docs[g], FirstOf(todo, 0)) == session.db.docs[g];
      assert session.db.docs[g := session.db.docs[g]] == session.db.docs;
      while i < |todo| && i < count
        invariant 0 <= i <= |todo| && i <= count
        invariant session.db == WithEmbeddings(old(session.db), g, FirstOf(todo, i))
      {
        ghost var was := old(session.db.docs)[g];
        assert WithVectors(was, FirstOf(todo, i))[todo[i] := true] == WithVectors(was, FirstOf(todo, i + 1));
        session.db := session.db.(docs := session.db.docs[g := session.db.docs[g][todo[i] := true]]);
        i := i + 1;
      }
      assert FirstOf(todo, i) == FirstOf(todo, count);
    }

    method Succeed(g: GroupId, gen: nat, reserved: bool)
      requires claims.session == session && g in session.db.docs
      requires reserved ==> HoldsReservation(session.db, g, gen)
      modifies session`db
      ensures var done := Record(old(session.db), OfGroup(g), Succeeded);
              session.db == ReleaseGroup(if reserved then ClearReservation(done, g, gen) else done, g, gen, Some(Final(done, g)))
    {
      RecordPipelineAttempt(g, Succeeded);
      var remaining := |Todo(session.db.docs[g], 0)|;
      TodoIsUnembedded(session.db.docs[g]);
      var final := if remaining == 0 then Ingested else Embedded;
      if reserved {
        var _ := claims.ConsumeEmbeddingReservation(g, gen, final);
      } else {
        var _ := claims.ReleaseContentIdentityGroupClaim(g, gen, Some(final));
      }
    }

    method FailReserved(g: GroupId, gen: nat)
      requires claims.session == session && HoldsReservation(session.db, g, gen)
      modifies session`db
      ensures var failed := Record(old(session.db), OfGroup(g), FailedRetryable);
              session.db == ReleaseGroup(ReleaseGroup(FreeReservation(failed, g, gen), g, gen, None), g, gen, Some(Failed))
    {
      RecordPipelineAttempt(g, FailedRetryable);
      var _ := claims.ReleaseEmbeddingReservation(g, gen);
      var _ := claims.ReleaseContentIdentityGroupClaim(g, gen, Some(Failed));
    }

    /** `reply` is the number of vectors the client returns, or nothing if it raises. */
    method EmbedNext(who: WorkerId, lease: nat, locked: set<GroupId>, guard: Option<Tier>, reply: Option<nat>)
      returns (claimed: Option<GroupId>, deferred: bool, ghost owner: Option<BatchId>, ghost stored: Option<set<nat>>)
      requires claims.session == session
      modifies session`db
      ensures claimed.None? ==>
                GroupCandidates(session.db, {Chunked, Embedded}, session.now - lease, locked) == {} && session.db == old(session.db) && !deferred
      ensures claimed.Some? ==>
                OldestGroup(old(session.db), claimed.value,
                            GroupCandidates(old(session.db), {Chunked, Embedded}, session.now - lease, locked))
      ensures claimed.Some? ==> Resolves(Granted(old(session.db), claimed.value, who, session.now), claimed.value, owner)
      ensures claimed.Some? ==>
                session.db == EmbedCall(old(session.db), claimed.value, who, session.now, owner, guard !in {None, Some(Normal)}, stored)
      ensures claimed.Some? ==>
                deferred == Deferred(old(session.db), claimed.value, who, session.now, owner, guard !in {None, Some(Normal)})
      ensures claimed.Some? && claimed.value in old(session.db.docs) ==>
                stored == if reply.None? then None else Some(FirstOf(Todo(old(session.db.docs)[claimed.value], 0), reply.value))
    {
      deferred, owner, stored := false, None, None;
      claimed := claims.ClaimContentIdentityGroup(who, {Chunked, Embedded}, lease, locked, None);
      if claimed.None? { return; }
      var g := claimed.value;
      var gen := session.db.groups[g].gen;
      var batch := ResolveOwningRunningBatch(g);
      owner := batch;
      if g !in session.db.docs { Fail(g, gen); return; }
      var todo := Todo(session.db.docs[g], 0);
      TodoIsUnembedded(session.db.docs[g]);
      if reply.Some? { stored := Some(FirstOf(todo, reply.value)); }
      if |todo| == 0 { Succeed(g, gen, false); return; }
      if batch.Some? {
        var outcome := claims.ReserveEmbeddings(g, gen, batch.value, |todo|, guard);
        if outcome.Denied? {
          deferred := true;
          return;
        }
        if reply.None? { FailReserved(g, gen); return; }
        StoreVectors(g, todo, reply.value);
        Succeed(g, gen, true);
      } else {
        if reply.None? { Fail(g, gen); return; }
        StoreVectors(g, todo, reply.value);
        Succeed(g, gen, false);
      }
    }
  }
}
