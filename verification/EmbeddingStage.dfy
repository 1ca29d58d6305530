/** The embedding stage: when driving `embed_next` until it finds nothing more to do comes to an end. */
module EmbeddingStage {
  import opened Collections
  import opened Tables
  import opened Protocol
  import opened WorkerClaims
  import opened Stages
  import opened StageProgress

  // ----- what is left to do ---------------------------------------------------------------------------------

  function Todos(db: Db, g: GroupId): nat
  {
    if g in db.groups && db.groups[g].state in {Chunked, Embedded}
    then 1 + (if g in db.docs then |Unembedded(db.docs[g])| else 0) else 0
  }

  function TodoAt(db: Db): GroupId -> int
  {
    (g: GroupId) => Todos(db, g)
  }

  /** The groups still to be embedded, and their chunks without an embedding. */
  ghost function EmbeddingWork(db: Db): int
  {
    Sum(db.groups.Keys, TodoAt(db))
  }

  lemma FewerUnembedded(chunks: seq<bool>, stored: set<nat>, k: nat)
    requires k in stored && k in Unembedded(chunks)
    ensures |Unembedded(WithVectors(chunks, stored))| < |Unembedded(chunks)|
  {
    SubsetCardinality(Unembedded(WithVectors(chunks, stored)), Unembedded(chunks) - {k});
  }

  lemma ReservedTouchesOne(db: Db, g: GroupId, b: BatchId, n: nat, stored: Option<set<nat>>)
    requires g in db.groups && CanReserve(db, g, GenOf(db, g), b, n)
    ensures OnlyGroup(db, EmbedReserved(db, g, b, n, stored), g) && OnlyDoc(db, EmbedReserved(db, g, b, n, stored), g)
  {}

  lemma UnreservedTouchesOne(db: Db, g: GroupId, stored: Option<set<nat>>)
    requires g in db.groups
    ensures OnlyGroup(db, EmbedUnreserved(db, g, stored), g) && OnlyDoc(db, EmbedUnreserved(db, g, stored), g)
  {}

  lemma GrantTouchesOne(db: Db, db': Db, g: GroupId, who: WorkerId, now: int)
    requires g in db.groups && OnlyGroup(Granted(db, g, who, now), db', g) && OnlyDoc(Granted(db, g, who, now), db', g)
    ensures OnlyGroup(db, db', g) && OnlyDoc(db, db', g)
  {}

  lemma EmbedTouchesOne(db: Db, g: GroupId, who: WorkerId, now: int, owner: Option<BatchId>, guarded: bool,
                        stored: Option<set<nat>>)
    requires g in db.groups
    ensures OnlyGroup(db, EmbedCall(db, g, who, now, owner, guarded, stored), g)
    ensures OnlyDoc(db, EmbedCall(db, g, who, now, owner, guarded, stored), g)
  {
    var claimed := Granted(db, g, who, now);
    if g in db.docs && Unembedded(db.docs[g]) != {} {
      if owner.None? {
        UnreservedTouchesOne(claimed, g, stored);
      } else if !guarded && CanReserve(claimed, g, GenOf(claimed, g), owner.value, |Unembedded(db.docs[g])|) {
        ReservedTouchesOne(claimed, g, owner.value, |Unembedded(db.docs[g])|, stored);
      }
    }
    GrantTouchesOne(db, EmbedCall(db, g, who, now, owner, guarded, stored), g, who, now);
  }

  /** The group has chunks without an embedding: a call on it asks the client for vectors. */
  predicate Asks(db: Db, g: GroupId)
  {
    g in db.docs && Unembedded(db.docs[g]) != {}
  }

  /** The chunks that get a vector when the client answers with that many, or raises. */
  function Vectors(db: Db, g: GroupId, reply: Option<nat>): Option<set<nat>>
  {
    if g in db.docs && reply.Some? then Some(FirstOf(Todo(db.docs[g], 0), reply.value)) else None
  }

  lemma AnswerStores(chunks: seq<bool>, vectors: nat)
    requires Unembedded(chunks) != {} && vectors > 0
    ensures |Unembedded(WithVectors(chunks, FirstOf(Todo(chunks, 0), vectors)))| < |Unembedded(chunks)|
  {
    var todo := Todo(chunks, 0);
    TodoIsUnembedded(chunks);
    assert todo[0] in FirstOf(todo, vectors);
    FewerUnembedded(chunks, FirstOf(todo, vectors), todo[0]);
  }

  lemma AskingProgresses(db: Db, g: GroupId, who: WorkerId, now: int, owner: Option<BatchId>, guarded: bool,
                         reply: Option<nat>)
    requires g in db.groups && db.groups[g].state in {Chunked, Embedded} && Asks(db, g) && reply != Some(0)
    requires !Deferred(db, g, who, now, owner, guarded)
    ensures Todos(EmbedCall(db, g, who, now, owner, guarded, Vectors(db, g, reply)), g) < Todos(db, g)
  {
    var stored := Vectors(db, g, reply);
    EmbedCallSettles(db, g, who, now, owner, guarded, stored);
    EmbedStores(db, g, who, now, owner, guarded, stored);
    if reply.Some? { AnswerStores(db.docs[g], reply.value); }
  }

  lemma IdleGroupLeaves(db: Db, g: GroupId, who: WorkerId, now: int, owner: Option<BatchId>, guarded: bool,
                        stored: Option<set<nat>>)
    requires g in db.groups && !Asks(db, g)
    ensures EmbedCall(db, g, who, now, owner, guarded, stored).groups[g].state in {Ingested, Failed}
  {}

  /** A call that is not deferred either takes its group out of the queue or leaves it fewer chunks to
      embed, provided a client that is asked for something and answers returns at least one vector. */
  lemma EmbedProgresses(db: Db, g: GroupId, who: WorkerId, now: int, owner: Option<BatchId>, guarded: bool,
                        reply: Option<nat>)
    requires g in db.groups && db.groups[g].state in {Chunked, Embedded} && (Asks(db, g) ==> reply != Some(0))
    requires !Deferred(db, g, who, now, owner, guarded)
    ensures Todos(EmbedCall(db, g, who, now, owner, guarded, Vectors(db, g, reply)), g) < Todos(db, g)
  {
    if Asks(db, g) {
      AskingProgresses(db, g, who, now, owner, guarded, reply);
    } else {
      IdleGroupLeaves(db, g, who, now, owner, guarded, Vectors(db, g, reply));
    }
  }

  /** What a call that is not deferred writes to the chunk rows. */
  lemma EmbedStores(db: Db, g: GroupId, who: WorkerId, now: int, owner: Option<BatchId>, guarded: bool,
                    stored: Option<set<nat>>)
    requires g in db.groups && g in db.docs && !Deferred(db, g, who, now, owner, guarded)
    ensures var db' := EmbedCall(db, g, who, now, owner, guarded, stored);
            db'.docs == (if stored.Some? && Unembedded(db.docs[g]) != {} then db.docs[g := WithVectors(db.docs[g], stored.value)] else db.docs)
    ensures Unembedded(db.docs[g]) == {} ==> EmbedCall(db, g, who, now, owner, guarded, stored).groups[g].state == Ingested
    ensures Unembedded(db.docs[g]) != {} && stored.None? ==> EmbedCall(db, g, who, now, owner, guarded, stored).groups[g].state == Failed
  {}

  lemma WorkShrinks(db: Db, db': Db, g: GroupId)
    requires OnlyGroup(db, db', g) && OnlyDoc(db, db', g) && Todos(db', g) < Todos(db, g)
    ensures EmbeddingWork(db') < EmbeddingWork(db)
  {
    SumChange(db.groups.Keys, g, TodoAt(db), TodoAt(db'));
  }

  // ----- what is left of the envelopes ----------------------------------------------------------------------

  function Spare(batch: Batch): nat
  {
    if batch.embeddingsReserved <= batch.maxEmbeddings then batch.maxEmbeddings - batch.embeddingsReserved else 0
  }

  function SpareAt(batches: map<BatchId, Batch>): BatchId -> int
  {
    b => if b in batches then Spare(batches[b]) else 0
  }

  function HeldAt(groups: map<GroupId, Group>): GroupId -> int
  {
    g => if g in groups && groups[g].reserved.Some? then groups[g].reserved.value.amount else 0
  }

  /** What all envelopes still have room for, reservations that may be given back included. */
  ghost function Room(db: Db): int
  {
    Sum(db.batches.Keys, SpareAt(db.batches)) + Sum(db.groups.Keys, HeldAt(db.groups))
  }

  lemma OneBatchRoom(batches: map<BatchId, Batch>, b: BatchId, row: Batch)
    requires b in batches
    ensures Sum(batches[b := row].Keys, SpareAt(batches[b := row])) ==
            Sum(batches.Keys, SpareAt(batches)) - Spare(batches[b]) + Spare(row)
  {
    assert batches[b := row].Keys == batches.Keys;
    SumChange(batches.Keys, b, SpareAt(batches), SpareAt(batches[b := row]));
  }

  lemma OneGroupRoom(db: Db, db': Db, g: GroupId)
    requires OnlyGroup(db, db', g)
    ensures Sum(db'.groups.Keys, HeldAt(db'.groups)) ==
            Sum(db.groups.Keys, HeldAt(db.groups)) - HeldAt(db.groups)(g) + HeldAt(db'.groups)(g)
  {
    SumChange(db.groups.Keys, g, HeldAt(db.groups), HeldAt(db'.groups));
  }

  /** A grant gives an abandoned reservation back: no more room than before, counting the reservation. */
  lemma GrantKeepsRoom(db: Db, g: GroupId, who: WorkerId, now: int)
    requires g in db.groups
    ensures Room(Granted(db, g, who, now)) <= Room(db) && Granted(db, g, who, now).groups[g].reserved.None?
  {
    var claimed := Granted(db, g, who, now);
    SumChange(db.groups.Keys, g, HeldAt(db.groups), HeldAt(claimed.groups));
    assert claimed.groups.Keys == db.groups.Keys;
    var held := db.groups[g].reserved;
    if held.Some? && held.value.batch in db.batches {
      var b := held.value.batch;
      OneBatchRoom(db.batches, b, claimed.batches[b]);
      assert claimed.batches == db.batches[b := claimed.batches[b]];
    }
  }

  lemma UnreservedKeepsRoom(db: Db, db': Db, g: GroupId)
    requires OnlyGroup(db, db', g) && db'.batches == db.batches
    requires db.groups[g].reserved.None? && db'.groups[g].reserved.None?
    ensures Room(db') == Room(db)
  {
    OneGroupRoom(db, db', g);
  }

  /** A reserved call that embedded uses up what it reserved; one that failed uses nothing. */
  lemma ReservedUsesRoom(db: Db, g: GroupId, b: BatchId, n: nat, stored: Option<set<nat>>)
    requires g in db.docs && CanReserve(db, g, GenOf(db, g), b, n) && db.groups[g].reserved.None?
    ensures Room(EmbedReserved(db, g, b, n, stored)) == Room(db) - if stored.Some? then n else 0
  {
    var db' := EmbedReserved(db, g, b, n, stored);
    ReservedSettles(db, g, b, n, stored);
    ReservedTouchesOne(db, g, b, n, stored);
    OneGroupRoom(db, db', g);
    OneBatchRoom(db.batches, b, db.batches[b].(embeddingsReserved := db.batches[b].embeddingsReserved + n));
  }

  /** What an embedding call does to the room; `claimed` are the tables right after its claim. */
  lemma CallUsesRoom(db: Db, g: GroupId, who: WorkerId, now: int, owner: Option<BatchId>, stored: Option<set<nat>>)
    requires g in db.groups && !Deferred(db, g, who, now, owner, false)
    ensures Room(EmbedCall(db, g, who, now, owner, false, stored)) <=
            Room(db) - if Asks(db, g) && owner.Some? && stored.Some? then |Unembedded(db.docs[g])| else 0
  {
    var claimed := Granted(db, g, who, now);
    GrantKeepsRoom(db, g, who, now);
    var db' := EmbedCall(db, g, who, now, owner, false, stored);
    if Asks(db, g) && owner.Some? {
      ReservedUsesRoom(claimed, g, owner.value, |Unembedded(db.docs[g])|, stored);
    } else if Asks(db, g) {
      UnreservedTouchesOne(claimed, g, stored);
      UnreservedSettles(claimed, g, stored);
      UnreservedKeepsRoom(claimed, db', g);
    } else {
      UnreservedKeepsRoom(claimed, db', g);
    }
  }

  lemma RoomNonNegative(db: Db)
    ensures Room(db) >= 0 && EmbeddingWork(db) >= 0
  {
    SumNonNegative(db.batches.Keys, SpareAt(db.batches));
    SumNonNegative(db.groups.Keys, HeldAt(db.groups));
    SumNonNegative(db.groups.Keys, TodoAt(db));
  }

  /** Work left and room left: what every turn of the stage uses up. */
  ghost function Fuel(db: Db): nat
  {
    RoomNonNegative(db);
    Room(db) + EmbeddingWork(db)
  }

  lemma WorkNeverGrows(db: Db, db': Db, g: GroupId)
    requires OnlyGroup(db, db', g) && OnlyDoc(db, db', g) && Todos(db', g) <= Todos(db, g)
    ensures EmbeddingWork(db') <= EmbeddingWork(db)
  {
    SumChange(db.groups.Keys, g, TodoAt(db), TodoAt(db'));
  }

  lemma EmptyAnswerKeepsTodos(db: Db, g: GroupId, who: WorkerId, now: int, owner: Option<BatchId>)
    requires g in db.groups && db.groups[g].state in {Chunked, Embedded} && Asks(db, g)
    requires !Deferred(db, g, who, now, owner, false)
    ensures var db' := EmbedCall(db, g, who, now, owner, false, Vectors(db, g, Some(0)));
            db'.docs == db.docs && g in db'.groups && db'.groups[g].state == Embedded && Todos(db', g) == Todos(db, g)
  {
    assert FirstOf(Todo(db.docs[g], 0), 0) == {};
    EmbedStores(db, g, who, now, owner, false, Some({}));
    EmbedCallSettles(db, g, who, now, owner, false, Some({}));
    NoVectors(db.docs[g]);
    assert db.docs[g := db.docs[g]] == db.docs;
  }

  lemma NoVectors(chunks: seq<bool>)
    ensures WithVectors(chunks, {}) == chunks && (Unembedded(chunks) != {} ==> !AllTrue(chunks))
  {
    if k :| k in Unembedded(chunks) { assert !chunks[k]; }
  }

  /** Every turn that is not deferred uses up work or room, unless the client answers with nothing and no
      RUNNING batch owns the group. */
  lemma FuelShrinks(db: Db, g: GroupId, who: WorkerId, now: int, owner: Option<BatchId>, reply: Option<nat>)
    requires g in db.groups && db.groups[g].state in {Chunked, Embedded} && !Deferred(db, g, who, now, owner, false)
    requires Asks(db, g) && reply == Some(0) ==> owner.Some?
    ensures Fuel(EmbedCall(db, g, who, now, owner, false, Vectors(db, g, reply))) < Fuel(db)
  {
    var stored := Vectors(db, g, reply);
    var db' := EmbedCall(db, g, who, now, owner, false, stored);
    CallUsesRoom(db, g, who, now, owner, stored);
    EmbedTouchesOne(db, g, who, now, owner, false, stored);
    if Asks(db, g) && reply == Some(0) {
      EmptyAnswerKeepsTodos(db, g, who, now, owner);
      WorkNeverGrows(db, db', g);
      SomeUnembedded(db.docs[g]);
    } else {
      EmbedProgresses(db, g, who, now, owner, false, reply);
      WorkShrinks(db, db', g);
    }
  }

  lemma SomeUnembedded(chunks: seq<bool>)
    requires Unembedded(chunks) != {}
    ensures |Unembedded(chunks)| > 0
  {}

  // ----- one turn of the stage ------------------------------------------------------------------------------

  function Waiting(db: Db, staleBefore: int): set<GroupId>
  {
    GroupCandidates(db, {Chunked, Embedded}, staleBefore, {})
  }

  /** What `embed_next` may work on: the oldest group in the queue, charged to its lowest RUNNING owner. */
  predicate TurnOn(db: Db, g: GroupId, owner: Option<BatchId>, who: WorkerId, now: int, lease: nat, deferred: bool)
  {
    OldestGroup(db, g, Waiting(db, now - lease)) && Resolves(Granted(db, g, who, now), g, owner) &&
    deferred == Deferred(db, g, who, now, owner, false)
  }

  /** What such a call leaves behind. */
  function Turned(db: Db, g: GroupId, owner: Option<BatchId>, who: WorkerId, now: int, reply: Option<nat>): Db
  {
    EmbedCall(db, g, who, now, owner, false, Vectors(db, g, reply))
  }

  /** A RUNNING batch has an instance that resolves to the group. */
  predicate Owned(db: Db, g: GroupId)
  {
    exists b :: b in db.batches && db.batches[b].status == Running && Owns(db, b, g)
  }

  predicate SameOwners(db: Db, db': Db)
  {
    db'.instances == db.instances && db'.batches.Keys == db.batches.Keys &&
    forall b :: b in db.batches ==> db'.batches[b].status == db.batches[b].status && db'.batches[b].run == db.batches[b].run
  }

  lemma OwnersStay(db: Db, db': Db, g: GroupId)
    requires SameOwners(db, db')
    ensures Owned(db', g) <==> Owned(db, g)
  {
    forall b | b in db.batches ensures Owns(db', b, g) <==> Owns(db, b, g) {}
  }

  lemma GrantKeepsOwners(db: Db, g: GroupId, who: WorkerId, now: int)
    ensures SameOwners(db, Granted(db, g, who, now))
  {}

  lemma CallKeepsOwners(db: Db, g: GroupId, who: WorkerId, now: int, owner: Option<BatchId>, stored: Option<set<nat>>)
    requires g in db.groups && !Deferred(db, g, who, now, owner, false)
    ensures SameOwners(db, EmbedCall(db, g, who, now, owner, false, stored))
  {
    var claimed := Granted(db, g, who, now);
    if Asks(db, g) && owner.Some? {
      ReservedSettles(claimed, g, owner.value, |Unembedded(db.docs[g])|, stored);
    }
  }

  /** The call is charged to some batch exactly if the group is owned. */
  lemma ResolvedIsOwned(db: Db, g: GroupId, who: WorkerId, now: int, owner: Option<BatchId>)
    requires Resolves(Granted(db, g, who, now), g, owner)
    ensures owner.Some? <==> Owned(db, g)
  {
    GrantKeepsOwners(db, g, who, now);
    OwnersStay(db, Granted(db, g, who, now), g);
  }

  lemma OwnerExists(db: Db, g: GroupId) returns (owner: Option<BatchId>)
    ensures Resolves(db, g, owner)
  {
    var owners := set b | b in db.batches && db.batches[b].status == Running && Owns(db, b, g);
    if owners == {} {
      owner := None;
      assert forall c :: c in db.batches && db.batches[c].status == Running && Owns(db, c, g) ==> c in owners;
    } else {
      var b := LeastExists<BatchId>(owners, c => c);
      owner := Some(b);
      assert forall c :: c in db.batches && db.batches[c].status == Running && Owns(db, c, g) ==> c in owners;
    }
  }

  /** The groups whose turn asks the client for something. */
  function Asking(db: Db, staleBefore: int): set<GroupId>
  {
    set g | g in Waiting(db, staleBefore) && Asks(db, g)
  }

  /** A turn leaves every other group in the queue, or out of it, as it was. */
  lemma OthersStay(db: Db, db': Db, g: GroupId, h: GroupId, staleBefore: int)
    requires OnlyGroup(db, db', g) && OnlyDoc(db, db', g) && h != g
    ensures h in Waiting(db', staleBefore) <==> h in Waiting(db, staleBefore)
    ensures h in Asking(db', staleBefore) <==> h in Asking(db, staleBefore)
  {}

  lemma TurnKeepsRoots(db: Db, g: GroupId, owner: Option<BatchId>, who: WorkerId, now: int, reply: Option<nat>)
    requires g in db.groups
    ensures RootsStay(db, Turned(db, g, owner, who, now, reply))
  {
    var claimed, stored := Granted(db, g, who, now), Vectors(db, g, reply);
    EmbedCallMeans(db, g, who, now, owner, false, stored);
    assert SameEnvelopes(db, claimed);
    if Asks(db, g) && owner.Some? { ReservedKeepsEnvelopes(claimed, g, owner.value, |Unembedded(db.docs[g])|, stored); }
  }

  lemma ReservedKeepsEnvelopes(claimed: Db, g: GroupId, b: BatchId, n: nat, stored: Option<set<nat>>)
    ensures SameEnvelopes(claimed, EmbedReserved(claimed, g, b, n, stored))
  {
    ReserveKeepsEnvelopes(claimed, g, b, n);
    var reserved := Reserve(claimed, g, GenOf(claimed, g), b, n);
    FreeKeepsEnvelopes(Record(reserved, OfGroup(g), FailedRetryable), g, GenOf(claimed, g));
    if stored.None? {
      var freed := FreeReservation(Record(reserved, OfGroup(g), FailedRetryable), g, GenOf(claimed, g));
      EnvelopesStayOn(claimed, reserved, freed);
    }
  }

  lemma ReserveKeepsEnvelopes(claimed: Db, g: GroupId, b: BatchId, n: nat)
    ensures SameEnvelopes(claimed, Reserve(claimed, g, GenOf(claimed, g), b, n))
  {}

  lemma FreeKeepsEnvelopes(db: Db, g: GroupId, gen: nat)
    ensures SameEnvelopes(db, FreeReservation(db, g, gen))
  {}

  lemma EnvelopesStayOn(a: Db, b: Db, c: Db)
    requires SameEnvelopes(a, b) && SameEnvelopes(b, c)
    ensures SameEnvelopes(a, c)
  {
    forall k | k in a.batches ensures SameEnvelope(a.batches[k], c.batches[k]) {
      assert SameEnvelope(a.batches[k], b.batches[k]) && SameEnvelope(b.batches[k], c.batches[k]);
    }
  }

  /** Some group waiting to be embedded has an owner whose envelope cannot take all of its chunks. */
  predicate Refuses(db: Db, staleBefore: int)
  {
    exists g, b :: g in Waiting(db, staleBefore) && g in db.docs && Resolves(db, g, Some(b)) && b in db.batches &&
      db.batches[b].embeddingsReserved + |Unembedded(db.docs[g])| > db.batches[b].maxEmbeddings
  }

  /** A turn that is deferred leaves its group waiting, and still without room. */
  lemma DeferredRefuses(db: Db, g: GroupId, owner: Option<BatchId>, who: WorkerId, now: int, lease: nat, reply: Option<nat>)
    requires TurnOn(db, g, owner, who, now, lease, true)
    ensures Refuses(Turned(db, g, owner, who, now, reply), now - lease)
  {
    var claimed, db' := Granted(db, g, who, now), Turned(db, g, owner, who, now, reply);
    EmbedCallMeans(db, g, who, now, owner, false, Vectors(db, g, reply));
    assert db'.batches == claimed.batches && db'.instances == claimed.instances && db'.docs == db.docs;
    assert forall b :: Owns(db', b, g) <==> Owns(claimed, b, g);
    assert Resolves(db', g, Some(owner.value));
  }

  /** A turn sends no group back to an earlier stage. */
  lemma TurnStaysIdle(db: Db, g: GroupId, owner: Option<BatchId>, who: WorkerId, now: int, lease: nat, reply: Option<nat>,
                      deferred: bool)
    requires TurnOn(db, g, owner, who, now, lease, deferred) && Idle(db, {Extracted, Normalized}, now - lease)
    ensures Idle(Turned(db, g, owner, who, now, reply), {Extracted, Normalized}, now - lease)
  {
    var stored := Vectors(db, g, reply);
    EmbedTouchesOne(db, g, who, now, owner, false, stored);
    EmbedCallMeans(db, g, who, now, owner, false, stored);
    StaysIdle(db, Turned(db, g, owner, who, now, reply), g, {Extracted, Normalized}, now - lease);
  }

  // ----- clients in general ------------------------------------------------------------------------------------

  /** Every group a turn would ask the client about is owned. */
  predicate AllOwned(db: Db, staleBefore: int)
  {
    forall g :: g in Asking(db, staleBefore) ==> Owned(db, g)
  }

  lemma NothingNewAsks(db: Db, g: GroupId, who: WorkerId, now: int, owner: Option<BatchId>, stored: Option<set<nat>>,
                       staleBefore: int)
    requires g in Waiting(db, staleBefore) && !Deferred(db, g, who, now, owner, false)
    ensures Asking(EmbedCall(db, g, who, now, owner, false, stored), staleBefore) <= Asking(db, staleBefore)
  {
    var db' := EmbedCall(db, g, who, now, owner, false, stored);
    EmbedTouchesOne(db, g, who, now, owner, false, stored);
    forall h | h in Asking(db', staleBefore) ensures h in Asking(db, staleBefore) {
      if h == g {
        if g in db.docs {
          EmbedStores(db, g, who, now, owner, false, stored);
          if stored.Some? { assert Unembedded(WithVectors(db.docs[g], stored.value)) <= Unembedded(db.docs[g]); }
        } else {
          NoDocumentFails(db, g, who, now, owner, stored);
        }
      } else {
        OthersStay(db, db', g, h, staleBefore);
      }
    }
  }

  lemma NoDocumentFails(db: Db, g: GroupId, who: WorkerId, now: int, owner: Option<BatchId>, stored: Option<set<nat>>)
    requires g in db.groups && g !in db.docs
    ensures EmbedCall(db, g, who, now, owner, false, stored).groups[g].state == Failed
  {}

  lemma OwnedTurnUsesFuel(db: Db, g: GroupId, owner: Option<BatchId>, who: WorkerId, now: int, staleBefore: int,
                          reply: Option<nat>)
    requires g in Waiting(db, staleBefore) && Resolves(Granted(db, g, who, now), g, owner)
    requires !Deferred(db, g, who, now, owner, false) && (g in Asking(db, staleBefore) && reply == Some(0) ==> Owned(db, g))
    ensures Fuel(EmbedCall(db, g, who, now, owner, false, Vectors(db, g, reply))) < Fuel(db)
  {
    ResolvedIsOwned(db, g, who, now, owner);
    FuelShrinks(db, g, who, now, owner, reply);
  }

  lemma AllOwnedStays(db: Db, db': Db, staleBefore: int)
    requires AllOwned(db, staleBefore)
    requires SameOwners(db, db')
    requires Asking(db', staleBefore) <= Asking(db, staleBefore)
    ensures AllOwned(db', staleBefore)
  {
    forall h | h in Asking(db', staleBefore) ensures Owned(db', h) { OwnersStay(db, db', h); }
  }

  lemma CallKeepsAllOwned(db: Db, g: GroupId, who: WorkerId, now: int, owner: Option<BatchId>, stored: Option<set<nat>>,
                          staleBefore: int)
    requires g in Waiting(db, staleBefore) && !Deferred(db, g, who, now, owner, false) && AllOwned(db, staleBefore)
    ensures AllOwned(EmbedCall(db, g, who, now, owner, false, stored), staleBefore)
  {
    CallKeepsOwners(db, g, who, now, owner, stored);
    NothingNewAsks(db, g, who, now, owner, stored, staleBefore);
    AllOwnedStays(db, EmbedCall(db, g, who, now, owner, false, stored), staleBefore);
  }

  /** Where every asking group is owned it stays so, and every turn uses up fuel, whatever the client does. */
  lemma OwnedTurn(db: Db, g: GroupId, owner: Option<BatchId>, who: WorkerId, now: int, lease: nat, reply: Option<nat>)
    requires TurnOn(db, g, owner, who, now, lease, false) && AllOwned(db, now - lease)
    ensures var db' := Turned(db, g, owner, who, now, reply); AllOwned(db', now - lease) && Fuel(db') < Fuel(db)
  {
    OwnedTurnUsesFuel(db, g, owner, who, now, now - lease, reply);
    CallKeepsAllOwned(db, g, who, now, owner, Vectors(db, g, reply), now - lease);
  }

  // ----- what the client answers --------------------------------------------------------------------------------

  /** `client(k)` is what the client does if call number `k` asks it: the number of vectors it answers with,
      or none if it raises. */
  type Client = nat -> Option<nat>

  /** From this call on the client answers with no vectors whenever it is asked. */
  ghost predicate EmptyFrom(client: Client, call: nat)
  {
    forall k: nat :: k >= call ==> client(k) == Some(0)
  }

  /** It does not answer with nothing for ever; now and then it may. */
  ghost predicate KeepsAnswering(client: Client)
  {
    forall call: nat :: !EmptyFrom(client, call)
  }

  /** A turn that does not end the stage, with this answer. */
  ghost predicate AnsweredTurn(db: Db, db': Db, who: WorkerId, now: int, lease: nat, reply: Option<nat>)
  {
    exists g, owner :: TurnOn(db, g, owner, who, now, lease, false) && db' == Turned(db, g, owner, who, now, reply)
  }

  /** The tables, and the number of the next call. */
  datatype Point = Point(db: Db, call: nat)

  /** The turns the stage can take with this client. */
  ghost function Turns(client: Client, who: WorkerId, now: int, lease: nat): (Point, Point) -> bool
  {
    (p: Point, p': Point) => p'.call == p.call + 1 && AnsweredTurn(p.db, p'.db, who, now, lease, client(p.call))
  }

  lemma WaitingIsThere(db: Db, g: GroupId, staleBefore: int)
    requires g in Waiting(db, staleBefore)
    ensures g in db.groups && db.groups[g].state in {Chunked, Embedded}
  {}

  lemma TurnNeedsFuel(db: Db, g: GroupId, who: WorkerId, now: int, owner: Option<BatchId>, reply: Option<nat>)
    requires g in db.groups && db.groups[g].state in {Chunked, Embedded} && !Deferred(db, g, who, now, owner, false)
    ensures Fuel(Turned(db, g, owner, who, now, reply)) <= Fuel(db)
    ensures reply != Some(0) ==> Fuel(Turned(db, g, owner, who, now, reply)) < Fuel(db)
  {
    if Asks(db, g) && reply == Some(0) && owner.None? {
      var stored := Vectors(db, g, reply);
      CallUsesRoom(db, g, who, now, owner, stored);
      EmbedTouchesOne(db, g, who, now, owner, false, stored);
      EmptyAnswerKeepsTodos(db, g, who, now, owner);
      WorkNeverGrows(db, Turned(db, g, owner, who, now, reply), g);
    } else {
      FuelShrinks(db, g, who, now, owner, reply);
    }
  }

  lemma TheTurn(db: Db, db': Db, who: WorkerId, now: int, lease: nat, reply: Option<nat>)
    returns (g: GroupId, owner: Option<BatchId>)
    requires AnsweredTurn(db, db', who, now, lease, reply)
    ensures g in Waiting(db, now - lease) && !Deferred(db, g, who, now, owner, false)
    ensures db' == Turned(db, g, owner, who, now, reply)
  {
    g, owner :| TurnOn(db, g, owner, who, now, lease, false) && db' == Turned(db, g, owner, who, now, reply);
  }

  /** No turn brings fuel, and one in which the client does not answer with nothing uses some up. */
  lemma AnsweredTurnUsesFuel(db: Db, db': Db, who: WorkerId, now: int, lease: nat, reply: Option<nat>)
    requires AnsweredTurn(db, db', who, now, lease, reply)
    ensures Fuel(db') <= Fuel(db) && (reply != Some(0) ==> Fuel(db') < Fuel(db))
  {
    var g, owner := TheTurn(db, db', who, now, lease, reply);
    WaitingIsThere(db, g, now - lease);
    TurnNeedsFuel(db, g, who, now, owner, reply);
  }

  // ----- the oldest asking groups ---------------------------------------------------------------------------------

  /** No asking group is older. */
  predicate OldestAsking(db: Db, g: GroupId, staleBefore: int)
  {
    OldestGroup(db, g, Asking(db, staleBefore))
  }

  /** The oldest asking groups, several in a tie, that no RUNNING batch owns. */
  function Starving(db: Db, staleBefore: int): set<GroupId>
  {
    set g | g in Asking(db, staleBefore) && OldestAsking(db, g, staleBefore) && !Owned(db, g)
  }

  lemma OldestStays(db: Db, db': Db, staleBefore: int, h: GroupId)
    requires Asking(db', staleBefore) == Asking(db, staleBefore) && OldestAsking(db', h, staleBefore)
    requires db'.groups.Keys == db.groups.Keys
    requires forall g :: g in db.groups ==> db'.groups[g].created == db.groups[g].created
    ensures OldestAsking(db, h, staleBefore)
  {}

  lemma OldestOwnedStays(db: Db, db': Db, g: GroupId, staleBefore: int)
    requires Starving(db, staleBefore) == {} && SameOwners(db, db') && OnlyGroup(db, db', g)
    requires Asking(db', staleBefore) == Asking(db, staleBefore)
    ensures Starving(db', staleBefore) == {}
  {
    forall h | h in Starving(db', staleBefore) ensures h in Starving(db, staleBefore) {
      OldestStays(db, db', staleBefore, h);
      OwnersStay(db, db', h);
    }
  }

  /** An empty answer changes nothing about who asks, and a turn that asks nothing changes nothing else. */
  lemma EmptyTurnKeepsAsking(db: Db, g: GroupId, owner: Option<BatchId>, who: WorkerId, now: int, staleBefore: int)
    requires g in Waiting(db, staleBefore) && !Deferred(db, g, who, now, owner, false)
    ensures var db' := Turned(db, g, owner, who, now, Some(0));
            Asking(db', staleBefore) == Asking(db, staleBefore) && OnlyGroup(db, db', g)
  {
    var stored := Vectors(db, g, Some(0));
    var db' := Turned(db, g, owner, who, now, Some(0));
    EmbedTouchesOne(db, g, who, now, owner, false, stored);
    if Asks(db, g) {
      EmptyAnswerKeepsTodos(db, g, who, now, owner);
    } else {
      IdleGroupLeaves(db, g, who, now, owner, false, stored);
    }
    forall h ensures h in Asking(db', staleBefore) <==> h in Asking(db, staleBefore) {
      if h != g { OthersStay(db, db', g, h, staleBefore); }
    }
  }

  lemma AskedIsOwned(db: Db, g: GroupId, staleBefore: int)
    requires OldestGroup(db, g, Waiting(db, staleBefore)) && Asks(db, g) && Starving(db, staleBefore) == {}
    ensures Owned(db, g)
  {
    assert OldestAsking(db, g, staleBefore);
    assert g !in Starving(db, staleBefore);
  }

  lemma OldestTurnUsesFuel(db: Db, g: GroupId, owner: Option<BatchId>, who: WorkerId, now: int, lease: nat)
    requires TurnOn(db, g, owner, who, now, lease, false) && Starving(db, now - lease) == {}
    ensures Fuel(Turned(db, g, owner, who, now, Some(0))) < Fuel(db)
  {
    if Asks(db, g) { AskedIsOwned(db, g, now - lease); }
    OwnedTurnUsesFuel(db, g, owner, who, now, now - lease, Some(0));
  }

  lemma EmptyTurnUsesFuel(db: Db, db': Db, who: WorkerId, now: int, lease: nat)
    requires Starving(db, now - lease) == {} && AnsweredTurn(db, db', who, now, lease, Some(0))
    ensures Fuel(db') < Fuel(db)
  {
    var g, owner :| TurnOn(db, g, owner, who, now, lease, false) && db' == Turned(db, g, owner, who, now, Some(0));
    OldestTurnUsesFuel(db, g, owner, who, now, lease);
  }

  lemma CallStarvesNobody(db: Db, g: GroupId, owner: Option<BatchId>, who: WorkerId, now: int, staleBefore: int)
    requires g in Waiting(db, staleBefore) && !Deferred(db, g, who, now, owner, false) && Starving(db, staleBefore) == {}
    ensures Starving(Turned(db, g, owner, who, now, Some(0)), staleBefore) == {}
  {
    CallKeepsOwners(db, g, who, now, owner, Vectors(db, g, Some(0)));
    EmptyTurnKeepsAsking(db, g, owner, who, now, staleBefore);
    OldestOwnedStays(db, Turned(db, g, owner, who, now, Some(0)), g, staleBefore);
  }

  lemma TurnedStarvesNobody(db: Db, g: GroupId, owner: Option<BatchId>, who: WorkerId, now: int, lease: nat)
    requires TurnOn(db, g, owner, who, now, lease, false) && Starving(db, now - lease) == {}
    ensures Starving(Turned(db, g, owner, who, now, Some(0)), now - lease) == {}
  {
    CallStarvesNobody(db, g, owner, who, now, now - lease);
  }

  lemma EmptyTurnStarvesNobody(db: Db, db': Db, who: WorkerId, now: int, lease: nat)
    requires Starving(db, now - lease) == {} && AnsweredTurn(db, db', who, now, lease, Some(0))
    ensures Starving(db', now - lease) == {}
  {
    var g, owner :| TurnOn(db, g, owner, who, now, lease, false) && db' == Turned(db, g, owner, who, now, Some(0));
    TurnedStarvesNobody(db, g, owner, who, now, lease);
  }

  /** There is always one more turn: an older group that asks nothing, or the starving group itself. */
  lemma StarvingTurn(db: Db, g: GroupId, who: WorkerId, now: int, lease: nat)
    returns (h: GroupId, owner: Option<BatchId>)
    requires g in Starving(db, now - lease)
    ensures TurnOn(db, h, owner, who, now, lease, false)
  {
    var staleBefore := now - lease;
    var oldest := LeastExists(Waiting(db, staleBefore), h => if h in db.groups then db.groups[h].created else 0);
    h := if db.groups[oldest].created < db.groups[g].created then oldest else g;
    assert OldestGroup(db, h, Waiting(db, staleBefore));
    if Asks(db, h) { assert h in Asking(db, staleBefore); }
    owner := OwnerExists(Granted(db, h, who, now), h);
    ResolvedIsOwned(db, h, who, now, owner);
  }

  lemma StillStarves(db: Db, db': Db, g: GroupId, h: GroupId, staleBefore: int)
    requires g in Starving(db, staleBefore) && SameOwners(db, db') && OnlyGroup(db, db', h)
    requires Asking(db', staleBefore) == Asking(db, staleBefore)
    ensures g in Starving(db', staleBefore)
  {
    OwnersStay(db, db', g);
  }

  lemma CallKeepsStarving(db: Db, g: GroupId, h: GroupId, owner: Option<BatchId>, who: WorkerId, now: int, staleBefore: int)
    requires h in Waiting(db, staleBefore) && !Deferred(db, h, who, now, owner, false) && g in Starving(db, staleBefore)
    ensures g in Starving(Turned(db, h, owner, who, now, Some(0)), staleBefore)
  {
    CallKeepsOwners(db, h, who, now, owner, Vectors(db, h, Some(0)));
    EmptyTurnKeepsAsking(db, h, owner, who, now, staleBefore);
    StillStarves(db, Turned(db, h, owner, who, now, Some(0)), g, h, staleBefore);
  }

  lemma OneMoreTurn(db: Db, g: GroupId, who: WorkerId, now: int, lease: nat) returns (db': Db)
    requires g in Starving(db, now - lease)
    ensures AnsweredTurn(db, db', who, now, lease, Some(0)) && g in Starving(db', now - lease)
  {
    var h, owner := StarvingTurn(db, g, who, now, lease);
    db' := Turned(db, h, owner, who, now, Some(0));
    CallKeepsStarving(db, g, h, owner, who, now, now - lease);
  }

  // ----- when the stage ends ----------------------------------------------------------------------------------------

  /** From a call on from which the client only answers with nothing, an oldest asking group that no RUNNING
      batch owns keeps the stage going for ever. */
  lemma StageNeverEnds(db: Db, g: GroupId, client: Client, call: nat, who: WorkerId, now: int, lease: nat, turns: nat)
    requires EmptyFrom(client, call) && g in Starving(db, now - lease)
    ensures CanTake(Turns(client, who, now, lease), Point(db, call), turns)
  {
    var turn := Turns(client, who, now, lease);
    var stuck := (p: Point) => p.call >= call && g in Starving(p.db, now - lease);
    forall p: Point | stuck(p) ensures HasMore(turn, stuck, p) {
      var next := OneMoreTurn(p.db, g, who, now, lease);
      assert client(p.call) == Some(0);
      assert turn(p, Point(next, p.call + 1)) && stuck(Point(next, p.call + 1));
    }
    AlwaysOneMore(turn, stuck, Point(db, call), turns);
  }

  /** If there is none, the stage ends. */
  lemma EmptyStageEnds(db: Db, client: Client, call: nat, who: WorkerId, now: int, lease: nat, turns: nat)
    requires EmptyFrom(client, call) && Starving(db, now - lease) == {} && turns > Fuel(db)
    ensures !CanTake(Turns(client, who, now, lease), Point(db, call), turns)
  {
    var turn := Turns(client, who, now, lease);
    var fine := (p: Point) => p.call >= call && Starving(p.db, now - lease) == {};
    var fuel: Point -> nat := (p: Point) => Fuel(p.db);
    forall p: Point, p': Point | fine(p) && turn(p, p') ensures fine(p') && fuel(p') < fuel(p) {
      assert client(p.call) == Some(0);
      EmptyTurnUsesFuel(p.db, p'.db, who, now, lease);
      EmptyTurnStarvesNobody(p.db, p'.db, who, now, lease);
    }
    if CanTake(turn, Point(db, call), turns) { TurnsUseFuel(turn, fine, fuel, Point(db, call), turns); }
  }

  lemma ReachedCall(client: Client, who: WorkerId, now: int, lease: nat, p: Point, p': Point, turns: nat)
    requires CanReach(Turns(client, who, now, lease), p, p', turns)
    ensures p'.call == p.call + turns && Fuel(p'.db) <= Fuel(p.db)
  {
    var turn := Turns(client, who, now, lease);
    var count: Point -> nat, fuel: Point -> nat := (q: Point) => q.call, (q: Point) => Fuel(q.db);
    forall q: Point, q': Point | turn(q, q') ensures count(q') == count(q) + 1 && fuel(q') <= fuel(q) {
      AnsweredTurnUsesFuel(q.db, q'.db, who, now, lease, client(q.call));
    }
    ReachCounts(turn, count, fuel, p, p', turns);
  }

  ghost predicate EndsWithin(client: Client, who: WorkerId, now: int, lease: nat, fuel: nat, call: nat, turns: nat)
  {
    forall db :: Fuel(db) <= fuel ==> !CanTake(Turns(client, who, now, lease), Point(db, call), turns)
  }

  /** A client that does not answer with nothing for ever uses up all fuel; how long that takes at most is told
      by the client and the fuel alone. */
  lemma {:induction false} AnswersUseFuel(client: Client, who: WorkerId, now: int, lease: nat, fuel: nat, call: nat,
                                          answer: nat)
    returns (turns: nat)
    requires KeepsAnswering(client) && call <= answer && client(answer) != Some(0)
    ensures EndsWithin(client, who, now, lease, fuel, call, turns)
    decreases fuel, answer - call
  {
    var rest: nat := 0;
    if call < answer {
      rest := AnswersUseFuel(client, who, now, lease, fuel, call + 1, answer);
    } else if fuel > 0 {
      assert !EmptyFrom(client, call + 1);
      var next: nat :| next >= call + 1 && client(next) != Some(0);
      rest := AnswersUseFuel(client, who, now, lease, fuel - 1, call + 1, next);
    }
    turns := 1 + rest;
    forall db | Fuel(db) <= fuel ensures !CanTake(Turns(client, who, now, lease), Point(db, call), turns) {
      TurnThenRest(client, who, now, lease, fuel, call, answer, rest, db);
    }
  }

  lemma TurnThenRest(client: Client, who: WorkerId, now: int, lease: nat, fuel: nat, call: nat, answer: nat, rest: nat, db: Db)
    requires Fuel(db) <= fuel && call <= answer && client(answer) != Some(0)
    requires call < answer ==> EndsWithin(client, who, now, lease, fuel, call + 1, rest)
    requires call == answer && fuel > 0 ==> EndsWithin(client, who, now, lease, fuel - 1, call + 1, rest)
    ensures !CanTake(Turns(client, who, now, lease), Point(db, call), 1 + rest)
  {
    forall p | CanReach(Turns(client, who, now, lease), Point(db, call), p, 1)
      ensures !CanTake(Turns(client, who, now, lease), p, rest)
    {
      OneTurn(client, who, now, lease, Point(db, call), p);
      assert p == Point(p.db, call + 1);
    }
    EndsAfter(Turns(client, who, now, lease), Point(db, call), 1, rest);
  }

  lemma OneTurn(client: Client, who: WorkerId, now: int, lease: nat, p: Point, p': Point)
    requires CanReach(Turns(client, who, now, lease), p, p', 1)
    ensures p'.call == p.call + 1 && Fuel(p'.db) <= Fuel(p.db) && (client(p.call) != Some(0) ==> Fuel(p'.db) < Fuel(p.db))
  {
    var turn := Turns(client, who, now, lease);
    var next :| turn(p, next) && CanReach(turn, next, p', 0);
    AnsweredTurnUsesFuel(p.db, next.db, who, now, lease, client(p.call));
  }

  /** From this call on the client only answers with nothing, and when the stage gets there an oldest asking
      group may be without a RUNNING owner. */
  ghost predicate StarvesAt(db: Db, client: Client, who: WorkerId, now: int, lease: nat, call: nat, db': Db)
  {
    EmptyFrom(client, call) && CanReach(Turns(client, who, now, lease), Point(db, 0), Point(db', call), call) &&
    Starving(db', now - lease) != {}
  }

  ghost predicate NeverStarves(db: Db, client: Client, who: WorkerId, now: int, lease: nat)
  {
    forall call: nat, db': Db :: !StarvesAt(db, client, who, now, lease, call, db')
  }

  /** There is a number of turns that the stage cannot take. */
  ghost predicate Ends(db: Db, client: Client, who: WorkerId, now: int, lease: nat)
  {
    exists turns: nat :: !CanTake(Turns(client, who, now, lease), Point(db, 0), turns)
  }

  lemma EmptyInTheEndEnds(db: Db, client: Client, call: nat, who: WorkerId, now: int, lease: nat)
    requires EmptyFrom(client, call) && NeverStarves(db, client, who, now, lease)
    ensures Ends(db, client, who, now, lease)
  {
    forall p | CanReach(Turns(client, who, now, lease), Point(db, 0), p, call)
      ensures !CanTake(Turns(client, who, now, lease), p, Fuel(db) + 1)
    {
      NotThatLong(db, client, call, who, now, lease, p);
    }
    EndsAfter(Turns(client, who, now, lease), Point(db, 0), call, Fuel(db) + 1);
  }

  lemma NotThatLong(db: Db, client: Client, call: nat, who: WorkerId, now: int, lease: nat, p: Point)
    requires EmptyFrom(client, call) && NeverStarves(db, client, who, now, lease)
    requires CanReach(Turns(client, who, now, lease), Point(db, 0), p, call)
    ensures !CanTake(Turns(client, who, now, lease), p, Fuel(db) + 1)
  {
    ReachedCall(client, who, now, lease, Point(db, 0), p, call);
    assert p == Point(p.db, call);
    assert !StarvesAt(db, client, who, now, lease, call, p.db);
    EmptyStageEnds(p.db, client, call, who, now, lease, Fuel(db) + 1);
  }

  lemma KeepsAnsweringEnds(db: Db, client: Client, who: WorkerId, now: int, lease: nat)
    requires KeepsAnswering(client)
    ensures Ends(db, client, who, now, lease)
  {
    assert !EmptyFrom(client, 0);
    var answer: nat :| client(answer) != Some(0);
    var turns := AnswersUseFuel(client, who, now, lease, Fuel(db), 0, answer);
    assert !CanTake(Turns(client, who, now, lease), Point(db, 0), turns);
  }

  lemma StarvingFromThere(client: Client, who: WorkerId, now: int, lease: nat, call: nat, db: Db, turns: nat)
    requires EmptyFrom(client, call) && Starving(db, now - lease) != {}
    ensures CanTake(Turns(client, who, now, lease), Point(db, call), turns)
  {
    var g :| g in Starving(db, now - lease);
    StageNeverEnds(db, g, client, call, who, now, lease, turns);
  }

  lemma StarvingGoesOn(db: Db, client: Client, who: WorkerId, now: int, lease: nat, call: nat, db': Db, turns: nat)
    requires StarvesAt(db, client, who, now, lease, call, db')
    ensures CanTake(Turns(client, who, now, lease), Point(db, 0), turns)
  {
    StarvingFromThere(client, who, now, lease, call, db', turns);
    ReachThenTake(Turns(client, who, now, lease), Point(db, 0), Point(db', call), call, turns);
  }

  lemma StarvingNeverEnds(db: Db, client: Client, who: WorkerId, now: int, lease: nat, call: nat, db': Db)
    requires StarvesAt(db, client, who, now, lease, call, db')
    ensures !Ends(db, client, who, now, lease)
  {
    forall turns: nat ensures CanTake(Turns(client, who, now, lease), Point(db, 0), turns) {
      StarvingGoesOn(db, client, who, now, lease, call, db', turns);
    }
  }

  /** Whatever the client does and however ties in age are broken, the stage ends exactly if, from a call on
      from which the client only answers with nothing, every oldest group it would be asked about has a
      RUNNING owner. */
  lemma StageEndsExactly(db: Db, client: Client, who: WorkerId, now: int, lease: nat)
    ensures Ends(db, client, who, now, lease) <==> NeverStarves(db, client, who, now, lease)
  {
    if call: nat, db': Db :| StarvesAt(db, client, who, now, lease, call, db') {
      StarvingNeverEnds(db, client, who, now, lease, call, db');
    } else if KeepsAnswering(client) {
      KeepsAnsweringEnds(db, client, who, now, lease);
    } else {
      var call: nat :| EmptyFrom(client, call);
      EmptyInTheEndEnds(db, client, call, who, now, lease);
    }
  }

  lemma KeepsAnsweringNeverStarves(db: Db, client: Client, who: WorkerId, now: int, lease: nat)
    requires KeepsAnswering(client)
    ensures NeverStarves(db, client, who, now, lease)
  {
    KeepsAnsweringEnds(db, client, who, now, lease);
    StageEndsExactly(db, client, who, now, lease);
  }

  /** With a client that only ever answers with nothing: exactly if every oldest asking group has a RUNNING
      owner, or there is none. */
  lemma EmptyClientEndsExactly(db: Db, client: Client, who: WorkerId, now: int, lease: nat)
    requires EmptyFrom(client, 0)
    ensures Ends(db, client, who, now, lease) <==> Starving(db, now - lease) == {}
  {
    if Starving(db, now - lease) == {} {
      EmptyStageEnds(db, client, 0, who, now, lease, Fuel(db) + 1);
    } else {
      assert CanReach(Turns(client, who, now, lease), Point(db, 0), Point(db, 0), 0);
      StarvingNeverEnds(db, client, who, now, lease, 0, db);
    }
  }

  /** Any client will do if every group it would be asked about is owned. */
  lemma OwnedStageEnds(db: Db, client: Client, who: WorkerId, now: int, lease: nat)
    requires AllOwned(db, now - lease)
    ensures Ends(db, client, who, now, lease)
  {
    var turn, turns := Turns(client, who, now, lease), Fuel(db) + 1;
    var fine := (p: Point) => AllOwned(p.db, now - lease);
    var fuel: Point -> nat := (p: Point) => Fuel(p.db);
    forall p: Point, p': Point | fine(p) && turn(p, p') ensures fine(p') && fuel(p') < fuel(p) {
      var g, owner :| TurnOn(p.db, g, owner, who, now, lease, false) && p'.db == Turned(p.db, g, owner, who, now, client(p.call));
      OwnedTurn(p.db, g, owner, who, now, lease, client(p.call));
    }
    if CanTake(turn, Point(db, 0), turns) { TurnsUseFuel(turn, fine, fuel, Point(db, 0), turns); }
    assert !CanTake(turn, Point(db, 0), turns);
  }
}
