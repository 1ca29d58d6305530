/** Safety of the document pipeline in every interleaving: what each group's state promises about its
    document, chunks, embeddings and reservation, and that states only move forward. */
module Pipeline {
  import opened Collections
  import opened Tables
  import opened Protocol

  predicate Complete(db: Db, g: GroupId)
  {
    g in db.groups && g in db.docs && |db.docs[g]| == db.groups[g].pieces
  }

  predicate AllEmbedded(db: Db, g: GroupId)
  {
    g in db.docs && forall k :: 0 <= k < |db.docs[g]| ==> db.docs[g][k]
  }

  /** What the row of a group promises. */
  predicate GroupOk(db: Db, g: GroupId)
    requires g in db.groups
  {
    var row := db.groups[g];
    (row.state in {Extracted, Normalized, Chunked, Embedded, Ingested, Excluded, Unsupported, Failed}) &&
    (row.state in {Excluded, Unsupported} ==> row.gen == 0) &&
    (row.reserved.Some? ==> row.state in {Chunked, Embedded} && row.reserved.value.batch in db.batches) &&
    (row.state in {Normalized, Chunked, Embedded, Ingested} ==> g in db.docs) &&
    (row.state in {Chunked, Embedded, Ingested} ==> Complete(db, g)) &&
    (row.state == Ingested ==> AllEmbedded(db, g)) &&
    (row.state in {Ingested, Failed} ==> Tried(db, OfGroup(g)))
  }

  /** Chunk rows are inserted all at once or not at all. */
  predicate DocOk(db: Db, g: GroupId)
    requires g in db.docs
  {
    g in db.groups && (|db.docs[g]| == 0 || |db.docs[g]| == db.groups[g].pieces)
  }

  predicate ShapeOk(stage: Stage, pc: GroupPc)
  {
    match pc
    case Working => true
    case Prepared => !stage.Embedding?
    case Failing(reserved) => reserved ==> stage.Embedding?
    case Consuming(final) => stage.Embedding? && final in {Embedded, Ingested}
    case Releasing(None) => true
    case Releasing(Some(to)) =>
      to == Failed || to in Targets(stage)
    case _ => stage.Embedding?
  }

  function Targets(stage: Stage): set<PipelineState>
  {
    match stage
    case Normalizing => {Normalized}
    case Chunking => {Chunked}
    case Embedding => {Embedded, Ingested}
  }

  /** The program points at which a call that still holds its row may have a reservation on it. */
  predicate MayReserve(pc: GroupPc)
  {
    match pc
    case Calling(_, reserved) => reserved
    case Stored(reserved) => reserved
    case Counting(reserved) => reserved
    case Consuming(_) => true
    case Failing(reserved) => reserved
    case Freeing => true
    case Releasing(to) => to.None?
    case _ => false
  }

  predicate HasRecorded(pc: GroupPc)
  {
    match pc
    case Counting(_) => true
    case Consuming(_) => true
    case Freeing => true
    case Freed => true
    case Releasing(to) => to.Some?
    case _ => false
  }

  /** The state the call is about to write. */
  function Outcome(pc: GroupPc): Option<PipelineState>
  {
    match pc
    case Consuming(final) => Some(final)
    case Releasing(to) => to
    case _ => None
  }

  /** What a call in flight on a group knows, however long it has been delayed. */
  predicate CallOk(db: Db, w: Worker)
    requires w.OnGroup?
  {
    var g := w.group;
    g in db.groups && 1 <= w.gen <= db.groups[g].gen && ShapeOk(w.stage, w.pc) &&
    (w.stage.Chunking? ==> g in db.docs) &&
    (w.stage.Embedding? ==> Complete(db, g)) &&
    (w.pc.Prepared? ==> g in db.docs && (w.stage.Chunking? ==> Complete(db, g))) &&
    (Outcome(w.pc) == Some(Normalized) ==> g in db.docs) &&
    (Outcome(w.pc) == Some(Chunked) ==> Complete(db, g)) &&
    (Outcome(w.pc) == Some(Ingested) ==> AllEmbedded(db, g)) &&
    (HasRecorded(w.pc) ==> Tried(db, OfGroup(g))) &&
    (w.gen == db.groups[g].gen ==>
       db.groups[g].state in Eligible(w.stage) && (db.groups[g].reserved.Some? ==> MayReserve(w.pc)))
  }

  predicate SameGroup(w: Worker, v: Worker)
  {
    w.OnGroup? && v.OnGroup? && w.group == v.group
  }

  /** No two calls in flight hold the same generation of the same row. */
  ghost predicate GenerationsDiffer(workers: map<Token, Worker>)
  {
    forall t, u :: t in workers && u in workers && t != u && SameGroup(workers[t], workers[u])
      ==> workers[t].gen != workers[u].gen
  }

  ghost predicate Inv(s: State)
  {
    (forall g :: g in s.db.groups ==> GroupOk(s.db, g)) &&
    (forall g :: g in s.db.docs ==> DocOk(s.db, g)) &&
    (forall t :: t in s.workers && s.workers[t].OnGroup? ==> CallOk(s.db, s.workers[t])) &&
    GenerationsDiffer(s.workers)
  }

  // ----- steps that leave groups alone ----------------------------------------------------------

  predicate Fresh(row: Group)
  {
    Initial(row.state) && row.claim.None? && row.gen == 0 && row.reserved.None?
  }

  /** Group rows, documents and group calls stay as they were, except that groups may be created,
      attempts recorded, and group calls lost. */
  ghost predicate Quiet(s: State, s': State)
  {
    (forall g :: g in s.db.groups ==> g in s'.db.groups && s'.db.groups[g] == s.db.groups[g]) &&
    (forall g :: g in s'.db.groups && g !in s.db.groups ==> Fresh(s'.db.groups[g])) &&
    s'.db.docs == s.db.docs && s.db.attempts <= s'.db.attempts && s.db.batches.Keys <= s'.db.batches.Keys &&
    (forall t :: t in s'.workers && s'.workers[t].OnGroup? ==> t in s.workers && s.workers[t] == s'.workers[t])
  }

  lemma QuietKeepsInv(s: State, s': State)
    requires Inv(s) && Quiet(s, s')
    ensures Inv(s')
  {
    forall g | g in s'.db.groups ensures GroupOk(s'.db, g) {
      if g in s.db.groups { assert GroupOk(s.db, g); }
    }
    forall g | g in s'.db.docs ensures DocOk(s'.db, g) { assert DocOk(s.db, g); }
    forall t | t in s'.workers && s'.workers[t].OnGroup? ensures CallOk(s'.db, s'.workers[t]) {
      assert CallOk(s.db, s.workers[t]);
    }
  }

  // ----- steps of one group call ----------------------------------------------------------------

  /** Chunk rows appear all together and embeddings are only ever added. */
  predicate DocsGrow(chunks: seq<bool>, chunks': seq<bool>)
  {
    (chunks == [] || |chunks'| == |chunks|) && forall k :: 0 <= k < |chunks| && k < |chunks'| ==> chunks[k] ==> chunks'[k]
  }

  /** One step of the call `t` on group `g` at generation `gen`: the row changes only if the call
      still holds it, and never its generation. */
  ghost predicate Touches(s: State, s': State, t: Token, g: GroupId, gen: nat)
  {
    g in s.db.groups && s'.db.groups.Keys == s.db.groups.Keys &&
    (forall h :: h in s.db.groups && h != g ==> s'.db.groups[h] == s.db.groups[h]) &&
    s'.db.groups[g].gen == s.db.groups[g].gen && s'.db.groups[g].pieces == s.db.groups[g].pieces &&
    (s.db.groups[g].gen != gen ==> s'.db.groups[g] == s.db.groups[g]) &&
    s.db.docs.Keys <= s'.db.docs.Keys <= s.db.docs.Keys + {g} &&
    (forall h :: h in s.db.docs && h != g ==> s'.db.docs[h] == s.db.docs[h]) &&
    (g in s.db.docs ==> DocsGrow(s.db.docs[g], s'.db.docs[g])) &&
    (g in s'.db.docs ==> DocOk(s'.db, g)) &&
    s.db.attempts <= s'.db.attempts && s.db.batches.Keys == s'.db.batches.Keys &&
    (forall u :: u in s'.workers && u != t ==> u in s.workers && s'.workers[u] == s.workers[u]) &&
    t in s.workers && s.workers[t].OnGroup? && s.workers[t].group == g && s.workers[t].gen == gen &&
    (t in s'.workers ==> s'.workers[t].OnGroup? && s'.workers[t].group == g && s'.workers[t].gen == gen)
  }

  lemma TouchKeepsComplete(s: State, s': State, t: Token, g: GroupId, gen: nat, h: GroupId)
    requires Inv(s) && Touches(s, s', t, g, gen)
    ensures Complete(s.db, h) ==> Complete(s'.db, h)
    ensures Complete(s.db, h) && AllEmbedded(s.db, h) ==> AllEmbedded(s'.db, h)
  {
    if Complete(s.db, h) && h == g {
      if s.db.docs[g] == [] {
        assert s.db.groups[g].pieces == 0;
      }
    }
  }

  lemma TouchKeepsCall(s: State, s': State, t: Token, g: GroupId, gen: nat, u: Token)
    requires Inv(s) && Touches(s, s', t, g, gen)
    requires u in s.workers && u != t && s.workers[u].OnGroup?
    ensures CallOk(s'.db, s.workers[u])
  {
    var w := s.workers[u];
    assert CallOk(s.db, w);
    TouchKeepsComplete(s, s', t, g, gen, w.group);
    if Outcome(w.pc) == Some(Ingested) {
      assert w.stage.Embedding?;
    }
  }

  /** The obligations of a step reduce to its own row and its own call. */
  lemma TouchKeepsInv(s: State, s': State, t: Token, g: GroupId, gen: nat)
    requires Inv(s) && Touches(s, s', t, g, gen)
    requires GroupOk(s'.db, g)
    requires t in s'.workers ==> CallOk(s'.db, s'.workers[t])
    ensures Inv(s')
  {
    forall h | h in s'.db.groups ensures GroupOk(s'.db, h) {
      assert GroupOk(s.db, h);
      TouchKeepsComplete(s, s', t, g, gen, h);
    }
    forall h | h in s'.db.docs ensures DocOk(s'.db, h) {
      if h != g { assert DocOk(s.db, h); }
    }
    forall u | u in s'.workers && s'.workers[u].OnGroup? ensures CallOk(s'.db, s'.workers[u]) {
      if u != t { TouchKeepsCall(s, s', t, g, gen, u); }
    }
  }

  /** A call on a group that is there, with what is known about the call and its row. */
  predicate Ready(s: State, t: Token)
  {
    AtGroup(s, t) && CallOk(s.db, s.workers[t]) && GroupOk(s.db, s.workers[t].group) &&
    (s.workers[t].group in s.db.docs ==> DocOk(s.db, s.workers[t].group))
  }

  /** The step changes nothing, or only the call itself and its own row, of which everything stays true. */
  ghost predicate OwnStep(s: State, s': State, t: Token)
    requires AtGroup(s, t)
  {
    var w := s.workers[t];
    s' == s ||
    (Touches(s, s', t, w.group, w.gen) && GroupOk(s'.db, w.group) && (t in s'.workers ==> CallOk(s'.db, s'.workers[t])))
  }

  lemma RaiseIsOwnStep(s: State, t: Token)
    requires Ready(s, t)
    ensures OwnStep(s, DoRaise(s, t), t)
  {}

  lemma FailIsOwnStep(s: State, t: Token)
    requires Ready(s, t)
    ensures OwnStep(s, DoFail(s, t), t)
  {}

  lemma WriteDocumentIsOwnStep(s: State, t: Token)
    requires Ready(s, t)
    ensures OwnStep(s, DoWriteDocument(s, t), t)
  {}

  lemma WriteChunksIsOwnStep(s: State, t: Token)
    requires Ready(s, t)
    ensures OwnStep(s, DoWriteChunks(s, t), t)
  {}

  lemma RecordPreparedIsOwnStep(s: State, t: Token)
    requires Ready(s, t)
    ensures OwnStep(s, DoRecordPrepared(s, t), t)
  {}

  lemma ReadPendingIsOwnStep(s: State, t: Token)
    requires Ready(s, t)
    ensures OwnStep(s, DoReadPending(s, t), t)
  {}

  lemma ResolveIsOwnStep(s: State, t: Token, owner: Option<BatchId>)
    requires Ready(s, t)
    ensures OwnStep(s, DoResolveBatch(s, t, owner), t)
  {}

  lemma ReserveIsOwnStep(s: State, t: Token, guarded: bool)
    requires Ready(s, t)
    ensures OwnStep(s, DoReserve(s, t, guarded), t)
  {}

  lemma EmbedIsOwnStep(s: State, t: Token, stored: set<nat>)
    requires Ready(s, t)
    ensures OwnStep(s, DoEmbed(s, t, stored), t)
  {}

  lemma RecordStoredIsOwnStep(s: State, t: Token)
    requires Ready(s, t)
    ensures OwnStep(s, DoRecordStored(s, t), t)
  {}

  /** A count of zero is a fact about the chunk rows that no later step undoes. */
  lemma CountIsOwnStep(s: State, t: Token)
    requires Ready(s, t)
    ensures OwnStep(s, DoCountRemaining(s, t), t)
  {
    var w := s.workers[t];
    assert w.group in s.db.docs ==>
             forall k :: 0 <= k < |s.db.docs[w.group]| && !s.db.docs[w.group][k] ==> k in Unembedded(s.db.docs[w.group]);
  }

  lemma ConsumeIsOwnStep(s: State, t: Token)
    requires Ready(s, t)
    ensures OwnStep(s, DoConsume(s, t), t)
  {}

  lemma RecordFailureIsOwnStep(s: State, t: Token)
    requires Ready(s, t)
    ensures OwnStep(s, DoRecordFailure(s, t), t)
  {}

  lemma FreeIsOwnStep(s: State, t: Token)
    requires Ready(s, t)
    ensures OwnStep(s, DoFree(s, t), t)
  {}

  lemma ReleaseFreedIsOwnStep(s: State, t: Token)
    requires Ready(s, t)
    ensures OwnStep(s, DoReleaseFreed(s, t), t)
  {}

  lemma ReleaseIsOwnStep(s: State, t: Token)
    requires Ready(s, t)
    ensures OwnStep(s, DoRelease(s, t), t)
  {}

  /** A grant starts a new generation, which every older call on the row is behind. */
  lemma ClaimKeepsInv(s: State, t: Token, g: GroupId, stage: Stage, who: WorkerId, lease: nat)
    requires Inv(s)
    ensures Inv(DoClaimGroup(s, t, g, stage, who, lease))
  {
    var s' := DoClaimGroup(s, t, g, stage, who, lease);
    if s' != s {
      assert GroupOk(s.db, g);
      forall h | h in s'.db.groups ensures GroupOk(s'.db, h) { assert GroupOk(s.db, h); }
      forall h | h in s'.db.docs ensures DocOk(s'.db, h) { assert DocOk(s.db, h); }
      forall u | u in s'.workers && s'.workers[u].OnGroup? ensures CallOk(s'.db, s'.workers[u]) {
        if u != t { assert CallOk(s.db, s.workers[u]); }
      }
      forall u, v | u in s'.workers && v in s'.workers && u != v && SameGroup(s'.workers[u], s'.workers[v])
        ensures s'.workers[u].gen != s'.workers[v].gen
      {
        if u != t { assert CallOk(s.db, s.workers[u]); }
        if v != t { assert CallOk(s.db, s.workers[v]); }
      }
    }
  }

  lemma GroupActionIsOwnStep(s: State, t: Token, a: GroupAction)
    requires Ready(s, t)
    ensures OwnStep(s, DoGroup(s, t, a), t)
  {
    match a
    case Raise => RaiseIsOwnStep(s, t);
    case Fail => FailIsOwnStep(s, t);
    case WriteDocument => WriteDocumentIsOwnStep(s, t);
    case WriteChunks => WriteChunksIsOwnStep(s, t);
    case RecordPrepared => RecordPreparedIsOwnStep(s, t);
    case ReadPending => ReadPendingIsOwnStep(s, t);
    case ResolveBatch(owner) => ResolveIsOwnStep(s, t, owner);
    case ReserveFor(guarded) => ReserveIsOwnStep(s, t, guarded);
    case Embed(stored) => EmbedIsOwnStep(s, t, stored);
    case RecordStored => RecordStoredIsOwnStep(s, t);
    case CountRemaining => CountIsOwnStep(s, t);
    case Consume => ConsumeIsOwnStep(s, t);
    case RecordFailure => RecordFailureIsOwnStep(s, t);
    case Free => FreeIsOwnStep(s, t);
    case ReleaseFreed => ReleaseFreedIsOwnStep(s, t);
    case Release => ReleaseIsOwnStep(s, t);
  }

  lemma GroupActionKeepsInv(s: State, t: Token, a: GroupAction)
    requires Inv(s) && AtGroup(s, t)
    ensures Inv(DoGroup(s, t, a))
  {
    var w := s.workers[t];
    assert CallOk(s.db, w) && GroupOk(s.db, w.group);
    if w.group in s.db.docs { assert DocOk(s.db, w.group); }
    GroupActionIsOwnStep(s, t, a);
    if DoGroup(s, t, a) != s { TouchKeepsInv(s, DoGroup(s, t, a), t, w.group, w.gen); }
  }

  lemma EnvironmentIsQuiet(s: State, a: EnvironmentAction)
    ensures Quiet(s, DoEnvironment(s, a))
  {}

  lemma InstancesAreQuiet(s: State, t: Token, a: InstanceAction)
    requires AtInstance(s, t)
    ensures Quiet(s, DoInstance(s, t, a))
  {}

  lemma ArchivesAreQuiet(s: State, t: Token, a: ArchiveAction)
    requires AtInstance(s, t)
    ensures Quiet(s, DoArchive(s, t, a))
  {}

  lemma ChecksAreQuiet(s: State, t: Token, a: CheckAction)
    requires AtCheck(s, t)
    ensures Quiet(s, DoCheck(s, t, a))
  {}

  predicate OnGroups(a: Action)
  {
    a.ClaimGroup? || a.GroupStep?
  }

  lemma OthersAreQuiet(s: State, a: Action)
    requires !OnGroups(a)
    ensures Quiet(s, Do(s, a))
  {
    match a
    case Environment(env) => EnvironmentIsQuiet(s, env);
    case SelectInstance(_, _, _, _, _, _) =>
    case GrantSelected(_) =>
    case InstanceStep(t, ia) => if AtInstance(s, t) { InstancesAreQuiet(s, t, ia); }
    case ArchiveStep(t, aa) => if AtInstance(s, t) { ArchivesAreQuiet(s, t, aa); }
    case StartCheck(_, _) =>
    case CheckStep(t, ca) => if AtCheck(s, t) { ChecksAreQuiet(s, t, ca); }
  }

  /** Every action of every call, crash and operator keeps the pipeline invariant. */
  lemma InvKept(s: State, a: Action)
    requires Inv(s)
    ensures Inv(Do(s, a))
  {
    if a.ClaimGroup? {
      ClaimKeepsInv(s, a.t, a.g, a.stage, a.who, a.lease);
    } else if a.GroupStep? {
      if AtGroup(s, a.t) { GroupActionKeepsInv(s, a.t, a.ga); }
    } else {
      OthersAreQuiet(s, a);
      QuietKeepsInv(s, Do(s, a));
    }
  }

  lemma {:induction false} InvRuns(s: State, actions: seq<Action>)
    requires Inv(s)
    ensures Inv(Run(s, actions))
    decreases |actions|
  {
    if actions != [] {
      InvRuns(s, actions[..|actions| - 1]);
      InvKept(Run(s, actions[..|actions| - 1]), actions[|actions| - 1]);
    }
  }

  lemma InvReachable(s: State)
    requires Reachable(s)
    ensures Inv(s)
  {
    var actions :| s == Run(EMPTY, actions);
    InvRuns(EMPTY, actions);
  }

  /** In every interleaving, at every moment: a group past EXTRACTED that has not failed has its
      Document, a chunked one has all its chunk rows, an ingested one has every embedding, and no
      terminal group carries a reservation. */
  lemma PipelineSafety(s: State, g: GroupId)
    requires Reachable(s) && g in s.db.groups
    ensures var state := s.db.groups[g].state;
            (state in {Normalized, Chunked, Embedded, Ingested} ==> g in s.db.docs) &&
            (state in {Chunked, Embedded, Ingested} ==> |s.db.docs[g]| == s.db.groups[g].pieces) &&
            (state == Ingested ==> forall k :: 0 <= k < |s.db.docs[g]| ==> s.db.docs[g][k]) &&
            (state in TERMINAL ==> s.db.groups[g].reserved.None?)
  {
    InvReachable(s);
    assert GroupOk(s.db, g);
  }
}
