/** The embedding ledger: every batch's counter is exactly the reservations that now name it plus
    everything it ever consumed. */
module Ledger {
  import opened Collections
  import opened Tables
  import opened Protocol
  import opened Pipeline
  import opened Evolution

  function Names(row: Group, b: BatchId): nat
  {
    if row.reserved.Some? && row.reserved.value.batch == b then row.reserved.value.amount else 0
  }

  function HeldBy(groups: map<GroupId, Group>, b: BatchId): GroupId -> int
  {
    g => if g in groups then Names(groups[g], b) else 0
  }

  /** The embeddings now reserved against a batch, over all groups. */
  ghost function Held(groups: map<GroupId, Group>, b: BatchId): int
  {
    Sum(groups.Keys, HeldBy(groups, b))
  }

  ghost predicate Balanced(s: State, b: BatchId)
    requires b in s.db.batches
  {
    s.db.batches[b].embeddingsReserved == Held(s.db.groups, b) + Tally(s.hist.consumed, b) &&
    s.db.batches[b].embeddingsReserved <= s.db.batches[b].maxEmbeddings
  }

  ghost predicate LedgerOk(s: State)
  {
    (forall b :: b in s.db.batches ==> Balanced(s, b)) &&
    (forall b :: b in s.hist.consumed ==> b in s.db.batches)
  }

  lemma HeldNonNegative(groups: map<GroupId, Group>, b: BatchId)
    ensures Held(groups, b) >= 0
  {
    SumNonNegative(groups.Keys, HeldBy(groups, b));
  }

  /** Writing one group row moves a batch's held total by exactly that row's change. */
  lemma HeldChange(groups: map<GroupId, Group>, g: GroupId, row: Group, b: BatchId)
    requires g in groups
    ensures Held(groups[g := row], b) == Held(groups, b) - Names(groups[g], b) + Names(row, b)
  {
    assert groups[g := row].Keys == groups.Keys;
    SumChange(groups.Keys, g, HeldBy(groups, b), HeldBy(groups[g := row], b));
  }

  /** No reservation appears, changes or goes away; groups without one may be created. */
  ghost predicate ReservationsSame(groups: map<GroupId, Group>, groups': map<GroupId, Group>)
  {
    (forall g :: g in groups ==> g in groups' && groups'[g].reserved == groups[g].reserved) &&
    (forall g :: g in groups' && g !in groups ==> groups'[g].reserved.None?)
  }

  lemma SameReservationsSameHeld(groups: map<GroupId, Group>, groups': map<GroupId, Group>, b: BatchId)
    requires ReservationsSame(groups, groups')
    ensures Held(groups', b) == Held(groups, b)
  {
    SumSameSupport(groups.Keys, groups'.Keys, HeldBy(groups, b), HeldBy(groups', b));
  }

  predicate CountersSame(batches: map<BatchId, Batch>, batches': map<BatchId, Batch>)
  {
    batches'.Keys == batches.Keys &&
    forall b :: b in batches ==> SameCounter(batches[b], batches'[b])
  }

  predicate SameCounter(row: Batch, row': Batch)
  {
    row'.embeddingsReserved == row.embeddingsReserved && row'.maxEmbeddings == row.maxEmbeddings
  }

  /** Neither the counters, nor the reservations, nor what was consumed has changed. */
  ghost predicate LedgerSame(s: State, s': State)
  {
    s'.hist.consumed == s.hist.consumed && CountersSame(s.db.batches, s'.db.batches) &&
    ReservationsSame(s.db.groups, s'.db.groups)
  }

  lemma SameKeepsLedger(s: State, s': State)
    requires LedgerOk(s) && LedgerSame(s, s')
    ensures LedgerOk(s')
  {
    forall b | b in s'.db.batches ensures Balanced(s', b) {
      assert Balanced(s, b) && SameCounter(s.db.batches[b], s'.db.batches[b]);
      SameReservationsSameHeld(s.db.groups, s'.db.groups, b);
    }
  }

  lemma CreateBatchKeepsLedger(s: State, b: BatchId, run: RunId, picks: map<InstanceId, Pick>, e: nat, x: Option<nat>)
    requires Inv(s) && LedgerOk(s)
    ensures LedgerOk(DoCreateBatch(s, b, run, picks, e, x))
  {
    var s' := DoCreateBatch(s, b, run, picks, e, x);
    if s' != s {
      forall g | g in s.db.groups && s.db.groups[g].reserved.Some? ensures s.db.groups[g].reserved.value.batch != b {
        assert GroupOk(s.db, g);
      }
      SumOfZeros(s.db.groups.Keys, HeldBy(s.db.groups, b));
      forall c | c in s'.db.batches ensures Balanced(s', c) {
        if c != b { assert Balanced(s, c); }
      }
    }
  }

  lemma EnvironmentIsSame(s: State, a: EnvironmentAction)
    requires !a.CreateBatch?
    ensures LedgerSame(s, DoEnvironment(s, a))
  {}

  lemma InstanceIsSame(s: State, t: Token, a: InstanceAction)
    requires AtInstance(s, t)
    ensures LedgerSame(s, DoInstance(s, t, a))
  {}

  lemma AddExtractedIsSame(db: Db, b: BatchId, delta: int)
    ensures CountersSame(db.batches, AddExtracted(db, b, delta).batches)
  {}

  lemma ArchiveKeepsReservations(s: State, t: Token, a: ArchiveAction)
    requires AtInstance(s, t)
    ensures DoArchive(s, t, a).hist.consumed == s.hist.consumed
    ensures ReservationsSame(s.db.groups, DoArchive(s, t, a).db.groups)
  {}

  lemma ArchiveIsSame(s: State, t: Token, a: ArchiveAction)
    requires AtInstance(s, t)
    ensures LedgerSame(s, DoArchive(s, t, a))
  {
    ArchiveKeepsReservations(s, t, a);
    assert CountersSame(s.db.batches, s.db.batches);
    var pc := s.workers[t].ipc;
    if a.Admit? {
      if a.charged.Some? { AddExtractedIsSame(s.db, a.charged.value, EstimateOf(s.db, s.workers[t].inst)); }
    } else if a.Discharge? {
      if pc.WalkFailed? && pc.charge.Some? { AddExtractedIsSame(s.db, pc.charge.value.batch, 0 - pc.charge.value.amount); }
    } else if a.Reconcile? {
      if pc.Walked? && pc.charge.Some? { AddExtractedIsSame(s.db, pc.charge.value.batch, pc.bytes - pc.charge.value.amount); }
    } else {
      assert DoArchive(s, t, a).db.batches == s.db.batches;
    }
  }

  lemma CheckIsSame(s: State, t: Token, a: CheckAction)
    requires AtCheck(s, t)
    ensures LedgerSame(s, DoCheck(s, t, a))
  {}

  lemma SelectionIsSame(s: State, a: Action)
    requires a.SelectInstance? || a.GrantSelected? || a.StartCheck?
    ensures LedgerSame(s, Do(s, a))
  {}

  predicate MovesReservations(a: GroupAction)
  {
    a.ReserveFor? || a.Consume? || a.Free?
  }

  lemma GroupIsSame(s: State, t: Token, a: GroupAction)
    requires AtGroup(s, t) && !MovesReservations(a)
    ensures LedgerSame(s, DoGroup(s, t, a))
  {
    assert CountersSame(s.db.batches, s.db.batches) && ReservationsSame(s.db.groups, s.db.groups);
  }

  /** A step that writes one group row moves a batch's counter by what it does to the row's reservation
      and to what was consumed, and leaves it within the envelope. */
  predicate MovedAt(s: State, s': State, g: GroupId, b: BatchId)
    requires g in s.db.groups && g in s'.db.groups && b in s.db.batches && b in s'.db.batches
  {
    s'.db.batches[b].embeddingsReserved - s.db.batches[b].embeddingsReserved ==
      Names(s'.db.groups[g], b) - Names(s.db.groups[g], b) + Tally(s'.hist.consumed, b) - Tally(s.hist.consumed, b) &&
    s'.db.batches[b].maxEmbeddings == s.db.batches[b].maxEmbeddings &&
    (s.db.batches[b].embeddingsReserved <= s.db.batches[b].maxEmbeddings ==>
       s'.db.batches[b].embeddingsReserved <= s'.db.batches[b].maxEmbeddings)
  }

  predicate OneRow(s: State, s': State, g: GroupId)
  {
    g in s.db.groups && g in s'.db.groups && s'.db.groups == s.db.groups[g := s'.db.groups[g]] &&
    s'.db.batches.Keys == s.db.batches.Keys
  }

  lemma MoveKeepsLedger(s: State, s': State, g: GroupId)
    requires LedgerOk(s) && OneRow(s, s', g) && s'.hist.consumed.Keys <= s.db.batches.Keys
    requires forall b :: b in s.db.batches ==> MovedAt(s, s', g, b)
    ensures LedgerOk(s')
  {
    forall b | b in s'.db.batches ensures Balanced(s', b) {
      assert Balanced(s, b) && MovedAt(s, s', g, b);
      HeldChange(s.db.groups, g, s'.db.groups[g], b);
    }
  }

  /** A grant credits the abandoned reservation to the batch that reserved it, and to no other. */
  lemma ClaimMoves(s: State, t: Token, g: GroupId, stage: Stage, who: WorkerId, lease: nat)
    requires DoClaimGroup(s, t, g, stage, who, lease) != s
    requires g in s.db.groups && (s.db.groups[g].reserved.Some? ==> s.db.groups[g].reserved.value.batch in s.db.batches)
    ensures var s' := DoClaimGroup(s, t, g, stage, who, lease);
            OneRow(s, s', g) && s'.hist.consumed == s.hist.consumed && forall b :: b in s.db.batches ==> MovedAt(s, s', g, b)
  {}

  lemma ClaimKeepsLedger(s: State, t: Token, g: GroupId, stage: Stage, who: WorkerId, lease: nat)
    requires Inv(s) && LedgerOk(s)
    ensures LedgerOk(DoClaimGroup(s, t, g, stage, who, lease))
  {
    var s' := DoClaimGroup(s, t, g, stage, who, lease);
    if s' != s {
      assert GroupOk(s.db, g);
      ClaimMoves(s, t, g, stage, who, lease);
      MoveKeepsLedger(s, s', g);
    }
  }

  lemma ReserveMoves(s: State, t: Token, guarded: bool)
    requires AtGroup(s, t) && s.workers[t].group in s.db.groups
    requires s.workers[t].pc.Reserving? && HoldsGroup(s.db, s.workers[t].group, s.workers[t].gen) ==>
               s.db.groups[s.workers[t].group].reserved.None?
    ensures var s' := DoReserve(s, t, guarded);
            OneRow(s, s', s.workers[t].group) && s'.hist.consumed == s.hist.consumed &&
            forall b :: b in s.db.batches ==> MovedAt(s, s', s.workers[t].group, b)
  {
    assert s.db.groups[s.workers[t].group := s.db.groups[s.workers[t].group]] == s.db.groups;
  }

  lemma ReserveKeepsLedger(s: State, t: Token, guarded: bool)
    requires Inv(s) && LedgerOk(s) && AtGroup(s, t)
    ensures LedgerOk(DoReserve(s, t, guarded))
  {
    assert CallOk(s.db, s.workers[t]);
    ReserveMoves(s, t, guarded);
    MoveKeepsLedger(s, DoReserve(s, t, guarded), s.workers[t].group);
  }

  lemma ConsumeMoves(s: State, t: Token)
    requires AtGroup(s, t) && GroupOkAt(s.db, s.workers[t].group)
    ensures var s' := DoConsume(s, t);
            OneRow(s, s', s.workers[t].group) && s'.hist.consumed.Keys <= s.hist.consumed.Keys + s.db.batches.Keys &&
            forall b :: b in s.db.batches ==> MovedAt(s, s', s.workers[t].group, b)
  {
    assert s.db.groups[s.workers[t].group := s.db.groups[s.workers[t].group]] == s.db.groups;
  }

  /** A reservation names a batch that exists. */
  predicate GroupOkAt(db: Db, g: GroupId)
  {
    g in db.groups && (db.groups[g].reserved.Some? ==> db.groups[g].reserved.value.batch in db.batches)
  }

  lemma ConsumeKeepsLedger(s: State, t: Token)
    requires Inv(s) && LedgerOk(s) && AtGroup(s, t)
    ensures LedgerOk(DoConsume(s, t))
  {
    assert CallOk(s.db, s.workers[t]) && GroupOk(s.db, s.workers[t].group);
    ConsumeMoves(s, t);
    MoveKeepsLedger(s, DoConsume(s, t), s.workers[t].group);
  }

  lemma FreeMoves(s: State, t: Token)
    requires AtGroup(s, t) && GroupOkAt(s.db, s.workers[t].group)
    ensures var s' := DoFree(s, t);
            OneRow(s, s', s.workers[t].group) && s'.hist.consumed == s.hist.consumed &&
            forall b :: b in s.db.batches ==> MovedAt(s, s', s.workers[t].group, b)
  {
    assert s.db.groups[s.workers[t].group := s.db.groups[s.workers[t].group]] == s.db.groups;
  }

  lemma FreeKeepsLedger(s: State, t: Token)
    requires Inv(s) && LedgerOk(s) && AtGroup(s, t)
    ensures LedgerOk(DoFree(s, t))
  {
    assert CallOk(s.db, s.workers[t]) && GroupOk(s.db, s.workers[t].group);
    FreeMoves(s, t);
    MoveKeepsLedger(s, DoFree(s, t), s.workers[t].group);
  }

  lemma GroupKeepsLedger(s: State, t: Token, a: GroupAction)
    requires Inv(s) && LedgerOk(s) && AtGroup(s, t)
    ensures LedgerOk(DoGroup(s, t, a))
  {
    match a
    case ReserveFor(guarded) => ReserveKeepsLedger(s, t, guarded);
    case Consume => ConsumeKeepsLedger(s, t);
    case Free => FreeKeepsLedger(s, t);
    case _ =>
      GroupIsSame(s, t, a);
      SameKeepsLedger(s, DoGroup(s, t, a));
  }

  lemma OthersAreSame(s: State, a: Action)
    requires !a.ClaimGroup? && !a.GroupStep? && !(a.Environment? && a.env.CreateBatch?)
    ensures LedgerSame(s, Do(s, a))
  {
    match a
    case Environment(env) => EnvironmentIsSame(s, env);
    case InstanceStep(t, ia) => if AtInstance(s, t) { InstanceIsSame(s, t, ia); }
    case ArchiveStep(t, aa) => if AtInstance(s, t) { ArchiveIsSame(s, t, aa); }
    case CheckStep(t, ca) => if AtCheck(s, t) { CheckIsSame(s, t, ca); }
    case _ => SelectionIsSame(s, a);
  }

  lemma LedgerKept(s: State, a: Action)
    requires Inv(s) && LedgerOk(s)
    ensures LedgerOk(Do(s, a))
  {
    if a.ClaimGroup? {
      ClaimKeepsLedger(s, a.t, a.g, a.stage, a.who, a.lease);
    } else if a.GroupStep? {
      if AtGroup(s, a.t) { GroupKeepsLedger(s, a.t, a.ga); }
    } else if a.Environment? && a.env.CreateBatch? {
      CreateBatchKeepsLedger(s, a.env.b, a.env.run, a.env.picks, a.env.maxEmbeddings, a.env.maxExtracted);
    } else {
      OthersAreSame(s, a);
      SameKeepsLedger(s, Do(s, a));
    }
  }

  lemma {:induction false} LedgerRuns(actions: seq<Action>)
    ensures LedgerOk(Run(EMPTY, actions))
    decreases |actions|
  {
    if actions != [] {
      var before := actions[..|actions| - 1];
      InvRuns(EMPTY, before);
      LedgerRuns(before);
      LedgerKept(Run(EMPTY, before), actions[|actions| - 1]);
    }
  }

  // ----- the statements about whole runs ----------------------------------------------------------

  /** In every interleaving of calls, crashes and reclaims: a batch's counter is what groups now
      reserve against it plus what it consumed, and it stays between zero and the envelope. */
  lemma EmbeddingLedger(s: State, b: BatchId)
    requires Reachable(s) && b in s.db.batches
    ensures s.db.batches[b].embeddingsReserved == Held(s.db.groups, b) + Tally(s.hist.consumed, b)
    ensures 0 <= s.db.batches[b].embeddingsReserved <= s.db.batches[b].maxEmbeddings
  {
    var actions :| s == Run(EMPTY, actions);
    LedgerRuns(actions);
    assert Balanced(s, b);
    HeldNonNegative(s.db.groups, b);
  }

  function Ticks(k: nat): seq<Action>
  {
    seq(k, _ => Environment(Tick))
  }

  lemma {:induction false} TicksOnlyMoveTime(s: State, k: nat)
    ensures Run(s, Ticks(k)) == s.(now := s.now + k)
    decreases k
  {
    if k > 0 {
      TicksOnlyMoveTime(s, k - 1);
      assert Ticks(k)[..k - 1] == Ticks(k - 1);
    }
  }

  /** How long until a claim with this lease counts the row's holder as gone. */
  function Wait(s: State, g: GroupId, lease: nat): nat
    requires g in s.db.groups
  {
    match s.db.groups[g].claim
    case None => 0
    case Some(c) => if s.now > c.at + lease then 0 else c.at + lease - s.now + 1
  }

  /** Every batch keeps its embedding counter, except that `b` gets `amount` back. */
  predicate CreditedOnly(batches: map<BatchId, Batch>, batches': map<BatchId, Batch>, b: BatchId, amount: nat)
  {
    b in batches && batches'.Keys == batches.Keys &&
    (forall c :: c in batches && c != b ==> batches'[c] == batches[c]) &&
    batches'[b] == batches[b].(embeddingsReserved := batches[b].embeddingsReserved - amount)
  }

  lemma ReclaimCredits(s: State, g: GroupId, t: Token, who: WorkerId, lease: nat)
    requires Inv(s) && g in s.db.groups && s.db.groups[g].reserved.Some? && t !in s.workers
    requires FreeOrStale(s.db.groups[g].claim, s.now - lease)
    ensures var s' := DoClaimGroup(s, t, g, Embedding, who, lease);
            var held := s.db.groups[g].reserved.value;
            g in s'.db.groups && s'.db.groups[g].reserved.None? && s'.db.groups[g].gen == s.db.groups[g].gen + 1 &&
            CreditedOnly(s.db.batches, s'.db.batches, held.batch, held.amount)
  {
    assert GroupOk(s.db, g);
  }

  /** No reservation can be stranded: once the holder's lease has run out, whoever claims the group
      next gives the batch that reserved it exactly the abandoned amount back, and nothing else. */
  lemma AbandonedReservationsReturn(s: State, g: GroupId, t: Token, who: WorkerId, lease: nat)
    requires Reachable(s) && g in s.db.groups && s.db.groups[g].reserved.Some? && t !in s.workers
    ensures var held := s.db.groups[g].reserved.value;
            var s' := Do(Run(s, Ticks(Wait(s, g, lease))), ClaimGroup(t, g, Embedding, who, lease));
            g in s'.db.groups && s'.db.groups[g].reserved.None? && s'.db.groups[g].gen == s.db.groups[g].gen + 1 &&
            CreditedOnly(s.db.batches, s'.db.batches, held.batch, held.amount)
  {
    InvReachable(s);
    var later := Run(s, Ticks(Wait(s, g, lease)));
    TicksOnlyMoveTime(s, Wait(s, g, lease));
    InvRuns(s, Ticks(Wait(s, g, lease)));
    ReclaimCredits(later, g, t, who, lease);
  }
}
