/** The extracted-bytes ledger: every batch's counter is the measured bytes of its finished archive
    attempts, plus the estimates of those in flight, plus what crashed attempts left behind. */
module ByteLedger {
  import opened Collections
  import opened Tables
  import opened Protocol

  function ChargeOf(w: Worker): Option<Charge>
  {
    if w.OnInstance? then InFlight(w.ipc) else None
  }

  function Charged(charge: Option<Charge>, b: BatchId): nat
  {
    if charge.Some? && charge.value.batch == b then charge.value.amount else 0
  }

  function ChargedBy(workers: map<Token, Worker>, b: BatchId): Token -> int
  {
    t => if t in workers then Charged(ChargeOf(workers[t]), b) else 0
  }

  /** The estimates of the archive attempts now charged to a batch. */
  ghost function InFlightTotal(workers: map<Token, Worker>, b: BatchId): int
  {
    Sum(workers.Keys, ChargedBy(workers, b))
  }

  ghost predicate BytesBalanced(s: State, b: BatchId)
  {
    b in s.db.batches ==>
      s.db.batches[b].extracted == Tally(s.hist.measured, b) + InFlightTotal(s.workers, b) + Tally(s.hist.lost, b)
  }

  /** Only batches that exist are charged or have bytes on record. */
  ghost predicate ChargesKnown(s: State)
  {
    (forall t :: t in s.workers && ChargeOf(s.workers[t]).Some? ==> ChargeOf(s.workers[t]).value.batch in s.db.batches) &&
    s.hist.measured.Keys <= s.db.batches.Keys && s.hist.lost.Keys <= s.db.batches.Keys
  }

  // ----- sums over calls -------------------------------------------------------------------------

  predicate ChargeAt(workers: map<Token, Worker>, t: Token, charge: Option<Charge>)
  {
    (if t in workers then ChargeOf(workers[t]) else None) == charge
  }

  /** No call gains, changes or loses a charge. */
  ghost predicate ChargesSame(workers: map<Token, Worker>, workers': map<Token, Worker>)
  {
    forall t :: t in workers || t in workers' ==>
      ChargeAt(workers', t, if t in workers then ChargeOf(workers[t]) else None)
  }

  lemma SameChargesSameTotal(workers: map<Token, Worker>, workers': map<Token, Worker>, b: BatchId)
    requires ChargesSame(workers, workers')
    ensures InFlightTotal(workers', b) == InFlightTotal(workers, b)
  {
    assert forall t :: t in workers || t in workers' ==>
      ChargeAt(workers', t, if t in workers then ChargeOf(workers[t]) else None);
    SumSameSupport(workers.Keys, workers'.Keys, ChargedBy(workers, b), ChargedBy(workers', b));
  }

  lemma TotalChange(workers: map<Token, Worker>, t: Token, w: Worker, b: BatchId)
    requires t in workers
    ensures InFlightTotal(workers[t := w], b) ==
            InFlightTotal(workers, b) - Charged(ChargeOf(workers[t]), b) + Charged(ChargeOf(w), b)
  {
    assert workers[t := w].Keys == workers.Keys;
    SumChange(workers.Keys, t, ChargedBy(workers, b), ChargedBy(workers[t := w], b));
  }

  lemma TotalWithout(workers: map<Token, Worker>, t: Token, b: BatchId)
    requires t in workers
    ensures InFlightTotal(workers - {t}, b) == InFlightTotal(workers, b) - Charged(ChargeOf(workers[t]), b)
  {
    SumRemove(workers.Keys, t, ChargedBy(workers, b));
    assert (workers - {t}).Keys == workers.Keys - {t};
    SumSame(workers.Keys - {t}, ChargedBy(workers, b), ChargedBy(workers - {t}, b));
  }

  // ----- steps that settle nothing -----------------------------------------------------------------

  predicate ExtractedSame(batches: map<BatchId, Batch>, batches': map<BatchId, Batch>)
  {
    batches'.Keys == batches.Keys && forall b :: b in batches ==> batches'[b].extracted == batches[b].extracted
  }

  ghost predicate BytesSame(s: State, s': State)
  {
    ExtractedSame(s.db.batches, s'.db.batches) && ChargesSame(s.workers, s'.workers) &&
    s'.hist.measured == s.hist.measured && s'.hist.lost == s.hist.lost
  }

  lemma SameKeepsBytes(s: State, s': State, b: BatchId)
    requires BytesBalanced(s, b) && BytesSame(s, s')
    ensures BytesBalanced(s', b)
  {
    SameChargesSameTotal(s.workers, s'.workers, b);
  }

  lemma SameKeepsKnown(s: State, s': State)
    requires ChargesKnown(s) && BytesSame(s, s')
    ensures ChargesKnown(s')
  {
    forall t | t in s'.workers && ChargeOf(s'.workers[t]).Some?
      ensures ChargeOf(s'.workers[t]).value.batch in s'.db.batches
    {
      assert ChargeAt(s'.workers, t, if t in s.workers then ChargeOf(s.workers[t]) else None);
    }
  }

  // ----- steps that settle a charge ------------------------------------------------------------------

  lemma CreateBatchKeepsBytes(s: State, b: BatchId, run: RunId, picks: map<InstanceId, Pick>, e: nat, x: Option<nat>,
                              c: BatchId)
    requires ChargesKnown(s) && BytesBalanced(s, c)
    ensures BytesBalanced(DoCreateBatch(s, b, run, picks, e, x), c)
  {
    if c !in s.db.batches { SumOfZeros(s.workers.Keys, ChargedBy(s.workers, c)); }
  }

  /** One call moves a batch's counter by what it does to its own charge and to the history. */
  predicate SettledAt(s: State, s': State, t: Token, charge: Option<Charge>, b: BatchId)
    requires t in s.workers
  {
    (b in s'.db.batches <==> b in s.db.batches) &&
    (b in s.db.batches ==>
       s'.db.batches[b].extracted - s.db.batches[b].extracted ==
         Charged(charge, b) - Charged(ChargeOf(s.workers[t]), b) +
         Tally(s'.hist.measured, b) - Tally(s.hist.measured, b) + Tally(s'.hist.lost, b) - Tally(s.hist.lost, b))
  }

  lemma SettlingKeepsBytes(s: State, s': State, t: Token, w: Worker, b: BatchId)
    requires BytesBalanced(s, b) && t in s.workers && s'.workers == s.workers[t := w]
    requires SettledAt(s, s', t, ChargeOf(w), b)
    ensures BytesBalanced(s', b)
  {
    TotalChange(s.workers, t, w, b);
  }

  lemma LeavingKeepsBytes(s: State, s': State, t: Token, b: BatchId)
    requires BytesBalanced(s, b) && t in s.workers && s'.workers == s.workers - {t} && SettledAt(s, s', t, None, b)
    ensures BytesBalanced(s', b)
  {
    TotalWithout(s.workers, t, b);
  }

  /** A crash moves the estimate from the calls in flight to what was left behind. */
  lemma LossSettles(s: State, t: Token, b: BatchId)
    requires AtInstance(s, t)
    ensures SettledAt(s, DoCrash(s, t), t, None, b) && DoCrash(s, t).workers == s.workers - {t}
    ensures SettledAt(s, DoAbandon(s, t), t, None, b) && DoAbandon(s, t).workers == s.workers[t := s.workers[t].(ipc := Leaving)]
  {}

  lemma OtherCrashIsSame(s: State, t: Token)
    requires !AtInstance(s, t)
    ensures BytesSame(s, DoCrash(s, t))
  {}

  lemma OperatorIsSame(s: State, a: EnvironmentAction)
    requires !a.CreateBatch? && !a.Crash?
    ensures BytesSame(s, DoEnvironment(s, a))
  {}

  lemma EnvironmentKeepsBytes(s: State, a: EnvironmentAction, b: BatchId)
    requires ChargesKnown(s) && BytesBalanced(s, b)
    ensures BytesBalanced(DoEnvironment(s, a), b)
  {
    if a.CreateBatch? {
      CreateBatchKeepsBytes(s, a.b, a.run, a.picks, a.maxEmbeddings, a.maxExtracted, b);
    } else if !a.Crash? {
      OperatorIsSame(s, a);
      SameKeepsBytes(s, DoEnvironment(s, a), b);
    } else if AtInstance(s, a.lost) {
      LossSettles(s, a.lost, b);
      LeavingKeepsBytes(s, DoCrash(s, a.lost), a.lost, b);
    } else {
      OtherCrashIsSame(s, a.lost);
      SameKeepsBytes(s, DoCrash(s, a.lost), b);
    }
  }

  lemma AbandonKeepsBytes(s: State, t: Token, b: BatchId)
    requires BytesBalanced(s, b) && AtInstance(s, t)
    ensures BytesBalanced(DoAbandon(s, t), b)
  {
    LossSettles(s, t, b);
    SettlingKeepsBytes(s, DoAbandon(s, t), t, s.workers[t].(ipc := Leaving), b);
  }

  lemma InstanceIsSame(s: State, t: Token, a: InstanceAction)
    requires AtInstance(s, t) && !a.Abandon?
    ensures BytesSame(s, DoInstance(s, t, a))
  {}

  predicate Settles(a: ArchiveAction)
  {
    a.Admit? || a.Discharge? || a.Reconcile?
  }

  lemma ArchiveKeepsCharges(s: State, t: Token, a: ArchiveAction)
    requires AtInstance(s, t) && !Settles(a)
    ensures ChargesSame(s.workers, DoArchive(s, t, a).workers)
  {}

  lemma ArchiveKeepsCounters(s: State, t: Token, a: ArchiveAction)
    requires AtInstance(s, t) && !Settles(a)
    ensures DoArchive(s, t, a).db.batches == s.db.batches
    ensures DoArchive(s, t, a).hist.measured == s.hist.measured && DoArchive(s, t, a).hist.lost == s.hist.lost
  {}

  lemma ArchiveIsSame(s: State, t: Token, a: ArchiveAction)
    requires AtInstance(s, t) && !Settles(a)
    ensures BytesSame(s, DoArchive(s, t, a))
  {
    ArchiveKeepsCharges(s, t, a);
    ArchiveKeepsCounters(s, t, a);
  }

  /** What each of the three does to the counters, the history and its own charge adds up. */
  lemma SettlingSettles(s: State, t: Token, a: ArchiveAction, b: BatchId)
    requires AtInstance(s, t) && Settles(a)
    ensures t in DoArchive(s, t, a).workers && DoArchive(s, t, a).workers == s.workers[t := DoArchive(s, t, a).workers[t]]
    ensures SettledAt(s, DoArchive(s, t, a), t, ChargeOf(DoArchive(s, t, a).workers[t]), b)
  {
    assert s.workers[t := s.workers[t]] == s.workers;
    match a
    case Admit(_, _) => AdmitSettles(s, t, a.charged, a.guarded, b);
    case Discharge => DischargeSettles(s, t, b);
    case Reconcile => ReconcileSettles(s, t, b);
  }

  lemma AdmitSettles(s: State, t: Token, charged: Option<BatchId>, guarded: bool, b: BatchId)
    requires AtInstance(s, t)
    ensures var s' := DoAdmit(s, t, charged, guarded);
            t in s'.workers && SettledAt(s, s', t, ChargeOf(s'.workers[t]), b)
  {}

  /** A failed extraction gives its estimate back: it nets to zero. */
  lemma DischargeSettles(s: State, t: Token, b: BatchId)
    requires AtInstance(s, t)
    ensures var s' := DoDischarge(s, t); t in s'.workers && SettledAt(s, s', t, ChargeOf(s'.workers[t]), b)
  {}

  /** A finished extraction replaces its estimate by what was really written. */
  lemma ReconcileSettles(s: State, t: Token, b: BatchId)
    requires AtInstance(s, t)
    ensures var s' := DoReconcile(s, t); t in s'.workers && SettledAt(s, s', t, ChargeOf(s'.workers[t]), b)
  {}

  lemma ArchiveKeepsBytes(s: State, t: Token, a: ArchiveAction, b: BatchId)
    requires BytesBalanced(s, b) && AtInstance(s, t)
    ensures BytesBalanced(DoArchive(s, t, a), b)
  {
    if Settles(a) {
      SettlingSettles(s, t, a, b);
      SettlingKeepsBytes(s, DoArchive(s, t, a), t, DoArchive(s, t, a).workers[t], b);
    } else {
      ArchiveIsSame(s, t, a);
      SameKeepsBytes(s, DoArchive(s, t, a), b);
    }
  }

  lemma GroupEndKeepsCharges(s: State, t: Token, a: GroupAction)
    requires AtGroup(s, t) && (a.Consume? || a.Release?)
    ensures ChargesSame(s.workers, DoGroup(s, t, a).workers)
    ensures DoGroup(s, t, a).hist.measured == s.hist.measured && DoGroup(s, t, a).hist.lost == s.hist.lost
  {}

  lemma GroupKeepsCharges(s: State, t: Token, a: GroupAction)
    requires AtGroup(s, t)
    ensures ChargesSame(s.workers, DoGroup(s, t, a).workers)
    ensures DoGroup(s, t, a).hist.measured == s.hist.measured && DoGroup(s, t, a).hist.lost == s.hist.lost
  {
    if a.Consume? || a.Release? { GroupEndKeepsCharges(s, t, a); }
  }

  lemma CreditKeepsExtracted(batches: map<BatchId, Batch>, b: BatchId, amount: nat)
    ensures ExtractedSame(batches, Credit(batches, b, amount))
  {}

  lemma GroupKeepsExtracted(s: State, t: Token, a: GroupAction)
    requires AtGroup(s, t)
    ensures ExtractedSame(s.db.batches, DoGroup(s, t, a).db.batches)
  {
    if a.Free? && HoldsReservation(s.db, s.workers[t].group, s.workers[t].gen) {
      var held := s.db.groups[s.workers[t].group].reserved.value;
      CreditKeepsExtracted(s.db.batches, held.batch, held.amount);
    }
  }

  lemma GroupIsSame(s: State, t: Token, a: GroupAction)
    requires AtGroup(s, t)
    ensures BytesSame(s, DoGroup(s, t, a))
  {
    GroupKeepsCharges(s, t, a);
    GroupKeepsExtracted(s, t, a);
  }

  lemma CheckIsSame(s: State, t: Token, a: CheckAction)
    requires AtCheck(s, t)
    ensures BytesSame(s, DoCheck(s, t, a))
  {}

  lemma ClaimIsSame(s: State, t: Token, g: GroupId, stage: Stage, who: WorkerId, lease: nat)
    ensures BytesSame(s, DoClaimGroup(s, t, g, stage, who, lease))
  {}

  lemma SelectIsSame(s: State, t: Token, i: InstanceId, who: WorkerId, queue: Queue, run: Option<RunId>, lease: nat)
    ensures BytesSame(s, DoSelectInstance(s, t, i, who, queue, run, lease))
  {}

  lemma GrantIsSame(s: State, t: Token)
    ensures BytesSame(s, DoGrantSelected(s, t))
  {}

  lemma SelectionIsSame(s: State, a: Action)
    requires a.SelectInstance? || a.GrantSelected? || a.StartCheck?
    ensures BytesSame(s, Do(s, a))
  {
    match a
    case SelectInstance(t, i, who, queue, run, lease) => SelectIsSame(s, t, i, who, queue, run, lease);
    case GrantSelected(t) => GrantIsSame(s, t);
    case StartCheck(_, _) =>
  }

  predicate MovesBytes(a: Action)
  {
    a.Environment? || a.ArchiveStep? || (a.InstanceStep? && a.ia.Abandon?)
  }

  lemma OthersAreSame(s: State, a: Action)
    requires !MovesBytes(a)
    ensures BytesSame(s, Do(s, a))
  {
    match a
    case InstanceStep(t, ia) => if AtInstance(s, t) { InstanceIsSame(s, t, ia); }
    case GroupStep(t, ga) => if AtGroup(s, t) { GroupIsSame(s, t, ga); }
    case CheckStep(t, ca) => if AtCheck(s, t) { CheckIsSame(s, t, ca); }
    case ClaimGroup(t, g, stage, who, lease) => ClaimIsSame(s, t, g, stage, who, lease);
    case _ => SelectionIsSame(s, a);
  }

  lemma BytesKept(s: State, a: Action, b: BatchId)
    requires ChargesKnown(s) && BytesBalanced(s, b)
    ensures BytesBalanced(Do(s, a), b)
  {
    if a.Environment? {
      EnvironmentKeepsBytes(s, a.env, b);
    } else if a.ArchiveStep? {
      if AtInstance(s, a.t) { ArchiveKeepsBytes(s, a.t, a.aa, b); }
    } else if MovesBytes(a) {
      if AtInstance(s, a.t) { AbandonKeepsBytes(s, a.t, b); }
    } else {
      OthersAreSame(s, a);
      SameKeepsBytes(s, Do(s, a), b);
    }
  }

  lemma EnvironmentKeepsKnown(s: State, a: EnvironmentAction)
    requires ChargesKnown(s)
    ensures ChargesKnown(DoEnvironment(s, a))
  {}

  lemma AbandonKeepsKnown(s: State, t: Token)
    requires ChargesKnown(s) && AtInstance(s, t)
    ensures ChargesKnown(DoAbandon(s, t))
  {}

  lemma SettlingKeepsKnown(s: State, t: Token, a: ArchiveAction)
    requires ChargesKnown(s) && AtInstance(s, t) && Settles(a)
    ensures ChargesKnown(DoArchive(s, t, a))
  {}

  lemma KnownKept(s: State, a: Action)
    requires ChargesKnown(s)
    ensures ChargesKnown(Do(s, a))
  {
    if a.Environment? {
      EnvironmentKeepsKnown(s, a.env);
    } else if a.ArchiveStep? && Settles(a.aa) {
      if AtInstance(s, a.t) { SettlingKeepsKnown(s, a.t, a.aa); }
    } else if a.ArchiveStep? {
      if AtInstance(s, a.t) {
        ArchiveIsSame(s, a.t, a.aa);
        SameKeepsKnown(s, DoArchive(s, a.t, a.aa));
      }
    } else if MovesBytes(a) {
      if AtInstance(s, a.t) { AbandonKeepsKnown(s, a.t); }
    } else {
      OthersAreSame(s, a);
      SameKeepsKnown(s, Do(s, a));
    }
  }

  lemma {:induction false} BytesRuns(actions: seq<Action>, b: BatchId)
    ensures ChargesKnown(Run(EMPTY, actions)) && BytesBalanced(Run(EMPTY, actions), b)
    decreases |actions|
  {
    if actions != [] {
      var before := Run(EMPTY, actions[..|actions| - 1]);
      BytesRuns(actions[..|actions| - 1], b);
      KnownKept(before, actions[|actions| - 1]);
      BytesKept(before, actions[|actions| - 1], b);
    }
  }

  // ----- the statements about whole runs ------------------------------------------------------------

  /** In every interleaving the counter is exactly what finished attempts measured, what attempts in
      flight estimated, and what attempts that crashed mid-way had estimated; so no subtraction ever
      takes it below zero. */
  lemma ExtractedBytesLedger(s: State, b: BatchId)
    requires Reachable(s) && b in s.db.batches
    ensures s.db.batches[b].extracted ==
            Tally(s.hist.measured, b) + InFlightTotal(s.workers, b) + Tally(s.hist.lost, b)
    ensures s.db.batches[b].extracted >= 0
  {
    var actions :| s == Run(EMPTY, actions);
    BytesRuns(actions, b);
    SumNonNegative(s.workers.Keys, ChargedBy(s.workers, b));
  }

  predicate LosesCalls(a: Action)
  {
    (a.Environment? && a.env.Crash?) || (a.InstanceStep? && a.ia.Abandon?)
  }

  lemma OnlyCrashesLose(s: State, a: Action)
    requires !LosesCalls(a)
    ensures Do(s, a).hist.lost == s.hist.lost
  {
    match a
    case Environment(env) =>
    case InstanceStep(t, ia) =>
    case ArchiveStep(t, aa) =>
    case GroupStep(t, ga) => if AtGroup(s, t) { GroupIsSame(s, t, ga); }
    case CheckStep(t, ca) =>
    case _ =>
  }

  lemma {:induction false} NothingLost(actions: seq<Action>)
    requires forall k :: 0 <= k < |actions| ==> !LosesCalls(actions[k])
    ensures Run(EMPTY, actions).hist.lost == map[]
    decreases |actions|
  {
    if actions != [] {
      NothingLost(actions[..|actions| - 1]);
      OnlyCrashesLose(Run(EMPTY, actions[..|actions| - 1]), actions[|actions| - 1]);
    }
  }

  /** Without crashes and uncaught exceptions nothing is left behind: measured plus in flight. */
  lemma CrashFreeBytes(actions: seq<Action>, b: BatchId)
    requires forall k :: 0 <= k < |actions| ==> !LosesCalls(actions[k])
    requires b in Run(EMPTY, actions).db.batches
    ensures var s := Run(EMPTY, actions);
            s.db.batches[b].extracted == Tally(s.hist.measured, b) + InFlightTotal(s.workers, b)
  {
    NothingLost(actions);
    BytesRuns(actions, b);
  }

  /** Who a batch's counter goes up for: an admission, which leaves it within the envelope, or a finished
      walk that measured more than its estimate. */
  predicate MayRaise(s: State, a: Action, b: BatchId)
  {
    b in s.db.batches && a.ArchiveStep? && AtInstance(s, a.t) &&
    match s.workers[a.t].ipc
    case Admitting =>
      a.aa.Admit? && s.db.batches[b].status == Running && s.db.batches[b].maxExtracted.Some? &&
      s.db.batches[b].extracted + EstimateOf(s.db, s.workers[a.t].inst) <= s.db.batches[b].maxExtracted.value
    case Walked(charge, bytes) => a.aa.Reconcile? && charge.Some? && charge.value.batch == b && bytes > charge.value.amount
    case _ => false
  }

  /** Admission never lifts a counter past its envelope, and apart from admissions only a walk that
      turned out larger than declared lifts it at all. */
  lemma OnlyThisRaises(s: State, a: Action, b: BatchId)
    requires b in s.db.batches && b in Do(s, a).db.batches && Do(s, a).db.batches[b].extracted > s.db.batches[b].extracted
    ensures MayRaise(s, a, b)
    ensures a.ArchiveStep? && a.aa.Admit? ==> Do(s, a).db.batches[b].extracted <= s.db.batches[b].maxExtracted.value
  {
    match a
    case Environment(env) =>
    case ArchiveStep(t, aa) => if AtInstance(s, t) && !Settles(aa) { ArchiveIsSame(s, t, aa); }
    case InstanceStep(t, ia) =>
    case _ => OthersAreSame(s, a);
  }
}
