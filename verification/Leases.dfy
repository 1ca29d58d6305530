/** What a lease protects: nobody else gets a claimed row before the lease is over, in any interleaving. */
module Leases {
  import opened Collections
  import opened Tables
  import opened Protocol
  import opened Pipeline
  import opened Evolution
  import opened Fencing

  // ----- groups -------------------------------------------------------------------------------------------

  /** The generation stays, and so does the claim unless it is given up. */
  predicate GroupKept(row: Group, row': Group)
  {
    row'.gen == row.gen && (row'.claim == row.claim || row'.claim.None?)
  }

  lemma EarlyStepKeepsClaims(s: State, t: Token, a: GroupAction, g: GroupId)
    requires AtGroup(s, t) && EarlyStep(a) && g in s.db.groups
    ensures g in DoGroup(s, t, a).db.groups && GroupKept(s.db.groups[g], DoGroup(s, t, a).db.groups[g])
  {}

  lemma LateStepKeepsClaims(s: State, t: Token, a: GroupAction, g: GroupId)
    requires AtGroup(s, t) && !EarlyStep(a) && g in s.db.groups
    ensures g in DoGroup(s, t, a).db.groups && GroupKept(s.db.groups[g], DoGroup(s, t, a).db.groups[g])
  {}

  /** Of all actions only a claim starts a new generation of a group, and only if the group is not claimed or
      its claim is older than the lease; the claim is then the caller's, from now on. */
  lemma OnlyClaimsTakeGroups(s: State, a: Action, g: GroupId)
    requires g in s.db.groups
    ensures g in Do(s, a).db.groups
    ensures var row, row' := s.db.groups[g], Do(s, a).db.groups[g];
            GroupKept(row, row') ||
            (a.ClaimGroup? && a.g == g && row'.gen == row.gen + 1 && row'.claim == Some(Claim(a.who, s.now)) &&
             (row.claim.Some? ==> row.claim.value.at + a.lease < s.now))
  {
    match a
    case Environment(env) =>
    case InstanceStep(t, ia) =>
    case ArchiveStep(t, aa) =>
    case GroupStep(t, ga) =>
      if AtGroup(s, t) {
        if EarlyStep(ga) { EarlyStepKeepsClaims(s, t, ga, g); } else { LateStepKeepsClaims(s, t, ga, g); }
      }
    case CheckStep(t, ca) =>
    case _ =>
  }

  lemma TimeGoesOn(s: State, a: Action)
    ensures s.now <= Do(s, a).now
  {
    match a
    case InstanceStep(t, ia) =>
    case ArchiveStep(t, aa) =>
    case GroupStep(t, ga) =>
    case CheckStep(t, ca) =>
    case _ =>
  }

  /** At some moment the claim on this generation of the group was given up. */
  ghost predicate GroupGivenUp(s: State, actions: seq<Action>, g: GroupId, gen: nat)
  {
    exists k :: 0 <= k <= |actions| && GroupFreeAt(Run(s, actions[..k]).db, g, gen)
  }

  predicate GroupFreeAt(db: Db, g: GroupId, gen: nat)
  {
    g in db.groups && db.groups[g].gen == gen && db.groups[g].claim.None?
  }

  /** Every claim of the run is made with at least this lease. */
  predicate LeasesAtLeast(actions: seq<Action>, lease: nat)
  {
    forall k :: 0 <= k < |actions| ==>
      (actions[k].ClaimGroup? ==> actions[k].lease >= lease) && (actions[k].SelectInstance? ==> actions[k].lease >= lease)
  }

  lemma GroupGivenUpStays(s: State, actions: seq<Action>, g: GroupId, gen: nat)
    requires actions != [] && GroupGivenUp(s, actions[..|actions| - 1], g, gen)
    ensures GroupGivenUp(s, actions, g, gen)
  {
    var before := actions[..|actions| - 1];
    var k :| 0 <= k <= |before| && GroupFreeAt(Run(s, before[..k]).db, g, gen);
    assert before[..k] == actions[..k];
  }

  lemma {:induction false} ClaimedThroughout(s: State, actions: seq<Action>, g: GroupId, lease: nat)
    requires g in s.db.groups && s.db.groups[g].claim.Some? && LeasesAtLeast(actions, lease)
    requires Run(s, actions).now <= s.db.groups[g].claim.value.at + lease
    ensures var db := Run(s, actions).db;
            GroupGivenUp(s, actions, g, s.db.groups[g].gen) ||
            (g in db.groups && db.groups[g].gen == s.db.groups[g].gen && db.groups[g].claim == s.db.groups[g].claim)
    decreases |actions|
  {
    if actions != [] {
      var n, gen := |actions| - 1, s.db.groups[g].gen;
      var mid := Run(s, actions[..n]);
      TimeGoesOn(mid, actions[n]);
      ClaimedThroughout(s, actions[..n], g, lease);
      if GroupGivenUp(s, actions[..n], g, gen) {
        GroupGivenUpStays(s, actions, g, gen);
      } else {
        OnlyClaimsTakeGroups(mid, actions[n], g);
        assert actions[..|actions|] == actions;
        if Run(s, actions).db.groups[g].claim.None? { assert GroupFreeAt(Run(s, actions[..|actions|]).db, g, gen); }
      }
    }
  }

  /** In any interleaving whose claims ask for at least this lease, and for as long as the lease lasts, a
      claimed group stays at its holder's generation, unless the claim was given up in between. */
  lemma GroupLeaseHolds(s: State, actions: seq<Action>, g: GroupId, lease: nat)
    requires g in s.db.groups && s.db.groups[g].claim.Some? && LeasesAtLeast(actions, lease)
    requires Run(s, actions).now <= s.db.groups[g].claim.value.at + lease
    ensures GroupGivenUp(s, actions, g, s.db.groups[g].gen) ||
            (g in Run(s, actions).db.groups && Run(s, actions).db.groups[g].gen == s.db.groups[g].gen &&
             Run(s, actions).db.groups[g].claim == s.db.groups[g].claim)
  {
    ClaimedThroughout(s, actions, g, lease);
  }

  // ----- instances -----------------------------------------------------------------------------------------

  predicate InstanceKept(row: Instance, row': Instance)
  {
    row'.gen == row.gen && row'.lock.None? && (row'.claim == row.claim || row'.claim.None?)
  }

  lemma InstanceStepKeepsClaims(s: State, t: Token, a: InstanceAction, i: InstanceId)
    requires AtInstance(s, t) && i in s.db.instances && s.db.instances[i].lock.None?
    ensures i in DoInstance(s, t, a).db.instances && InstanceKept(s.db.instances[i], DoInstance(s, t, a).db.instances[i])
  {}

  lemma ArchiveStepKeepsClaims(s: State, t: Token, a: ArchiveAction, i: InstanceId)
    requires AtInstance(s, t) && i in s.db.instances && s.db.instances[i].lock.None?
    ensures i in DoArchive(s, t, a).db.instances && InstanceKept(s.db.instances[i], DoArchive(s, t, a).db.instances[i])
  {}

  lemma GrantKeepsUnlocked(s: State, t: Token, i: InstanceId)
    requires InstanceInv(s) && i in s.db.instances && s.db.instances[i].lock.None?
    ensures DoGrantSelected(s, t).db.instances.Keys == s.db.instances.Keys
    ensures DoGrantSelected(s, t).db.instances[i] == s.db.instances[i]
  {
    if t in s.workers && s.workers[t].Selecting? { assert SelectingOk(s.db, t, s.workers[t]); }
  }

  lemma EnvironmentKeepsClaims(s: State, a: EnvironmentAction, i: InstanceId)
    requires i in s.db.instances && s.db.instances[i].lock.None?
    ensures i in DoEnvironment(s, a).db.instances && InstanceKept(s.db.instances[i], DoEnvironment(s, a).db.instances[i])
  {}

  /** Of all actions only a candidate SELECT can start to take an instance that no transaction has locked, and
      only if it is not claimed or its claim is older than the lease. */
  lemma OnlySelectsTakeInstances(s: State, a: Action, i: InstanceId)
    requires InstanceInv(s) && i in s.db.instances && s.db.instances[i].lock.None?
    ensures i in Do(s, a).db.instances
    ensures InstanceKept(s.db.instances[i], Do(s, a).db.instances[i]) ||
            (a.SelectInstance? && a.i == i && Do(s, a).db.instances[i].gen == s.db.instances[i].gen &&
             (s.db.instances[i].claim.Some? ==> s.db.instances[i].claim.value.at + a.lease < s.now))
  {
    match a
    case Environment(env) => EnvironmentKeepsClaims(s, env, i);
    case GrantSelected(t) => GrantKeepsUnlocked(s, t, i);
    case InstanceStep(t, ia) => if AtInstance(s, t) { InstanceStepKeepsClaims(s, t, ia, i); }
    case ArchiveStep(t, aa) => if AtInstance(s, t) { ArchiveStepKeepsClaims(s, t, aa, i); }
    case SelectInstance(_, _, _, _, _, _) =>
    case _ => OthersKeepRows(s, a);
  }

  /** The grant after a SELECT starts a new generation only of the row that was selected, and only if that row
      is not claimed or its claim was older than the lease at the SELECT. */
  lemma GrantTakesExpired(s: State, t: Token, i: InstanceId)
    requires i in s.db.instances
    ensures i in DoGrantSelected(s, t).db.instances
    ensures var row, row' := s.db.instances[i], DoGrantSelected(s, t).db.instances[i];
            row'.gen != row.gen ==>
              t in s.workers && s.workers[t].Selecting? && s.workers[t].inst == i && row'.gen == row.gen + 1 &&
              row'.claim == Some(Claim(s.workers[t].who, s.now)) &&
              (row.claim.Some? ==> row.claim.value.at < s.workers[t].staleBefore)
  {}

  /** The time from which claims count as expired for a grant is that of its SELECT less the lease. */
  lemma SelectMeasuresLease(s: State, t: Token, i: InstanceId, who: WorkerId, queue: Queue, run: Option<RunId>, lease: nat)
    requires t !in s.workers
    ensures var s' := Do(s, SelectInstance(t, i, who, queue, run, lease));
            t in s'.workers ==> s'.workers[t] == Selecting(i, who, queue, run, s.now - lease)
  {}

  ghost predicate InstanceGivenUp(s: State, actions: seq<Action>, i: InstanceId, gen: nat)
  {
    exists k :: 0 <= k <= |actions| && InstanceFreeAt(Run(s, actions[..k]).db, i, gen)
  }

  predicate InstanceFreeAt(db: Db, i: InstanceId, gen: nat)
  {
    i in db.instances && db.instances[i].gen == gen && db.instances[i].claim.None?
  }

  lemma InstanceGivenUpStays(s: State, actions: seq<Action>, i: InstanceId, gen: nat)
    requires actions != [] && InstanceGivenUp(s, actions[..|actions| - 1], i, gen)
    ensures InstanceGivenUp(s, actions, i, gen)
  {
    var before := actions[..|actions| - 1];
    var k :| 0 <= k <= |before| && InstanceFreeAt(Run(s, before[..k]).db, i, gen);
    assert before[..k] == actions[..k];
  }

  lemma {:induction false} HeldThroughout(s: State, actions: seq<Action>, i: InstanceId, lease: nat)
    requires InstanceInv(s) && LeasesAtLeast(actions, lease)
    requires i in s.db.instances && s.db.instances[i].claim.Some? && s.db.instances[i].lock.None?
    requires Run(s, actions).now <= s.db.instances[i].claim.value.at + lease
    ensures var db := Run(s, actions).db;
            InstanceGivenUp(s, actions, i, s.db.instances[i].gen) ||
            (i in db.instances && InstanceKept(s.db.instances[i], db.instances[i]) && db.instances[i].claim == s.db.instances[i].claim)
    decreases |actions|
  {
    if actions != [] {
      var n, gen := |actions| - 1, s.db.instances[i].gen;
      var mid := Run(s, actions[..n]);
      TimeGoesOn(mid, actions[n]);
      HeldThroughout(s, actions[..n], i, lease);
      if InstanceGivenUp(s, actions[..n], i, gen) {
        InstanceGivenUpStays(s, actions, i, gen);
      } else {
        InstanceInvRuns(s, actions[..n]);
        OnlySelectsTakeInstances(mid, actions[n], i);
        assert actions[..|actions|] == actions;
        if Run(s, actions).db.instances[i].claim.None? { assert InstanceFreeAt(Run(s, actions[..|actions|]).db, i, gen); }
      }
    }
  }

  /** The same for instances, from any reachable moment at which no transaction has the row locked. */
  lemma InstanceLeaseHolds(s: State, actions: seq<Action>, i: InstanceId, lease: nat)
    requires Reachable(s) && LeasesAtLeast(actions, lease)
    requires i in s.db.instances && s.db.instances[i].claim.Some? && s.db.instances[i].lock.None?
    requires Run(s, actions).now <= s.db.instances[i].claim.value.at + lease
    ensures InstanceGivenUp(s, actions, i, s.db.instances[i].gen) ||
            (i in Run(s, actions).db.instances && Run(s, actions).db.instances[i].gen == s.db.instances[i].gen &&
             Run(s, actions).db.instances[i].claim == s.db.instances[i].claim)
  {
    InstanceInvReachable(s);
    HeldThroughout(s, actions, i, lease);
  }
}
