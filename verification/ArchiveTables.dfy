/** The recursive archive walk on the tables themselves: what its commits do to the instance and group rows,
    and that this is the walk of `ArchiveWalk`. */
module ArchiveTables {
  import opened Collections
  import opened Tables
  import opened Protocol
  import W = ArchiveWalk

  /** The rows of a root's members: `id` is the row that the run, the root's path and a member path stand for;
      `pick` is what a member's row is created with, `pieces` the length of a content's text. */
  datatype Naming = Naming(id: W.Path -> InstanceId, pick: W.Path -> Pick, pieces: GroupId -> nat)

  /** The walk of one archive: what the extractor finds, and how deep it may go. */
  datatype Extraction = Extraction(tree: W.Archive, maxDepth: nat, names: Naming)

  function WalkOf(x: Extraction): W.Walk
  {
    W.WalkOf(x.tree, [], 0, x.maxDepth)
  }

  /** One commit of a walk over the root `i`: each looks before it writes. */
  function Committed(db: Db, i: InstanceId, commit: ArchiveAction): Db
  {
    match commit
    case CreateMember(m, pick) =>
      if m in db.instances || i !in db.instances then db
      else db.(instances := db.instances[m := NewRoot(db.instances[i].run, pick).(member := true)])
    case IdentifyMember(g, initial, pieces, created) =>
      if Initial(initial) then GetOrCreateGroup(db, g, initial, pieces, created) else db
    case AssignMember(m, g) =>
      if m in db.instances && db.instances[m].member && g in db.groups then AssignIdentity(db, m, g) else db
    case _ => db
  }

  function ActionOf(names: Naming, op: W.Op): ArchiveAction
  {
    match op
    case CreateMember(p) => ArchiveAction.CreateMember(names.id(p), names.pick(p))
    case GetOrCreate(_, h, initial) => IdentifyMember(h, initial, names.pieces(h), 0)
    case Assign(p, h) => AssignMember(names.id(p), h)
  }

  predicate IsIdentified(db: Db, m: InstanceId)
  {
    m in db.instances && db.instances[m].group.Some?
  }

  /** One operation of the walk; the content of a member that is identified already is not looked at again. */
  function Performed(db: Db, i: InstanceId, names: Naming, op: W.Op): Db
  {
    if op.GetOrCreate? && IsIdentified(db, names.id(op.path)) then db else Committed(db, i, ActionOf(names, op))
  }

  function Performing(db: Db, i: InstanceId, names: Naming, ops: seq<W.Op>): Db
    decreases |ops|
  {
    if ops == [] then db else Performed(Performing(db, i, names, ops[..|ops| - 1]), i, names, ops[|ops| - 1])
  }

  lemma {:induction false} PerformAppend(db: Db, i: InstanceId, names: Naming, before: seq<W.Op>, after: seq<W.Op>)
    ensures Performing(db, i, names, before + after) == Performing(Performing(db, i, names, before), i, names, after)
    decreases |after|
  {
    if after == [] {
      assert before + after == before;
    } else {
      assert (before + after)[..|before + after| - 1] == before + after[..|after| - 1];
      PerformAppend(db, i, names, before, after[..|after| - 1]);
    }
  }

  lemma PerformOne(db: Db, i: InstanceId, names: Naming, op: W.Op)
    ensures Performing(db, i, names, [op]) == Performed(db, i, names, op)
  {
    assert [op][..0] == [];
  }

  // ----- the tables show the walk's own rows ---------------------------------------------------------------

  /** The member rows of the given paths and all groups, as the walk sees them. */
  function StoreOf(db: Db, names: Naming, paths: set<W.Path>): W.Store
  {
    W.Store(map p | p in paths && names.id(p) in db.instances :: db.instances[names.id(p)].group,
            map g | g in db.groups :: db.groups[g].state)
  }

  /** Different members have different rows, and these are nobody else's. */
  predicate RowsApart(db: Db, i: InstanceId, names: Naming, paths: set<W.Path>)
  {
    i in db.instances && i !in (set p | p in paths :: names.id(p)) &&
    (forall p, q :: p in paths && q in paths && p != q ==> names.id(p) != names.id(q)) &&
    (forall p :: p in paths && names.id(p) in db.instances ==> db.instances[names.id(p)].member)
  }

  /** An assignment follows the creation of its row and of its group. */
  predicate Proper(ops: seq<W.Op>, n: nat)
    requires n < |ops|
  {
    ops[n].Assign? ==>
      n > 1 && ops[n - 2] == W.CreateMember(ops[n].path) &&
      ops[n - 1].GetOrCreate? && ops[n - 1].path == ops[n].path && ops[n - 1].hash == ops[n].hash
  }

  predicate AllProper(ops: seq<W.Op>)
  {
    forall n :: 0 <= n < |ops| ==> Proper(ops, n)
  }

  lemma ProperAppend(a: seq<W.Op>, b: seq<W.Op>)
    requires AllProper(a) && AllProper(b)
    ensures AllProper(a + b)
  {
    forall n | 0 <= n < |a + b| ensures Proper(a + b, n) {
      if n < |a| { assert Proper(a, n); } else { assert Proper(b, n - |a|); }
    }
  }

  lemma {:induction false} WalksAreProper(a: W.Archive, prefix: W.Path, depth: nat, maxDepth: nat)
    ensures AllProper(W.WalkOf(a, prefix, depth, maxDepth).ops)
    decreases a
  {
    if a.Contents? { MembersAreProper(a.members, prefix, depth, maxDepth); }
  }

  lemma {:induction false} MembersAreProper(ms: W.Members, prefix: W.Path, depth: nat, maxDepth: nat)
    ensures AllProper(W.WalkMembers(ms, prefix, depth, maxDepth).ops)
    decreases ms
  {
    if ms.More? {
      MemberIsProper(ms.body, prefix + ms.path, depth, maxDepth);
      MembersAreProper(ms.rest, prefix, depth, maxDepth);
      ProperAppend(W.WalkMember(ms.body, prefix + ms.path, depth, maxDepth).ops, W.WalkMembers(ms.rest, prefix, depth, maxDepth).ops);
    }
  }

  lemma {:induction false} MemberIsProper(body: W.Body, full: W.Path, depth: nat, maxDepth: nat)
    ensures AllProper(W.WalkMember(body, full, depth, maxDepth).ops)
    decreases body
  {
    if body.Nested? {
      WalksAreProper(body.archive, full, depth + 1, maxDepth);
      ProperAppend([W.CreateMember(full)], W.WalkOf(body.archive, full, depth + 1, maxDepth).ops);
    }
  }

  lemma RowsStayApart(db: Db, i: InstanceId, names: Naming, paths: set<W.Path>, op: W.Op)
    requires RowsApart(db, i, names, paths) && op.path in paths
    ensures RowsApart(Performed(db, i, names, op), i, names, paths)
  {}

  /** The row is there, and its group too unless it has one already. */
  predicate Prepared(db: Db, names: Naming, op: W.Op)
  {
    op.Assign? ==> names.id(op.path) in db.instances && (IsIdentified(db, names.id(op.path)) || op.hash in db.groups)
  }

  /** Writing one member's row is writing that member. */
  lemma RowWritten(db: Db, db': Db, i: InstanceId, names: Naming, paths: set<W.Path>, p: W.Path, row: Instance)
    requires RowsApart(db, i, names, paths) && p in paths
    requires db'.instances == db.instances[names.id(p) := row] && db'.groups == db.groups
    ensures StoreOf(db', names, paths) == StoreOf(db, names, paths).(members := StoreOf(db, names, paths).members[p := row.group])
  {
    var before, after := StoreOf(db, names, paths), StoreOf(db', names, paths);
    assert after.members == before.members[p := row.group];
  }

  lemma GroupWritten(db: Db, db': Db, names: Naming, paths: set<W.Path>, h: GroupId, row: Group)
    requires db'.groups == db.groups[h := row] && db'.instances == db.instances
    ensures StoreOf(db', names, paths) == StoreOf(db, names, paths).(groups := StoreOf(db, names, paths).groups[h := row.state])
  {
    var before, after := StoreOf(db, names, paths), StoreOf(db', names, paths);
    assert after.groups == before.groups[h := row.state];
  }

  lemma PerformedShows(db: Db, i: InstanceId, names: Naming, paths: set<W.Path>, op: W.Op)
    requires RowsApart(db, i, names, paths) && op.path in paths && Prepared(db, names, op)
    ensures StoreOf(Performed(db, i, names, op), names, paths) == W.Apply(StoreOf(db, names, paths), op)
  {
    var db', m := Performed(db, i, names, op), names.id(op.path);
    match op
    case CreateMember(p) => if m !in db.instances { RowWritten(db, db', i, names, paths, p, db'.instances[m]); }
    case GetOrCreate(p, h, initial) =>
      if !IsIdentified(db, m) && h !in db.groups { GroupWritten(db, db', names, paths, h, db'.groups[h]); }
    case Assign(p, h) => if !IsIdentified(db, m) { RowWritten(db, db', i, names, paths, p, db'.instances[m]); }
  }

  /** Right before an assignment of a walk. */
  lemma AssignIsPrepared(db: Db, i: InstanceId, names: Naming, paths: set<W.Path>, ops: seq<W.Op>)
    requires RowsApart(db, i, names, paths) && ops != [] && Proper(ops, |ops| - 1)
    ensures Prepared(Performing(db, i, names, ops[..|ops| - 1]), names, ops[|ops| - 1])
  {
    var n := |ops| - 1;
    if ops[n].Assign? {
      var earlier := Performing(db, i, names, ops[..n - 2]);
      PerformKeepsRoot(db, i, names, ops[..n - 2]);
      assert ops[..n][..n - 1] == ops[..n - 1] && ops[..n - 1][..n - 2] == ops[..n - 2];
      var created := Performed(earlier, i, names, ops[n - 2]);
      assert Performing(db, i, names, ops[..n - 1]) == created && Performing(db, i, names, ops[..n]) == Performed(created, i, names, ops[n - 1]);
    }
  }

  lemma {:induction false} PerformKeepsRoot(db: Db, i: InstanceId, names: Naming, ops: seq<W.Op>)
    requires i in db.instances
    ensures i in Performing(db, i, names, ops).instances
    decreases |ops|
  {
    if ops != [] { PerformKeepsRoot(db, i, names, ops[..|ops| - 1]); }
  }

  lemma ApplyLast(s: W.Store, ops: seq<W.Op>)
    requires ops != []
    ensures W.ApplyAll(s, ops) == W.Apply(W.ApplyAll(s, ops[..|ops| - 1]), ops[|ops| - 1])
  {
    var n := |ops| - 1;
    assert ops == ops[..n] + [ops[n]];
    W.ApplyAppend(s, ops[..n], [ops[n]]);
    W.ApplyThree(W.ApplyAll(s, ops[..n]), ops[n], ops[n], ops[n]);
  }

  /** What the operations of a walk, or the first of them, do to the tables is what they do to the walk's own
      rows. */
  lemma {:induction false} WalkOnTables(db: Db, i: InstanceId, names: Naming, paths: set<W.Path>, ops: seq<W.Op>)
    requires RowsApart(db, i, names, paths) && AllProper(ops) && forall n :: 0 <= n < |ops| ==> ops[n].path in paths
    ensures StoreOf(Performing(db, i, names, ops), names, paths) == W.ApplyAll(StoreOf(db, names, paths), ops)
    ensures RowsApart(Performing(db, i, names, ops), i, names, paths)
    decreases |ops|
  {
    if ops != [] {
      var n := |ops| - 1;
      forall k | 0 <= k < n ensures Proper(ops[..n], k) { assert Proper(ops, k); }
      WalkOnTables(db, i, names, paths, ops[..n]);
      AssignIsPrepared(db, i, names, paths, ops);
      PerformedShows(Performing(db, i, names, ops[..n]), i, names, paths, ops[n]);
      RowsStayApart(Performing(db, i, names, ops[..n]), i, names, paths, ops[n]);
      ApplyLast(StoreOf(db, names, paths), ops);
    }
  }

  /** The member paths a walk writes. */
  function PathsOf(ops: seq<W.Op>): set<W.Path>
  {
    set n | 0 <= n < |ops| :: ops[n].path
  }

  /** The walk's own operations are those the two lemmas above are about. */
  lemma PartsAreProper(x: Extraction, k: nat)
    requires k <= |WalkOf(x).ops|
    ensures AllProper(WalkOf(x).ops[..k]) && forall n :: 0 <= n < k ==> WalkOf(x).ops[..k][n].path in PathsOf(WalkOf(x).ops)
  {
    var ops := WalkOf(x).ops;
    WalksAreProper(x.tree, [], 0, x.maxDepth);
    forall n | 0 <= n < k ensures Proper(ops[..k], n) && ops[..k][n].path in PathsOf(ops) {
      assert Proper(ops, n) && ops[n].path in PathsOf(ops);
    }
  }

  /** Any number of attempts, each of which dies after some number of commits. */
  function CrashedTables(db: Db, i: InstanceId, x: Extraction, crashes: seq<nat>): Db
    decreases |crashes|
  {
    if crashes == [] then db else
      var ops := WalkOf(x).ops;
      CrashedTables(Performing(db, i, x.names, ops[..Least(crashes[0], |ops|)]), i, x, crashes[1..])
  }

  lemma {:induction false} CrashesOnTables(db: Db, i: InstanceId, x: Extraction, crashes: seq<nat>)
    requires RowsApart(db, i, x.names, PathsOf(WalkOf(x).ops))
    ensures var ops, db' := WalkOf(x).ops, CrashedTables(db, i, x, crashes);
            RowsApart(db', i, x.names, PathsOf(ops)) &&
            StoreOf(db', x.names, PathsOf(ops)) == W.CrashedAttempts(StoreOf(db, x.names, PathsOf(ops)), ops, crashes)
    decreases |crashes|
  {
    if crashes != [] {
      var ops := WalkOf(x).ops;
      var k := Least(crashes[0], |ops|);
      PartsAreProper(x, k);
      WalkOnTables(db, i, x.names, PathsOf(ops), ops[..k]);
      CrashesOnTables(Performing(db, i, x.names, ops[..k]), i, x, crashes[1..]);
    }
  }

  /** However often the walk was cut off on these tables before, one full walk leaves the rows that one
      uninterrupted walk would have left. */
  lemma ResumeOnTables(db: Db, i: InstanceId, x: Extraction, crashes: seq<nat>)
    requires RowsApart(db, i, x.names, PathsOf(WalkOf(x).ops))
    ensures var ops := WalkOf(x).ops;
            StoreOf(Performing(CrashedTables(db, i, x, crashes), i, x.names, ops), x.names, PathsOf(ops)) ==
            StoreOf(Performing(db, i, x.names, ops), x.names, PathsOf(ops))
  {
    var ops, paths := WalkOf(x).ops, PathsOf(WalkOf(x).ops);
    PartsAreProper(x, |ops|);
    assert ops[..|ops|] == ops;
    CrashesOnTables(db, i, x, crashes);
    WalkOnTables(CrashedTables(db, i, x, crashes), i, x.names, paths, ops);
    WalkOnTables(db, i, x.names, paths, ops);
    W.ResumeEqualsUninterrupted(StoreOf(db, x.names, paths), x.tree, x.maxDepth, crashes);
  }

  // ----- one finished walk --------------------------------------------------------------------------------

  /** Every row added is a member in the given run, and the rows that were there stay in theirs. */
  predicate JoinedRun(db: Db, db': Db, run: RunId)
  {
    (forall m :: m in db.instances ==> m in db'.instances && db'.instances[m].run == db.instances[m].run) &&
    (forall m :: m in db'.instances && m !in db.instances ==> db'.instances[m].member && db'.instances[m].run == run)
  }

  lemma OneJoinsTheRun(db: Db, i: InstanceId, names: Naming, op: W.Op)
    requires i in db.instances
    ensures JoinedRun(db, Performed(db, i, names, op), db.instances[i].run)
  {}

  lemma {:induction false} MembersJoinTheRun(db: Db, i: InstanceId, names: Naming, ops: seq<W.Op>)
    requires i in db.instances
    ensures JoinedRun(db, Performing(db, i, names, ops), db.instances[i].run)
    decreases |ops|
  {
    if ops != [] {
      MembersJoinTheRun(db, i, names, ops[..|ops| - 1]);
      OneJoinsTheRun(Performing(db, i, names, ops[..|ops| - 1]), i, names, ops[|ops| - 1]);
    }
  }

  /** A walk that returns, on tables that hold none of its rows yet, leaves one row for every member of the
      whole tree: of a file with the group of that file's own content, of an archive without any. */
  lemma TablesHoldTheTree(db: Db, i: InstanceId, x: Extraction)
    requires W.PrefixFree(x.tree) && WalkOf(x).result == W.Returned
    requires RowsApart(db, i, x.names, PathsOf(WalkOf(x).ops))
    requires forall p :: p in PathsOf(WalkOf(x).ops) ==> x.names.id(p) !in db.instances
    ensures var db' := Performing(db, i, x.names, WalkOf(x).ops);
            forall n :: 0 <= n < |W.Rows(x.tree, [])| ==>
              var m := x.names.id(W.Rows(x.tree, [])[n].0);
              m in db'.instances && db'.instances[m].member && db'.instances[m].group == W.Rows(x.tree, [])[n].1 &&
              db'.instances[m].run == db.instances[i].run
  {
    MembersJoinTheRun(db, i, x.names, WalkOf(x).ops);
    var ops, paths, rows := WalkOf(x).ops, PathsOf(WalkOf(x).ops), W.Rows(x.tree, []);
    var s, db' := StoreOf(db, x.names, paths), Performing(db, i, x.names, ops);
    WalksAreProper(x.tree, [], 0, x.maxDepth);
    forall n | 0 <= n < |ops| ensures ops[n].path in paths {}
    WalkOnTables(db, i, x.names, paths, ops);
    assert s.members == map[];
    W.WalkLeavesExactlyTheTree(s, x.tree, x.maxDepth);
    forall n | 0 <= n < |rows|
      ensures var m := x.names.id(rows[n].0);
              m in db'.instances && db'.instances[m].member && db'.instances[m].group == rows[n].1 &&
              db'.instances[m].run == db.instances[i].run
    {
      assert rows[n].0 in W.ApplyAll(s, ops).members;
      assert rows[n].0 in StoreOf(db', x.names, paths).members;
    }
  }
}
