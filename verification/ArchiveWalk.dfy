/** The recursive archive walk. It commits after every row it writes instead of once at the end, and
    claims to be safe against crashes because every one of those commits is idempotent. */
module ArchiveWalk {
  import opened Collections
  import opened Tables

  /** A relative path as its components; joining two paths with "/" is concatenation. */
  type Path = seq<string>

  datatype Archive = Unreadable | Contents(members: Members)
  datatype Members = End | More(path: Path, size: nat, body: Body, rest: Members)
  datatype Body = File(hash: GroupId, initial: InitialState) | Nested(archive: Archive)

  /** The rows of one root archive: the member rows by full member path, each with the group it
      resolves to, and the groups with the state they were created in. */
  datatype Store = Store(members: map<Path, Option<GroupId>>, groups: map<GroupId, PipelineState>)

  datatype Op =
    | CreateMember(path: Path)
    | GetOrCreate(path: Path, hash: GroupId, initial: InitialState)
    | Assign(path: Path, hash: GroupId)

  datatype Result = Returned | TooDeep | Broken

  predicate Assigned(s: Store, p: Path)
  {
    p in s.members && s.members[p].Some?
  }

  /** One committed operation of the walk: each looks before it writes. */
  function Apply(s: Store, op: Op): Store
  {
    match op
    case CreateMember(p) => if p in s.members then s else s.(members := s.members[p := None])
    case GetOrCreate(p, h, initial) =>
      if Assigned(s, p) || h in s.groups then s else s.(groups := s.groups[h := initial])
    case Assign(p, h) => if Assigned(s, p) then s else s.(members := s.members[p := Some(h)])
  }

  function ApplyAll(s: Store, ops: seq<Op>): Store
    decreases |ops|
  {
    if ops == [] then s else ApplyAll(Apply(s, ops[0]), ops[1..])
  }

  datatype Walk = Walk(ops: seq<Op>, result: Result, bytes: nat)

  function Sizes(ms: Members): nat
  {
    match ms
    case End => 0
    case More(_, size, _, rest) => size + Sizes(rest)
  }

  /** What an uninterrupted walk commits, in order, how it ends, and the bytes it has counted. */
  function WalkOf(a: Archive, prefix: Path, depth: nat, maxDepth: nat): Walk
    decreases a
  {
    if depth >= maxDepth then Walk([], TooDeep, 0)
    else if a.Unreadable? then Walk([], Broken, 0)
    else
      var w := WalkMembers(a.members, prefix, depth, maxDepth);
      w.(bytes := Sizes(a.members) + w.bytes)
  }

  function WalkMembers(ms: Members, prefix: Path, depth: nat, maxDepth: nat): Walk
    decreases ms
  {
    if ms.End? then Walk([], Returned, 0) else
      var first := WalkMember(ms.body, prefix + ms.path, depth, maxDepth);
      if first.result != Returned then first else
        var others := WalkMembers(ms.rest, prefix, depth, maxDepth);
        Walk(first.ops + others.ops, others.result, first.bytes + others.bytes)
  }

  function WalkMember(body: Body, full: Path, depth: nat, maxDepth: nat): Walk
    decreases body
  {
    match body
    case File(hash, initial) => Walk([CreateMember(full), GetOrCreate(full, hash, initial), Assign(full, hash)], Returned, 0)
    case Nested(archive) =>
      var inner := WalkOf(archive, full, depth + 1, maxDepth);
      inner.(ops := [CreateMember(full)] + inner.ops)
  }

  lemma {:induction false} ApplyAppend(s: Store, before: seq<Op>, after: seq<Op>)
    ensures ApplyAll(s, before + after) == ApplyAll(ApplyAll(s, before), after)
    decreases |before|
  {
    if before == [] {
      assert before + after == after;
    } else {
      assert (before + after)[1..] == before[1..] + after;
      ApplyAppend(Apply(s, before[0]), before[1..], after);
    }
  }

  lemma ApplyThree(s: Store, a: Op, b: Op, c: Op)
    ensures ApplyAll(s, [a]) == Apply(s, a)
    ensures ApplyAll(s, [a, b]) == Apply(Apply(s, a), b)
    ensures ApplyAll(s, [a, b, c]) == Apply(Apply(Apply(s, a), b), c)
  {
    assert [a, b] == [a] + [b] && [a, b, c] == [a, b] + [c];
    ApplyAppend(s, [a], [b]);
    ApplyAppend(s, [a, b], [c]);
  }

  // ----- resuming ----------------------------------------------------------------------------------

  /** Rows and groups are only ever added, and an assignment is never changed. */
  predicate Extends(s: Store, s': Store)
  {
    (forall p :: p in s.members ==> p in s'.members && (s.members[p].Some? ==> s'.members[p] == s.members[p])) &&
    (forall h :: h in s.groups ==> h in s'.groups && s'.groups[h] == s.groups[h])
  }

  lemma {:induction false} WalkExtends(s: Store, ops: seq<Op>)
    ensures Extends(s, ApplyAll(s, ops))
    decreases |ops|
  {
    if ops != [] { WalkExtends(Apply(s, ops[0]), ops[1..]); }
  }

  /** The operation has nothing left to do. */
  predicate Done(s: Store, op: Op)
  {
    match op
    case CreateMember(p) => p in s.members
    case GetOrCreate(p, h, _) => Assigned(s, p) || h in s.groups
    case Assign(p, _) => Assigned(s, p)
  }

  lemma {:induction false} AllDone(s: Store, ops: seq<Op>)
    ensures forall k :: 0 <= k < |ops| ==> Done(ApplyAll(s, ops), ops[k])
    decreases |ops|
  {
    if ops != [] {
      AllDone(Apply(s, ops[0]), ops[1..]);
      WalkExtends(Apply(s, ops[0]), ops[1..]);
      forall k | 0 <= k < |ops| ensures Done(ApplyAll(s, ops), ops[k]) {
        if k > 0 { assert ops[k] == ops[1..][k - 1]; }
      }
    }
  }

  lemma {:induction false} DoneChangesNothing(s: Store, ops: seq<Op>)
    requires forall k :: 0 <= k < |ops| ==> Done(s, ops[k])
    ensures ApplyAll(s, ops) == s
    decreases |ops|
  {
    if ops != [] {
      assert Done(s, ops[0]);
      DoneChangesNothing(s, ops[1..]);
    }
  }

  /** Walking again after a crash anywhere gives the store of one uninterrupted walk. */
  lemma ResumeOnce(s: Store, ops: seq<Op>, n: nat)
    requires n <= |ops|
    ensures ApplyAll(ApplyAll(s, ops[..n]), ops) == ApplyAll(s, ops)
  {
    var crashed := ApplyAll(s, ops[..n]);
    assert ops == ops[..n] + ops[n..];
    AllDone(s, ops[..n]);
    DoneChangesNothing(crashed, ops[..n]);
    ApplyAppend(crashed, ops[..n], ops[n..]);
    ApplyAppend(s, ops[..n], ops[n..]);
  }

  /** Any number of attempts, each of which dies after some number of commits. */
  function CrashedAttempts(s: Store, ops: seq<Op>, crashes: seq<nat>): Store
    decreases |crashes|
  {
    if crashes == [] then s
    else CrashedAttempts(ApplyAll(s, ops[..Least(crashes[0], |ops|)]), ops, crashes[1..])
  }

  /** Crash safety of the walk, for every archive tree, every earlier content of the tables and every
      sequence of crashed attempts: one full walk afterwards leaves exactly what one uninterrupted walk
      would have left, whether that walk returns or raises. */
  lemma {:induction false} ResumeEqualsUninterrupted(s: Store, a: Archive, maxDepth: nat, crashes: seq<nat>)
    ensures var ops := WalkOf(a, [], 0, maxDepth).ops;
            ApplyAll(CrashedAttempts(s, ops, crashes), ops) == ApplyAll(s, ops)
    decreases |crashes|
  {
    if crashes != [] {
      var ops := WalkOf(a, [], 0, maxDepth).ops;
      var n := Least(crashes[0], |ops|);
      ResumeEqualsUninterrupted(ApplyAll(s, ops[..n]), a, maxDepth, crashes[1..]);
      ResumeOnce(s, ops, n);
    }
  }

  // ----- when the walk succeeds ----------------------------------------------------------------------

  predicate Readable(a: Archive)
    decreases a
  {
    a.Contents? && ReadableMembers(a.members)
  }

  predicate ReadableMembers(ms: Members)
    decreases ms
  {
    ms.More? ==> (ms.body.Nested? ==> Readable(ms.body.archive)) && ReadableMembers(ms.rest)
  }

  /** How deeply archives are nested: 1 for an archive that holds no other. */
  function Nesting(a: Archive): nat
    decreases a
  {
    if a.Unreadable? then 1 else 1 + NestingIn(a.members)
  }

  function NestingIn(ms: Members): nat
    decreases ms
  {
    if ms.End? then 0 else
      var first := if ms.body.Nested? then Nesting(ms.body.archive) else 0;
      var others := NestingIn(ms.rest);
      if first < others then others else first
  }

  function TreeBytes(a: Archive): nat
    decreases a
  {
    if a.Unreadable? then 0 else BytesIn(a.members)
  }

  function BytesIn(ms: Members): nat
    decreases ms
  {
    if ms.End? then 0
    else ms.size + (if ms.body.Nested? then TreeBytes(ms.body.archive) else 0) + BytesIn(ms.rest)
  }

  /** The walk returns exactly when every archive in the tree can be read and nesting stays within the
      limit, and then it has counted the bytes of the whole tree. The outcome depends on the tree and
      the limit alone, never on the tables, so a walk that was too deep is too deep on every retry. */
  lemma {:induction false} WalkSucceedsExactly(a: Archive, prefix: Path, depth: nat, maxDepth: nat)
    ensures WalkOf(a, prefix, depth, maxDepth).result == Returned <==> Readable(a) && depth + Nesting(a) <= maxDepth
    ensures WalkOf(a, prefix, depth, maxDepth).result == Returned ==> WalkOf(a, prefix, depth, maxDepth).bytes == TreeBytes(a)
    ensures Readable(a) && depth + Nesting(a) > maxDepth ==> WalkOf(a, prefix, depth, maxDepth).result == TooDeep
    decreases a
  {
    if a.Contents? { MembersSucceedExactly(a.members, prefix, depth, maxDepth); }
  }

  lemma {:induction false} MembersSucceedExactly(ms: Members, prefix: Path, depth: nat, maxDepth: nat)
    ensures depth < maxDepth ==>
              (WalkMembers(ms, prefix, depth, maxDepth).result == Returned <==>
                 ReadableMembers(ms) && depth + 1 + NestingIn(ms) <= maxDepth)
    ensures WalkMembers(ms, prefix, depth, maxDepth).result == Returned ==>
              Sizes(ms) + WalkMembers(ms, prefix, depth, maxDepth).bytes == BytesIn(ms)
    ensures depth < maxDepth && ReadableMembers(ms) && depth + 1 + NestingIn(ms) > maxDepth ==>
              WalkMembers(ms, prefix, depth, maxDepth).result == TooDeep
    decreases ms
  {
    if ms.More? {
      if ms.body.Nested? { WalkSucceedsExactly(ms.body.archive, prefix + ms.path, depth + 1, maxDepth); }
      MembersSucceedExactly(ms.rest, prefix, depth, maxDepth);
    }
  }

  // ----- no two members share a row ------------------------------------------------------------------

  /** `q` is `p` or lies below it. */
  predicate Under(p: Path, q: Path)
  {
    |p| <= |q| && q[..|p|] == p
  }

  /** The files one extraction writes: no path is empty, equal to another, or inside another. */
  predicate PrefixFree(a: Archive)
    decreases a
  {
    a.Contents? ==> PrefixFreeMembers(a.members)
  }

  predicate PrefixFreeMembers(ms: Members)
    decreases ms
  {
    ms.More? ==>
      |ms.path| > 0 && Apart(ms.path, ms.rest) && (ms.body.Nested? ==> PrefixFree(ms.body.archive)) &&
      PrefixFreeMembers(ms.rest)
  }

  predicate Apart(p: Path, ms: Members)
    decreases ms
  {
    ms.More? ==> !Under(p, ms.path) && !Under(ms.path, p) && Apart(p, ms.rest)
  }

  /** The full paths of all member rows, with the content of those that are files. */
  function Rows(a: Archive, prefix: Path): seq<(Path, Option<GroupId>)>
    decreases a
  {
    if a.Unreadable? then [] else RowsIn(a.members, prefix)
  }

  function RowsIn(ms: Members, prefix: Path): seq<(Path, Option<GroupId>)>
    decreases ms
  {
    if ms.End? then [] else RowsOf(ms.body, prefix + ms.path) + RowsIn(ms.rest, prefix)
  }

  function RowsOf(body: Body, full: Path): seq<(Path, Option<GroupId>)>
    decreases body
  {
    match body
    case File(hash, _) => [(full, Some(hash))]
    case Nested(archive) => [(full, None)] + Rows(archive, full)
  }

  lemma {:induction false} RowsAreUnder(a: Archive, prefix: Path, row: (Path, Option<GroupId>))
    requires PrefixFree(a) && row in Rows(a, prefix)
    ensures Under(prefix, row.0) && |prefix| < |row.0|
    decreases a
  {
    RowsInAreUnder(a.members, prefix, row);
  }

  lemma {:induction false} RowsInAreUnder(ms: Members, prefix: Path, row: (Path, Option<GroupId>))
    requires PrefixFreeMembers(ms) && row in RowsIn(ms, prefix)
    ensures Under(prefix, row.0) && |prefix| < |row.0|
    decreases ms
  {
    if row in RowsOf(ms.body, prefix + ms.path) {
      RowOfIsUnder(ms.body, prefix + ms.path, row);
      assert row.0[..|prefix|] == row.0[..|prefix + ms.path|][..|prefix|];
    } else {
      RowsInAreUnder(ms.rest, prefix, row);
    }
  }

  lemma {:induction false} RowOfIsUnder(body: Body, full: Path, row: (Path, Option<GroupId>))
    requires (body.Nested? ==> PrefixFree(body.archive)) && row in RowsOf(body, full)
    ensures Under(full, row.0)
    decreases body
  {
    if body.Nested? && row in Rows(body.archive, full) { RowsAreUnder(body.archive, full, row); }
  }

  predicate DistinctPaths(rows: seq<(Path, Option<GroupId>)>)
  {
    forall i, j :: 0 <= i < j < |rows| ==> rows[i].0 != rows[j].0
  }

  /** Two rows below unrelated paths are different rows. */
  lemma ApartUnder(prefix: Path, p: Path, q: Path, x: Path)
    requires Under(prefix + p, x) && Under(prefix + q, x)
    ensures Under(p, q) || Under(q, p)
  {
    if |p| <= |q| {
      assert x[..|prefix + q|][|prefix|..|prefix| + |p|] == q[..|p|];
      assert x[..|prefix + p|][|prefix|..] == p;
    } else {
      assert x[..|prefix + p|][|prefix|..|prefix| + |q|] == p[..|q|];
      assert x[..|prefix + q|][|prefix|..] == q;
    }
  }

  lemma {:induction false} ApartFromRest(p: Path, prefix: Path, ms: Members, row: (Path, Option<GroupId>))
    requires Apart(p, ms) && PrefixFreeMembers(ms) && row in RowsIn(ms, prefix)
    ensures !Under(prefix + p, row.0)
    decreases ms
  {
    if row in RowsOf(ms.body, prefix + ms.path) {
      RowOfIsUnder(ms.body, prefix + ms.path, row);
      if Under(prefix + p, row.0) { ApartUnder(prefix, p, ms.path, row.0); }
    } else {
      ApartFromRest(p, prefix, ms.rest, row);
    }
  }

  lemma DistinctAppend(a: seq<(Path, Option<GroupId>)>, b: seq<(Path, Option<GroupId>)>)
    requires DistinctPaths(a) && DistinctPaths(b)
    requires forall i, j :: 0 <= i < |a| && 0 <= j < |b| ==> a[i].0 != b[j].0
    ensures DistinctPaths(a + b)
  {}

  /** Full member paths are distinct over the whole tree, however archives nest. */
  lemma {:induction false} MemberPathsDistinct(a: Archive, prefix: Path)
    requires PrefixFree(a)
    ensures DistinctPaths(Rows(a, prefix))
    decreases a
  {
    if a.Contents? { MembersDistinct(a.members, prefix); }
  }

  lemma {:induction false} MembersDistinct(ms: Members, prefix: Path)
    requires PrefixFreeMembers(ms)
    ensures DistinctPaths(RowsIn(ms, prefix))
    decreases ms
  {
    if ms.More? {
      var here, rest := RowsOf(ms.body, prefix + ms.path), RowsIn(ms.rest, prefix);
      MemberDistinct(ms.body, prefix + ms.path);
      MembersDistinct(ms.rest, prefix);
      forall i, j | 0 <= i < |here| && 0 <= j < |rest| ensures here[i].0 != rest[j].0 {
        RowOfIsUnder(ms.body, prefix + ms.path, here[i]);
        ApartFromRest(ms.path, prefix, ms.rest, rest[j]);
      }
      DistinctAppend(here, rest);
    }
  }

  lemma {:induction false} MemberDistinct(body: Body, full: Path)
    requires body.Nested? ==> PrefixFree(body.archive)
    ensures DistinctPaths(RowsOf(body, full))
    decreases body
  {
    if body.Nested? {
      MemberPathsDistinct(body.archive, full);
      var rows := Rows(body.archive, full);
      forall j | 0 <= j < |rows| ensures full != rows[j].0 { RowsAreUnder(body.archive, full, rows[j]); }
      DistinctAppend([(full, None)], rows);
    }
  }

  // ----- what a finished walk leaves -------------------------------------------------------------------

  function Write(m: map<Path, Option<GroupId>>, row: (Path, Option<GroupId>)): map<Path, Option<GroupId>>
  {
    if row.0 in m && (m[row.0].Some? || row.1.None?) then m else m[row.0 := row.1]
  }

  function WriteAll(m: map<Path, Option<GroupId>>, rows: seq<(Path, Option<GroupId>)>): map<Path, Option<GroupId>>
    decreases |rows|
  {
    if rows == [] then m else WriteAll(Write(m, rows[0]), rows[1..])
  }

  lemma {:induction false} WriteAppend(m: map<Path, Option<GroupId>>, a: seq<(Path, Option<GroupId>)>, b: seq<(Path,
                                       Option<GroupId>)>)
    ensures WriteAll(m, a + b) == WriteAll(WriteAll(m, a), b)
    decreases |a|
  {
    if a == [] {
      assert a + b == b;
    } else {
      assert (a + b)[1..] == a[1..] + b;
      WriteAppend(Write(m, a[0]), a[1..], b);
    }
  }

  lemma {:induction false} WalkWritesRows(s: Store, a: Archive, prefix: Path, depth: nat, maxDepth: nat)
    requires WalkOf(a, prefix, depth, maxDepth).result == Returned
    ensures ApplyAll(s, WalkOf(a, prefix, depth, maxDepth).ops).members == WriteAll(s.members, Rows(a, prefix))
    decreases a
  {
    MembersWriteRows(s, a.members, prefix, depth, maxDepth);
  }

  lemma {:induction false} MembersWriteRows(s: Store, ms: Members, prefix: Path, depth: nat, maxDepth: nat)
    requires WalkMembers(ms, prefix, depth, maxDepth).result == Returned
    ensures ApplyAll(s, WalkMembers(ms, prefix, depth, maxDepth).ops).members == WriteAll(s.members, RowsIn(ms, prefix))
    decreases ms
  {
    if ms.More? {
      var first := WalkMember(ms.body, prefix + ms.path, depth, maxDepth);
      MemberWritesRows(s, ms.body, prefix + ms.path, depth, maxDepth);
      MembersWriteRows(ApplyAll(s, first.ops), ms.rest, prefix, depth, maxDepth);
      ApplyAppend(s, first.ops, WalkMembers(ms.rest, prefix, depth, maxDepth).ops);
      WriteAppend(s.members, RowsOf(ms.body, prefix + ms.path), RowsIn(ms.rest, prefix));
    }
  }

  lemma {:induction false} FileWritesRow(s: Store, full: Path, hash: GroupId, initial: InitialState)
    ensures ApplyAll(s, WalkMember(File(hash, initial), full, 0, 1).ops).members == WriteAll(s.members, [(full, Some(hash))])
  {
    ApplyThree(s, CreateMember(full), GetOrCreate(full, hash, initial), Assign(full, hash));
    assert [(full, Some(hash))][1..] == [];
  }

  lemma {:induction false} MemberWritesRows(s: Store, body: Body, full: Path, depth: nat, maxDepth: nat)
    requires WalkMember(body, full, depth, maxDepth).result == Returned
    ensures ApplyAll(s, WalkMember(body, full, depth, maxDepth).ops).members == WriteAll(s.members, RowsOf(body, full))
    decreases body
  {
    match body
    case File(hash, initial) => FileWritesRow(s, full, hash, initial);
    case Nested(archive) =>
      var s' := Apply(s, CreateMember(full));
      WalkWritesRows(s', archive, full, depth + 1, maxDepth);
      var ops := [CreateMember(full)] + WalkOf(archive, full, depth + 1, maxDepth).ops;
      assert ops[1..] == WalkOf(archive, full, depth + 1, maxDepth).ops;
      assert ([(full, None)] + Rows(archive, full))[1..] == Rows(archive, full);
  }

  lemma {:induction false} WritesDistinct(m: map<Path, Option<GroupId>>, rows: seq<(Path, Option<GroupId>)>)
    requires DistinctPaths(rows) && forall i :: 0 <= i < |rows| ==> rows[i].0 !in m
    ensures forall p :: p in WriteAll(m, rows) <==> p in m || exists i :: 0 <= i < |rows| && rows[i].0 == p
    ensures forall p :: p in m ==> WriteAll(m, rows)[p] == m[p]
    ensures forall i :: 0 <= i < |rows| ==> WriteAll(m, rows)[rows[i].0] == rows[i].1
    decreases |rows|
  {
    if rows != [] {
      var m' := Write(m, rows[0]);
      assert forall i :: 0 <= i < |rows[1..]| ==> rows[1..][i] == rows[i + 1];
      WritesDistinct(m', rows[1..]);
      forall p ensures p in WriteAll(m, rows) <==> p in m || exists i :: 0 <= i < |rows| && rows[i].0 == p {
        if i :| 0 <= i < |rows| && rows[i].0 == p {
          if i > 0 { assert rows[1..][i - 1].0 == p; }
        }
      }
      forall i | 0 <= i < |rows| ensures WriteAll(m, rows)[rows[i].0] == rows[i].1 {
        if i > 0 { assert rows[1..][i - 1] == rows[i]; }
      }
    }
  }

  /** A walk that returns adds exactly one row per member of the whole tree, gives every file row the
      group of that file's own content and no archive row any group, and touches no other row. */
  lemma WalkLeavesExactlyTheTree(s: Store, a: Archive, maxDepth: nat)
    requires PrefixFree(a) && WalkOf(a, [], 0, maxDepth).result == Returned
    requires forall i :: 0 <= i < |Rows(a, [])| ==> Rows(a, [])[i].0 !in s.members
    ensures var end := ApplyAll(s, WalkOf(a, [], 0, maxDepth).ops);
            (forall p :: p in end.members <==> p in s.members || exists i :: 0 <= i < |Rows(a, [])| && Rows(a, [])[i].0 == p) &&
            (forall p :: p in s.members ==> end.members[p] == s.members[p]) &&
            (forall i :: 0 <= i < |Rows(a, [])| ==> end.members[Rows(a, [])[i].0] == Rows(a, [])[i].1)
  {
    WalkWritesRows(s, a, [], 0, maxDepth);
    MemberPathsDistinct(a, []);
    WritesDistinct(s.members, Rows(a, []));
  }

  // ----- the walk as the service runs it -----------------------------------------------------------------

  /** What is committed when the process dies, or a member raises, after `k` operations of that member. */
  lemma PartOfMembers(s: Store, done: seq<Op>, ms: Members, prefix: Path, depth: nat, maxDepth: nat, k: nat)
    requires ms.More? && k <= |WalkMember(ms.body, prefix + ms.path, depth, maxDepth).ops|
    ensures var first := WalkMember(ms.body, prefix + ms.path, depth, maxDepth);
            var all := done + WalkMembers(ms, prefix, depth, maxDepth).ops;
            |done| + |first.ops| <= |all| && (first.result != Returned ==> |all| == |done| + |first.ops|) &&
            ApplyAll(ApplyAll(s, done), first.ops[..k]) == ApplyAll(s, all[..|done| + k])
    ensures var first := WalkMember(ms.body, prefix + ms.path, depth, maxDepth);
            k == |first.ops| ==> ApplyAll(ApplyAll(s, done), first.ops[..k]) == ApplyAll(s, done + first.ops)
  {
    var first := WalkMember(ms.body, prefix + ms.path, depth, maxDepth);
    var all := done + WalkMembers(ms, prefix, depth, maxDepth).ops;
    ApplyAppend(s, done, first.ops[..k]);
    assert all[..|done| + k] == done + first.ops[..k];
    if k == |first.ops| { assert first.ops[..k] == first.ops; }
  }

  /** The loop has walked `done` and has `rest` left to walk. */
  ghost predicate WalkedTo(all: Walk, done: seq<Op>, counted: nat, rest: Walk)
  {
    all == Walk(done + rest.ops, rest.result, counted + rest.bytes)
  }

  lemma NextMember(all: Walk, done: seq<Op>, counted: nat, ms: Members, prefix: Path, depth: nat, maxDepth: nat)
    requires ms.More? && WalkedTo(all, done, counted, WalkMembers(ms, prefix, depth, maxDepth))
    requires WalkMember(ms.body, prefix + ms.path, depth, maxDepth).result == Returned
    ensures var first := WalkMember(ms.body, prefix + ms.path, depth, maxDepth);
            WalkedTo(all, done + first.ops, counted + first.bytes, WalkMembers(ms.rest, prefix, depth, maxDepth))
  {
    var first, others := WalkMember(ms.body, prefix + ms.path, depth, maxDepth), WalkMembers(ms.rest, prefix, depth, maxDepth);
    assert done + (first.ops + others.ops) == done + first.ops + others.ops;
  }

  /** The operations of `w`, or as many of them as the process lives for. */
  ghost predicate RanFor(before: Store, after: Store, life: nat, left: nat, w: Walk, finished: Option<Result>)
  {
    var k := Least(life, |w.ops|);
    after == ApplyAll(before, w.ops[..k]) && left == life - k && (finished.None? <==> life < |w.ops|) &&
    (finished.Some? ==> finished.value == w.result)
  }

  /** One more member: the loop goes on if it was walked to its end, and has run for as long as it could if
      not. */
  lemma MemberRan(start: Store, before: Store, after: Store, life: nat, left: nat, now: nat, all: Walk, done: seq<Op>,
                  counted: nat, ms: Members, prefix: Path, depth: nat, maxDepth: nat, finished: Option<Result>)
    requires ms.More? && WalkedTo(all, done, counted, WalkMembers(ms, prefix, depth, maxDepth))
    requires before == ApplyAll(start, done) && life == now + |done|
    requires RanFor(before, after, now, left, WalkMember(ms.body, prefix + ms.path, depth, maxDepth), finished)
    ensures var first := WalkMember(ms.body, prefix + ms.path, depth, maxDepth);
            if finished == Some(Returned)
            then WalkedTo(all, done + first.ops, counted + first.bytes, WalkMembers(ms.rest, prefix, depth, maxDepth)) &&
                 after == ApplyAll(start, done + first.ops) && life == left + |done + first.ops|
            else RanFor(start, after, life, left, all, finished)
  {
    var first := WalkMember(ms.body, prefix + ms.path, depth, maxDepth);
    PartOfMembers(start, done, ms, prefix, depth, maxDepth, Least(now, |first.ops|));
    if finished == Some(Returned) { NextMember(all, done, counted, ms, prefix, depth, maxDepth); }
  }

  /** `life` is how many more operations the process gets to commit before it dies. */
  class ArchiveExtraction {
    var store: Store
    var totalBytes: nat
    var life: nat

    constructor (store: Store, life: nat)
      ensures this.store == store && totalBytes == 0 && this.life == life
    {
      this.store := store;
      totalBytes := 0;
      this.life := life;
    }

    ghost predicate Ran(before: Store, lifeBefore: nat, w: Walk, finished: Option<Result>)
      reads this
    {
      RanFor(before, store, lifeBefore, life, w, finished)
    }

    method Commit(op: Op) returns (alive: bool)
      modifies this
      ensures alive == (old(life) > 0)
      ensures alive ==> store == Apply(old(store), op) && life == old(life) - 1
      ensures !alive ==> store == old(store) && life == old(life)
      ensures totalBytes == old(totalBytes)
    {
      if life == 0 { return false; }
      life := life - 1;
      match op {
        case CreateMember(p) =>
          if p !in store.members { store := store.(members := store.members[p := None]); }
        case GetOrCreate(p, h, initial) =>
          if (p !in store.members || store.members[p].None?) && h !in store.groups {
            store := store.(groups := store.groups[h := initial]);
          }
        case Assign(p, h) =>
          if p !in store.members || store.members[p].None? { store := store.(members := store.members[p := Some(h)]); }
      }
      return true;
    }

    /** `_extract_recursive`; no result means the process died. */
    method ExtractRecursive(a: Archive, prefix: Path, depth: nat, maxDepth: nat) returns (finished: Option<Result>)
      modifies this
      ensures Ran(old(store), old(life), WalkOf(a, prefix, depth, maxDepth), finished)
      ensures finished == Some(Returned) ==> totalBytes == old(totalBytes) + WalkOf(a, prefix, depth, maxDepth).bytes
      decreases a, 2
    {
      if depth >= maxDepth { return Some(TooDeep); }
      if a.Unreadable? { return Some(Broken); }
      totalBytes := totalBytes + Sizes(a.members);
      finished := ProcessMembers(a.members, prefix, depth, maxDepth);
    }

    method ProcessMembers(ms: Members, prefix: Path, depth: nat, maxDepth: nat) returns (finished: Option<Result>)
      modifies this
      ensures Ran(old(store), old(life), WalkMembers(ms, prefix, depth, maxDepth), finished)
      ensures finished == Some(Returned) ==> totalBytes == old(totalBytes) + WalkMembers(ms, prefix, depth, maxDepth).bytes
      decreases ms, 1
    {
      var rest := ms;
      ghost var done: seq<Op>, counted: nat := [], 0;
      ghost var all, start, lived := WalkMembers(ms, prefix, depth, maxDepth), store, life;
      while rest.More?
        invariant rest == ms || rest < ms
        invariant WalkedTo(all, done, counted, WalkMembers(rest, prefix, depth, maxDepth))
        invariant store == ApplyAll(start, done) && lived == life + |done|
        invariant totalBytes == old(totalBytes) + counted
        decreases rest
      {
        ghost var before, now := store, life;
        finished := ProcessMember(rest.body, prefix + rest.path, depth, maxDepth);
        MemberRan(start, before, store, lived, life, now, all, done, counted, rest, prefix, depth, maxDepth, finished);
        if finished != Some(Returned) { return; }
        ghost var first := WalkMember(rest.body, prefix + rest.path, depth, maxDepth);
        done, counted := done + first.ops, counted + first.bytes;
        rest := rest.rest;
      }
      assert all.ops[..|all.ops|] == done;
      return Some(Returned);
    }

    /** One turn of the loop over the members. */
    method ProcessMember(body: Body, full: Path, depth: nat, maxDepth: nat) returns (finished: Option<Result>)
      modifies this
      ensures Ran(old(store), old(life), WalkMember(body, full, depth, maxDepth), finished)
      ensures finished == Some(Returned) ==> totalBytes == old(totalBytes) + WalkMember(body, full, depth, maxDepth).bytes
      decreases body, 0
    {
      ghost var ops := WalkMember(body, full, depth, maxDepth).ops;
      var alive := Commit(CreateMember(full));
      if !alive { return None; }
      assert ops[0] == CreateMember(full);
      match body {
        case Nested(archive) =>
          ghost var lived := life;
          finished := ExtractRecursive(archive, full, depth + 1, maxDepth);
          ghost var k := Least(lived, |ops| - 1);
          assert ops[1..] == WalkOf(archive, full, depth + 1, maxDepth).ops;
          assert ops[..k + 1][1..] == ops[1..][..k];
        case File(hash, initial) =>
          ApplyThree(old(store), ops[0], ops[1], ops[2]);
          assert ops[..1] == [ops[0]] && ops[..2] == [ops[0], ops[1]] && ops[..3] == [ops[0], ops[1], ops[2]];
          alive := Commit(GetOrCreate(full, hash, initial));
          if !alive { return None; }
          alive := Commit(Assign(full, hash));
          if !alive { return None; }
          return Some(Returned);
      }
    }
  }
}
