/** The removal plan: keep one copy of every content, then list whole folders and single files that
    hold only repeats. Counting is done by walking every file's ancestors. */
module RemovalPlan {
  import opened Collections

  /** A path as its components; the text "/a/b" is `["", "a", "b"]`, and the walk up stops at `[""]`. */
  type Path = p: seq<string> | |p| > 0 witness [""]

  type Sha = nat

  datatype Row = Row(path: Path, size: nat, sha: Sha)

  /** Cutting at the last "/"; a path without one stays as it is. */
  function Parent(d: Path): Path
  {
    if |d| >= 2 then d[..|d| - 1] else d
  }

  /** `p` starts with `d` and a "/". */
  predicate Below(d: Path, p: Path)
  {
    |d| < |p| && p[..|d|] == d
  }

  predicate DistinctPaths(rows: seq<Row>)
  {
    forall i, j :: 0 <= i < j < |rows| ==> rows[i].path != rows[j].path
  }

  /** No hashed file is at the same time a folder holding another. */
  predicate FilesOnly(rows: seq<Row>)
  {
    forall i, j :: 0 <= i < |rows| && 0 <= j < |rows| ==> !Below(rows[i].path, rows[j].path)
  }

  // ----- one copy to keep ---------------------------------------------------------------------------

  predicate Copy(rows: seq<Row>, sha: Sha, p: Path)
  {
    exists i :: 0 <= i < |rows| && rows[i].path == p && rows[i].sha == sha
  }

  predicate Hashed(rows: seq<Row>, p: Path)
  {
    exists i :: 0 <= i < |rows| && rows[i].path == p
  }

  predicate SameContent(rows: seq<Row>, i: int, j: int)
  {
    0 <= i < |rows| && 0 <= j < |rows| && rows[i].sha == rows[j].sha
  }

  ghost predicate KeepsSome(rows: seq<Row>, keep: set<Path>, sha: Sha)
  {
    exists p :: p in keep && Copy(rows, sha, p)
  }

  ghost predicate KeepsNeeded(rows: seq<Row>, verified: set<Sha>, keep: set<Path>)
  {
    forall p :: p in keep ==> exists i :: 0 <= i < |rows| && rows[i].path == p && rows[i].sha !in verified
  }

  /** One copy of every content that no verified archive holds, and no copy of the others. */
  ghost predicate KeepsOneEach(rows: seq<Row>, verified: set<Sha>, keep: set<Path>)
  {
    KeepsNeeded(rows, verified, keep) &&
    (forall i :: 0 <= i < |rows| && rows[i].sha !in verified ==> KeepsSome(rows, keep, rows[i].sha)) &&
    (forall i, j :: SameContent(rows, i, j) && rows[i].path in keep && rows[j].path in keep ==> i == j)
  }

  /** The kept copy is the one that ranks first. */
  ghost predicate KeepsBest(rows: seq<Row>, keep: set<Path>, rank: Path -> nat)
  {
    forall i, j :: SameContent(rows, i, j) && rows[i].path in keep ==> rank(rows[i].path) <= rank(rows[j].path)
  }

  /** The best copies seen so far, by content. */
  ghost predicate BestSoFar(rows: seq<Row>, n: nat, verified: set<Sha>, best: map<Sha, Path>, rank: Path -> nat)
    requires n <= |rows|
  {
    (forall i :: 0 <= i < n && rows[i].sha !in verified ==> rows[i].sha in best && rank(best[rows[i].sha]) <= rank(rows[i].path)) &&
    (forall sha :: sha in best ==> sha !in verified && exists i :: 0 <= i < n && rows[i].path == best[sha] && rows[i].sha == sha)
  }

  method ChooseKeep(rows: seq<Row>, verified: set<Sha>, rank: Path -> nat) returns (keep: set<Path>)
    requires DistinctPaths(rows)
    ensures KeepsOneEach(rows, verified, keep) && KeepsBest(rows, keep, rank)
  {
    var best: map<Sha, Path> := map[];
    for i := 0 to |rows|
      invariant BestSoFar(rows, i, verified, best, rank)
    {
      var row := rows[i];
      if row.sha !in verified && (row.sha !in best || rank(row.path) < rank(best[row.sha])) {
        best := best[row.sha := row.path];
        assert rows[i].path == best[row.sha] && rows[i].sha == row.sha;
      }
    }
    keep := set sha | sha in best :: best[sha];
    BestIsKept(rows, verified, best, rank);
  }

  lemma KeptIsBest(rows: seq<Row>, verified: set<Sha>, best: map<Sha, Path>, rank: Path -> nat)
    requires DistinctPaths(rows) && BestSoFar(rows, |rows|, verified, best, rank)
    ensures var keep := set sha | sha in best :: best[sha];
            forall i :: 0 <= i < |rows| && rows[i].path in keep ==> rows[i].sha in best && best[rows[i].sha] == rows[i].path
  {
    var keep := set sha | sha in best :: best[sha];
    forall i | 0 <= i < |rows| && rows[i].path in keep ensures rows[i].sha in best && best[rows[i].sha] == rows[i].path {
      var sha :| sha in best && best[sha] == rows[i].path;
      var j :| 0 <= j < |rows| && rows[j].path == best[sha] && rows[j].sha == sha;
      assert i == j;
    }
  }

  lemma EachIsKept(rows: seq<Row>, verified: set<Sha>, best: map<Sha, Path>, rank: Path -> nat, i: nat)
    requires BestSoFar(rows, |rows|, verified, best, rank) && i < |rows| && rows[i].sha !in verified
    ensures KeepsSome(rows, set sha | sha in best :: best[sha], rows[i].sha)
  {
    var sha := rows[i].sha;
    var j :| 0 <= j < |rows| && rows[j].path == best[sha] && rows[j].sha == sha;
    assert best[sha] in (set sha | sha in best :: best[sha]) && Copy(rows, sha, best[sha]);
  }

  lemma KeptAreNeeded(rows: seq<Row>, verified: set<Sha>, best: map<Sha, Path>, rank: Path -> nat)
    requires BestSoFar(rows, |rows|, verified, best, rank)
    ensures KeepsNeeded(rows, verified, set sha | sha in best :: best[sha])
  {
    var keep := set sha | sha in best :: best[sha];
    forall p | p in keep ensures exists i :: 0 <= i < |rows| && rows[i].path == p && rows[i].sha !in verified {
      var sha :| sha in best && best[sha] == p;
      var i :| 0 <= i < |rows| && rows[i].path == best[sha] && rows[i].sha == sha;
    }
  }

  lemma BestIsKept(rows: seq<Row>, verified: set<Sha>, best: map<Sha, Path>, rank: Path -> nat)
    requires DistinctPaths(rows) && BestSoFar(rows, |rows|, verified, best, rank)
    ensures var keep := set sha | sha in best :: best[sha]; KeepsOneEach(rows, verified, keep) && KeepsBest(rows, keep, rank)
  {
    var keep := set sha | sha in best :: best[sha];
    KeptIsBest(rows, verified, best, rank);
    KeptAreNeeded(rows, verified, best, rank);
    forall i | 0 <= i < |rows| && rows[i].sha !in verified ensures KeepsSome(rows, keep, rows[i].sha) {
      EachIsKept(rows, verified, best, rank, i);
    }
  }

  // ----- what the counters mean -----------------------------------------------------------------------

  function Weigh(rows: seq<Row>, d: Path, weight: Row -> nat): nat
    decreases |rows|
  {
    if rows == [] then 0 else
      var last := rows[|rows| - 1];
      Weigh(rows[..|rows| - 1], d, weight) + if Below(d, last.path) then weight(last) else 0
  }

  const SIZE: Row -> nat := (row: Row) => row.size
  const ONE: Row -> nat := (row: Row) => 1

  function KeptOne(keep: set<Path>): Row -> nat
  {
    (row: Row) => if row.path in keep then 1 else 0
  }

  function At(counter: map<Path, nat>, d: Path): nat
  {
    if d in counter then counter[d] else 0
  }

  predicate HasFiles(rows: seq<Row>, d: Path)
  {
    exists i :: 0 <= i < |rows| && Below(d, rows[i].path)
  }

  /** Every file under the folder is a repeat. */
  predicate Removable(rows: seq<Row>, keep: set<Path>, d: Path)
  {
    HasFiles(rows, d) && forall i :: 0 <= i < |rows| && Below(d, rows[i].path) ==> rows[i].path !in keep
  }

  /** The largest removable folders below the scanned root. */
  predicate Maximal(rows: seq<Row>, keep: set<Path>, inRoot: Path -> bool, d: Path)
  {
    Removable(rows, keep, d) && !Removable(rows, keep, Parent(d)) && inRoot(d)
  }

  lemma {:induction false} WeighZeroIff(rows: seq<Row>, d: Path, weight: Row -> nat)
    ensures Weigh(rows, d, weight) == 0 <==> forall i :: 0 <= i < |rows| && Below(d, rows[i].path) ==> weight(rows[i]) == 0
    decreases |rows|
  {
    if rows != [] {
      var n := |rows| - 1;
      WeighZeroIff(rows[..n], d, weight);
      assert forall i :: 0 <= i < n ==> rows[..n][i] == rows[i];
    }
  }

  // ----- the plan ---------------------------------------------------------------------------------------

  datatype Plan = Plan(keep: set<Path>, folders: set<Path>, singles: set<Path>,
                       bytes: map<Path, nat>, files: map<Path, nat>)

  predicate Covered(folders: set<Path>, p: Path)
  {
    exists d :: d in folders && Below(d, p)
  }

  ghost predicate Counted(rows: seq<Row>, counter: map<Path, nat>, weight: Row -> nat)
  {
    forall d: Path :: At(counter, d) == Weigh(rows, d, weight)
  }

  ghost predicate ListsFolders(rows: seq<Row>, keep: set<Path>, inRoot: Path -> bool, folders: set<Path>)
  {
    forall d: Path :: d in folders <==> Maximal(rows, keep, inRoot, d)
  }

  ghost predicate ListsSingles(rows: seq<Row>, keep: set<Path>, folders: set<Path>, singles: set<Path>)
  {
    forall p: Path :: p in singles <==> p !in keep && !Covered(folders, p) && Hashed(rows, p)
  }

  /** The plan lists exactly the maximal folders, with their true file and byte counts, and as single
      files exactly the repeats that no listed folder covers. */
  ghost predicate PlanFor(rows: seq<Row>, verified: set<Sha>, rank: Path -> nat, inRoot: Path -> bool, plan: Plan)
  {
    KeepsOneEach(rows, verified, plan.keep) && KeepsBest(rows, plan.keep, rank) &&
    ListsFolders(rows, plan.keep, inRoot, plan.folders) && ListsSingles(rows, plan.keep, plan.folders, plan.singles) &&
    Counted(rows, plan.bytes, SIZE) && Counted(rows, plan.files, ONE)
  }

  /** Adds `n` to the counter of every proper ancestor of `p`. */
  method CountUp(counter: map<Path, nat>, p: Path, n: nat) returns (counted: map<Path, nat>)
    ensures forall d: Path :: At(counted, d) == At(counter, d) + if Below(d, p) then n else 0
    ensures forall d: Path :: d in counted <==> d in counter || Below(d, p)
  {
    counted := counter;
    var d := p;
    while |d| >= 2
      invariant |d| <= |p| && p[..|d|] == d
      invariant forall e: Path :: At(counted, e) == At(counter, e) + if Below(e, p) && |e| >= |d| then n else 0
      invariant forall e: Path :: e in counted <==> e in counter || (Below(e, p) && |e| >= |d|)
      decreases |d|
    {
      var up := d[..|d| - 1];
      assert p[..|up|] == up;
      assert forall e: Path :: Below(e, p) && |e| == |up| ==> e == up;
      counted := counted[up := At(counted, up) + n];
      d := up;
    }
  }

  ghost predicate FoldersSeen(rows: seq<Row>, counter: map<Path, nat>)
  {
    forall d: Path :: d in counter <==> HasFiles(rows, d)
  }

  method CountFolders(rows: seq<Row>, keep: set<Path>)
    returns (nbytes: map<Path, nat>, nfiles: map<Path, nat>, nkeep: map<Path, nat>)
    ensures Counted(rows, nbytes, SIZE) && Counted(rows, nfiles, ONE) && Counted(rows, nkeep, KeptOne(keep))
    ensures FoldersSeen(rows, nbytes)
  {
    nbytes, nfiles, nkeep := map[], map[], map[];
    for i := 0 to |rows|
      invariant Counted(rows[..i], nbytes, SIZE)
      invariant Counted(rows[..i], nfiles, ONE)
      invariant Counted(rows[..i], nkeep, KeptOne(keep))
      invariant FoldersSeen(rows[..i], nbytes)
    {
      assert rows[..i + 1][..i] == rows[..i];
      nbytes := CountUp(nbytes, rows[i].path, rows[i].size);
      nfiles := CountUp(nfiles, rows[i].path, 1);
      if rows[i].path in keep { nkeep := CountUp(nkeep, rows[i].path, 1); }
      FolderSeen(rows, i);
    }
    assert rows[..|rows|] == rows;
  }

  lemma NoneKeptIff(rows: seq<Row>, keep: set<Path>, d: Path)
    ensures HasFiles(rows, d) && Weigh(rows, d, KeptOne(keep)) == 0 <==> Removable(rows, keep, d)
  {
    WeighZeroIff(rows, d, KeptOne(keep));
    assert forall i :: 0 <= i < |rows| ==> (KeptOne(keep)(rows[i]) == 0 <==> rows[i].path !in keep);
  }

  method ListFolders(rows: seq<Row>, keep: set<Path>, inRoot: Path -> bool, nbytes: map<Path, nat>, nkeep: map<Path,
                     nat>)
    returns (maximal: set<Path>)
    requires FoldersSeen(rows, nbytes) && Counted(rows, nkeep, KeptOne(keep))
    ensures ListsFolders(rows, keep, inRoot, maximal)
  {
    var removable := set d | d in nbytes && At(nkeep, d) == 0;
    forall d: Path ensures d in removable <==> Removable(rows, keep, d) { NoneKeptIff(rows, keep, d); }
    maximal := set d | d in removable && Parent(d) !in removable && inRoot(d);
  }

  method ListSingles(rows: seq<Row>, keep: set<Path>, folders: set<Path>) returns (singles: set<Path>)
    ensures ListsSingles(rows, keep, folders, singles)
  {
    singles := {};
    for i := 0 to |rows|
      invariant forall p: Path :: p in singles <==> p !in keep && !Covered(folders, p) && p in Paths(rows[..i])
    {
      assert rows[..i + 1] == rows[..i] + [rows[i]];
      if rows[i].path !in keep && !Covered(folders, rows[i].path) { singles := singles + {rows[i].path}; }
    }
    assert rows[..|rows|] == rows;
  }

  function Paths(rows: seq<Row>): set<Path>
  {
    set i | 0 <= i < |rows| :: rows[i].path
  }

  /** A maximal folder in terms of the files alone. */
  lemma MaximalMeans(rows: seq<Row>, keep: set<Path>, inRoot: Path -> bool, d: Path)
    ensures Maximal(rows, keep, inRoot, d) <==>
            inRoot(d) && (exists i :: 0 <= i < |rows| && Below(d, rows[i].path)) &&
            (forall i :: 0 <= i < |rows| && Below(d, rows[i].path) ==> rows[i].path !in keep) &&
            (exists i :: 0 <= i < |rows| && Below(Parent(d), rows[i].path) && rows[i].path in keep)
  {
    if i :| 0 <= i < |rows| && Below(d, rows[i].path) {
      if |d| >= 2 { assert rows[i].path[..|d|][..|d| - 1] == rows[i].path[..|d| - 1]; }
      assert Below(Parent(d), rows[i].path);
    }
  }

  /** A file is listed by itself exactly if it is hashed, not kept and below no listed folder. */
  lemma SinglesMean(rows: seq<Row>, keep: set<Path>, folders: set<Path>, singles: set<Path>)
    requires ListsSingles(rows, keep, folders, singles)
    ensures forall p: Path :: p in singles <==>
              p !in keep && (exists i :: 0 <= i < |rows| && rows[i].path == p) && forall d :: d in folders ==> !Below(d, p)
  {
    forall p: Path ensures Covered(folders, p) <==> exists d :: d in folders && Below(d, p) {}
  }

  lemma {:induction false} WeighOne(rows: seq<Row>, d: Path)
    ensures Weigh(rows, d, ONE) == |set i: nat | i < |rows| && Below(d, rows[i].path)|
    decreases |rows|
  {
    var below := set i: nat | i < |rows| && Below(d, rows[i].path);
    if rows == [] {
      assert below == {};
    } else {
      var n := |rows| - 1;
      WeighOne(rows[..n], d);
      assert below == (set i: nat | i < n && Below(d, rows[..n][i].path)) + if Below(d, rows[n].path) then {n} else {};
    }
  }

  /** The files counted for a folder that has any are those below it. */
  lemma FilesCounted(rows: seq<Row>, nfiles: map<Path, nat>, d: Path)
    requires Counted(rows, nfiles, ONE) && HasFiles(rows, d)
    ensures d in nfiles && nfiles[d] == |set i: nat | i < |rows| && Below(d, rows[i].path)|
  {
    var i :| 0 <= i < |rows| && Below(d, rows[i].path);
    WeighZeroIff(rows, d, ONE);
    WeighOne(rows, d);
    assert At(nfiles, d) == Weigh(rows, d, ONE);
    assert ONE(rows[i]) == 1;
  }

  /** A folder is listed exactly if it is below the scanned root and holds files, none of them kept, while the
      folder above it holds a kept one. */
  lemma FoldersMean(rows: seq<Row>, keep: set<Path>, inRoot: Path -> bool, folders: set<Path>)
    requires ListsFolders(rows, keep, inRoot, folders)
    ensures forall d: Path :: d in folders <==>
              inRoot(d) && (exists i :: 0 <= i < |rows| && Below(d, rows[i].path)) &&
              (forall i :: 0 <= i < |rows| && Below(d, rows[i].path) ==> rows[i].path !in keep) &&
              (exists i :: 0 <= i < |rows| && Below(Parent(d), rows[i].path) && rows[i].path in keep)
  {
    forall d: Path { MaximalMeans(rows, keep, inRoot, d); }
  }

  method BuildPlan(rows: seq<Row>, verified: set<Sha>, rank: Path -> nat, inRoot: Path -> bool) returns (plan: Plan)
    requires DistinctPaths(rows)
    ensures PlanFor(rows, verified, rank, inRoot, plan)
    ensures forall d: Path :: d in plan.folders ==> inRoot(d)
  {
    var keep := ChooseKeep(rows, verified, rank);
    var nbytes, nfiles, nkeep := CountFolders(rows, keep);
    var maximal := ListFolders(rows, keep, inRoot, nbytes, nkeep);
    var singles := ListSingles(rows, keep, maximal);
    plan := Plan(keep, maximal, singles, nbytes, nfiles);
  }

  lemma FolderSeen(rows: seq<Row>, i: nat)
    requires i < |rows|
    ensures forall d: Path :: HasFiles(rows[..i + 1], d) <==> HasFiles(rows[..i], d) || Below(d, rows[i].path)
  {
    forall d: Path ensures HasFiles(rows[..i + 1], d) <==> HasFiles(rows[..i], d) || Below(d, rows[i].path) {
      if HasFiles(rows[..i], d) {
        var j :| 0 <= j < i && Below(d, rows[..i][j].path);
        assert Below(d, rows[..i + 1][j].path);
      }
      if Below(d, rows[i].path) { assert Below(d, rows[..i + 1][i].path); }
      if HasFiles(rows[..i + 1], d) {
        var j :| 0 <= j < i + 1 && Below(d, rows[..i + 1][j].path);
        if j < i { assert Below(d, rows[..i][j].path); }
      }
    }
  }

  // ----- what the plan guarantees -------------------------------------------------------------------------

  /** Folders above a common file are comparable. */
  lemma Comparable(d: Path, e: Path, p: Path)
    requires Below(d, p) && Below(e, p) && |d| <= |e|
    ensures d == e || Below(d, e)
  {
    assert p[..|e|][..|d|] == p[..|d|];
  }

  lemma BelowTransitive(d: Path, e: Path, p: Path)
    requires (d == e || Below(d, e)) && Below(e, p)
    ensures Below(d, p)
  {
    assert p[..|e|][..|d|] == p[..|d|];
  }

  /** A folder inside a removable one that holds a file is removable itself. */
  lemma RemovableInside(rows: seq<Row>, keep: set<Path>, d: Path, e: Path)
    requires Removable(rows, keep, d) && (d == e || Below(d, e)) && HasFiles(rows, e)
    ensures Removable(rows, keep, e)
  {
    forall i | 0 <= i < |rows| && Below(e, rows[i].path) ensures rows[i].path !in keep {
      BelowTransitive(d, e, rows[i].path);
    }
  }

  lemma ParentOfInner(rows: seq<Row>, keep: set<Path>, d: Path, e: Path, p: Path)
    requires Removable(rows, keep, d) && Below(d, e) && Below(e, p) && Hashed(rows, p)
    ensures Removable(rows, keep, Parent(e))
  {
    assert d == Parent(e) || Below(d, Parent(e)) by { assert e[..|e| - 1][..|d|] == e[..|d|]; }
    assert Below(Parent(e), p) by { assert p[..|e|][..|e| - 1] == p[..|e| - 1]; }
    RemovableInside(rows, keep, d, Parent(e));
  }

  /** No file lies under two listed folders. */
  lemma MaximalDisjoint(rows: seq<Row>, keep: set<Path>, inRoot: Path -> bool, d: Path, e: Path, p: Path)
    requires Maximal(rows, keep, inRoot, d) && Maximal(rows, keep, inRoot, e) && Below(d, p) && Below(e, p)
    requires Hashed(rows, p)
    ensures d == e
  {
    if |d| <= |e| { Comparable(d, e, p); } else { Comparable(e, d, p); }
    if Below(d, e) { ParentOfInner(rows, keep, d, e, p); }
    if Below(e, d) { ParentOfInner(rows, keep, e, d, p); }
  }

  lemma CoveredIsRepeat(rows: seq<Row>, keep: set<Path>, inRoot: Path -> bool, folders: set<Path>, i: nat)
    requires i < |rows| && Covered(folders, rows[i].path) && forall d: Path :: d in folders ==> Maximal(rows, keep, inRoot, d)
    ensures rows[i].path !in keep
  {
    var d: Path :| d in folders && Below(d, rows[i].path);
    assert Maximal(rows, keep, inRoot, d);
  }

  predicate Survives(plan: Plan, p: Path)
  {
    !Covered(plan.folders, p) && p !in plan.singles
  }

  /** After removing everything listed, the hashed files left are exactly the kept ones. */
  lemma SurvivorsAreKept(rows: seq<Row>, verified: set<Sha>, rank: Path -> nat, inRoot: Path -> bool, plan: Plan,
                         i: nat)
    requires PlanFor(rows, verified, rank, inRoot, plan) && i < |rows|
    ensures Survives(plan, rows[i].path) <==> rows[i].path in plan.keep
  {
    if Covered(plan.folders, rows[i].path) { CoveredIsRepeat(rows, plan.keep, inRoot, plan.folders, i); }
    assert Hashed(rows, rows[i].path);
  }

  /** Some copy of the content is left. */
  predicate Left(rows: seq<Row>, plan: Plan, sha: Sha)
  {
    exists j :: 0 <= j < |rows| && rows[j].sha == sha && Survives(plan, rows[j].path)
  }

  lemma LeftExactly(rows: seq<Row>, verified: set<Sha>, plan: Plan, sha: Sha)
    requires KeepsOneEach(rows, verified, plan.keep)
    requires forall j :: 0 <= j < |rows| ==> (Survives(plan, rows[j].path) <==> rows[j].path in plan.keep)
    requires DistinctPaths(rows)
    ensures Left(rows, plan, sha) <==> sha !in verified && exists i :: 0 <= i < |rows| && rows[i].sha == sha
  {
    if j :| 0 <= j < |rows| && rows[j].sha == sha && Survives(plan, rows[j].path) {
      var i :| 0 <= i < |rows| && rows[i].path == rows[j].path && rows[i].sha !in verified;
      assert i == j;
    }
    if i :| 0 <= i < |rows| && rows[i].sha == sha && sha !in verified {
      assert KeepsSome(rows, plan.keep, sha);
    }
  }

  /** Nothing is lost: of every content that no verified archive holds exactly one hashed copy
      survives, and of the others none. */
  lemma OneCopySurvives(rows: seq<Row>, verified: set<Sha>, rank: Path -> nat, inRoot: Path -> bool, plan: Plan,
                        sha: Sha)
    requires PlanFor(rows, verified, rank, inRoot, plan) && DistinctPaths(rows)
    ensures Left(rows, plan, sha) <==> sha !in verified && exists i :: 0 <= i < |rows| && rows[i].sha == sha
    ensures forall j, k :: SameContent(rows, j, k) && Survives(plan, rows[j].path) && Survives(plan, rows[k].path) ==> j == k
  {
    forall j | 0 <= j < |rows| ensures Survives(plan, rows[j].path) <==> rows[j].path in plan.keep {
      SurvivorsAreKept(rows, verified, rank, inRoot, plan, j);
    }
    LeftExactly(rows, verified, plan, sha);
  }

  // ----- conservation of bytes -----------------------------------------------------------------------------

  function TotalBytes(rows: seq<Row>): nat
    decreases |rows|
  {
    if rows == [] then 0 else TotalBytes(rows[..|rows| - 1]) + rows[|rows| - 1].size
  }

  function BytesOf(rows: seq<Row>, paths: set<Path>): nat
    decreases |rows|
  {
    if rows == [] then 0 else
      BytesOf(rows[..|rows| - 1], paths) + if rows[|rows| - 1].path in paths then rows[|rows| - 1].size else 0
  }

  function WeighedAt(rows: seq<Row>): Path -> int
  {
    (d: Path) => Weigh(rows, d, SIZE)
  }

  function LastAt(row: Row): Path -> int
  {
    (d: Path) => if Below(d, row.path) then row.size else 0
  }

  lemma {:induction false} SumSplits(folders: set<Path>, rows: seq<Row>)
    requires rows != []
    ensures Sum(folders, WeighedAt(rows)) == Sum(folders, WeighedAt(rows[..|rows| - 1])) + Sum(folders, LastAt(rows[|rows| - 1]))
    decreases folders
  {
    if folders != {} {
      var d :| d in folders;
      SumRemove(folders, d, WeighedAt(rows));
      SumRemove(folders, d, WeighedAt(rows[..|rows| - 1]));
      SumRemove(folders, d, LastAt(rows[|rows| - 1]));
      SumSplits(folders - {d}, rows);
    }
  }

  predicate AtMostOne(folders: set<Path>, p: Path)
  {
    forall d, e :: d in folders && e in folders && Below(d, p) && Below(e, p) ==> d == e
  }

  lemma {:induction false} OneFolderCounts(folders: set<Path>, row: Row)
    requires AtMostOne(folders, row.path)
    ensures Sum(folders, LastAt(row)) == if Covered(folders, row.path) then row.size else 0
    decreases folders
  {
    if folders != {} {
      var d :| d in folders;
      SumRemove(folders, d, LastAt(row));
      OneFolderCounts(folders - {d}, row);
      if Covered(folders, row.path) && !Below(d, row.path) {
        var e :| e in folders && Below(e, row.path);
        assert e in folders - {d};
      }
    }
  }

  predicate ExactlyOne(a: bool, b: bool, c: bool)
  {
    (a && !b && !c) || (!a && b && !c) || (!a && !b && c)
  }

  lemma {:induction false} BytesSplit(rows: seq<Row>, keep: set<Path>, folders: set<Path>, singles: set<Path>)
    requires forall i :: 0 <= i < |rows| ==> ExactlyOne(rows[i].path in keep, Covered(folders, rows[i].path), rows[i].path in singles)
    requires forall i :: 0 <= i < |rows| ==> AtMostOne(folders, rows[i].path)
    ensures TotalBytes(rows) == BytesOf(rows, keep) + Sum(folders, WeighedAt(rows)) + BytesOf(rows, singles)
    decreases |rows|
  {
    if rows == [] {
      SumSame(folders, WeighedAt([]), (d: Path) => 0);
      SumOfZeros(folders, (d: Path) => 0);
    } else {
      var n := |rows| - 1;
      assert forall i :: 0 <= i < n ==> rows[..n][i] == rows[i];
      BytesSplit(rows[..n], keep, folders, singles);
      SumSplits(folders, rows);
      OneFolderCounts(folders, rows[n]);
    }
  }

  /** Every hashed file is in exactly one of: kept, under a listed folder (and then under one only), or
      listed by itself; and the reported figures add up to the total. */
  lemma PlanPartitionsAndConserves(rows: seq<Row>, verified: set<Sha>, rank: Path -> nat, inRoot: Path -> bool,
                                   plan: Plan)
    requires PlanFor(rows, verified, rank, inRoot, plan)
    ensures forall i :: 0 <= i < |rows| ==>
              ExactlyOne(rows[i].path in plan.keep, Covered(plan.folders, rows[i].path), rows[i].path in plan.singles)
    ensures forall i :: 0 <= i < |rows| ==> AtMostOne(plan.folders, rows[i].path)
    ensures TotalBytes(rows) ==
              BytesOf(rows, plan.keep) + Sum(plan.folders, (d: Path) => At(plan.bytes, d)) + BytesOf(rows, plan.singles)
  {
    forall i | 0 <= i < |rows|
      ensures ExactlyOne(rows[i].path in plan.keep, Covered(plan.folders, rows[i].path), rows[i].path in plan.singles)
    {
      SurvivorsAreKept(rows, verified, rank, inRoot, plan, i);
    }
    forall i | 0 <= i < |rows| ensures AtMostOne(plan.folders, rows[i].path) {
      assert Hashed(rows, rows[i].path);
      forall d, e | d in plan.folders && e in plan.folders && Below(d, rows[i].path) && Below(e, rows[i].path) ensures d == e {
        MaximalDisjoint(rows, plan.keep, inRoot, d, e, rows[i].path);
      }
    }
    BytesSplit(rows, plan.keep, plan.folders, plan.singles);
    SumSame(plan.folders, WeighedAt(rows), (d: Path) => At(plan.bytes, d));
  }

  /** Folders and files listed are really disjoint on disk: no kept file is, or lies under, a listed
      folder. */
  lemma KeptFilesAreSafe(rows: seq<Row>, verified: set<Sha>, rank: Path -> nat, inRoot: Path -> bool, plan: Plan,
                         d: Path, p: Path)
    requires PlanFor(rows, verified, rank, inRoot, plan) && FilesOnly(rows) && d in plan.folders && p in plan.keep
    ensures d != p && !Below(d, p)
  {
    assert Maximal(rows, plan.keep, inRoot, d);
    KeptIsSafe(rows, verified, plan.keep, d, p);
  }

  lemma KeptIsSafe(rows: seq<Row>, verified: set<Sha>, keep: set<Path>, d: Path, p: Path)
    requires KeepsNeeded(rows, verified, keep) && Removable(rows, keep, d) && FilesOnly(rows) && p in keep
    ensures d != p && !Below(d, p)
  {
    var i :| 0 <= i < |rows| && rows[i].path == p && rows[i].sha !in verified;
    var j :| 0 <= j < |rows| && Below(d, rows[j].path);
    assert !Below(rows[i].path, rows[j].path);
  }

  // ----- when a removable folder is listed --------------------------------------------------------------------

  lemma TopRemovable(rows: seq<Row>, keep: set<Path>, d: Path)
    requires Removable(rows, keep, d) && Removable(rows, keep, d[..1])
    ensures Removable(rows, keep, Parent(d))
  {
    if |d| >= 2 {
      var i :| 0 <= i < |rows| && Below(d, rows[i].path);
      assert Below(Parent(d), rows[i].path) by { assert rows[i].path[..|d|][..|d| - 1] == rows[i].path[..|d| - 1]; }
      assert d[..1] == Parent(d) || Below(d[..1], Parent(d)) by { assert d[..|d| - 1][..1] == d[..1]; }
      RemovableInside(rows, keep, d[..1], Parent(d));
    }
  }

  /** Some folder on the way up from `d` (or `d` itself) is maximal, the root filter aside, exactly when
      the topmost folder is not removable as well. So when a whole drive holds only repeats no folder is
      listed at all and every file is listed by itself. */
  lemma {:induction false} ListedExactlyWhen(rows: seq<Row>, keep: set<Path>, d: Path)
    requires Removable(rows, keep, d)
    ensures (exists m: Path :: (m == d || Below(m, d)) && Removable(rows, keep, m) && !Removable(rows, keep, Parent(m))) <==>
            !Removable(rows, keep, d[..1])
    decreases |d|
  {
    if Removable(rows, keep, d[..1]) { TopRemovable(rows, keep, d); }
    if |d| == 1 {
      assert d[..1] == d;
    } else if Removable(rows, keep, Parent(d)) {
      ListedExactlyWhen(rows, keep, Parent(d));
      assert Parent(d)[..1] == d[..1];
      forall m: Path | Below(m, d) ensures m == Parent(d) || Below(m, Parent(d)) { assert d[..|d| - 1][..|m|] == d[..|m|]; }
      forall m: Path | Below(m, Parent(d)) ensures Below(m, d) { assert d[..|d| - 1][..|m|] == d[..|m|]; }
    }
  }
}
