/** Comparing new folders with what is already held: which files and whole folders are only repeats. */
module NewFolders {
  import opened Collections
  import opened RemovalPlan

  /** `sha` is absent when the file could not be read. */
  datatype NewFile = NewFile(path: Path, size: nat, sha: Option<Sha>)

  /** The walks through the input folders, one after the other: a file is listed once for every input folder
      it lies below. */
  function Listings(folders: seq<Path>, p: Path): nat
  {
    if folders == [] then 0 else
      Listings(folders[..|folders| - 1], p) + if Below(folders[|folders| - 1], p) then 1 else 0
  }

  ghost predicate Listed(files: seq<NewFile>, folders: seq<Path>, drive: seq<NewFile>)
  {
    forall f: NewFile :: multiset(files)[f] == if f in drive then Listings(folders, f.path) else 0
  }

  /** One walk: the files below one folder. */
  method WalkFolder(folder: Path, drive: seq<NewFile>) returns (files: seq<NewFile>)
    requires forall j, k :: 0 <= j < k < |drive| ==> drive[j] != drive[k]
    ensures forall f: NewFile :: multiset(files)[f] == if f in drive && Below(folder, f.path) then 1 else 0
  {
    files := [];
    for n := 0 to |drive|
      invariant forall f: NewFile :: multiset(files)[f] == if f in drive[..n] && Below(folder, f.path) then 1 else 0
    {
      assert drive[..n + 1] == drive[..n] + [drive[n]] && drive[n] !in drive[..n];
      if Below(folder, drive[n].path) { files := files + [drive[n]]; }
    }
    assert drive[..|drive|] == drive;
  }

  method ListFiles(folders: seq<Path>, drive: seq<NewFile>) returns (files: seq<NewFile>)
    requires forall j, k :: 0 <= j < k < |drive| ==> drive[j] != drive[k]
    ensures Listed(files, folders, drive)
  {
    files := [];
    for n := 0 to |folders|
      invariant Listed(files, folders[..n], drive)
    {
      var below := WalkFolder(folders[n], drive);
      assert folders[..n + 1][..n] == folders[..n] && multiset(files + below) == multiset(files) + multiset(below);
      files := files + below;
    }
    assert folders[..|folders|] == folders;
  }

  datatype Status = Duplicate(at: Option<Path>) | Repeat(first: Path) | Unique | Error

  predicate Readable(f: NewFile)
  {
    f.size > 0 && f.sha.Some?
  }

  /** `f` has content that no live copy elsewhere holds. */
  predicate OnlyHere(f: NewFile, live: Sha -> Option<Path>)
  {
    Readable(f) && live(f.sha.value).None?
  }

  predicate SameSha(f: NewFile, g: NewFile)
  {
    Readable(f) && Readable(g) && f.sha == g.sha
  }

  /** The status of one file, given the statuses of those before it. */
  ghost predicate StatusOk(files: seq<NewFile>, statuses: seq<Status>, live: Sha -> Option<Path>, i: nat)
    requires i < |files| && i < |statuses|
  {
    match statuses[i]
    case Error => files[i].size > 0 && files[i].sha.None?
    case Duplicate(at) => (files[i].size == 0 && at.None?) || (Readable(files[i]) && at.Some? && live(files[i].sha.value) == at)
    case Repeat(first) => OnlyHere(files[i], live) &&
      exists j :: 0 <= j < i && SameSha(files[j], files[i]) && statuses[j].Unique? && files[j].path == first
    case Unique => OnlyHere(files[i], live) && forall j :: 0 <= j < i ==> !SameSha(files[j], files[i])
  }

  ghost predicate Classified(files: seq<NewFile>, statuses: seq<Status>, live: Sha -> Option<Path>)
  {
    |statuses| == |files| && forall i :: 0 <= i < |files| ==> StatusOk(files, statuses, live, i)
  }

  ghost predicate SeenOk(files: seq<NewFile>, statuses: seq<Status>, live: Sha -> Option<Path>, seen: map<Sha, Path>)
    requires |statuses| <= |files|
  {
    (forall sha :: sha in seen ==>
       exists j :: 0 <= j < |statuses| && Readable(files[j]) && files[j].sha == Some(sha) && statuses[j].Unique? && files[j].path == seen[sha]) &&
    (forall j :: 0 <= j < |statuses| && OnlyHere(files[j], live) ==> files[j].sha.value in seen)
  }

  method Classify(files: seq<NewFile>, live: Sha -> Option<Path>) returns (statuses: seq<Status>)
    ensures Classified(files, statuses, live)
  {
    statuses := [];
    var seen: map<Sha, Path> := map[];
    for i := 0 to |files|
      invariant |statuses| == i && SeenOk(files, statuses, live, seen)
      invariant forall k :: 0 <= k < i ==> StatusOk(files, statuses, live, k)
    {
      var f := files[i];
      ghost var before := statuses;
      if f.size == 0 {
        statuses := statuses + [Duplicate(None)];
      } else if f.sha.None? {
        statuses := statuses + [Error];
      } else if live(f.sha.value).Some? {
        statuses := statuses + [Duplicate(live(f.sha.value))];
      } else if f.sha.value in seen {
        statuses := statuses + [Repeat(seen[f.sha.value])];
      } else {
        seen := seen[f.sha.value := f.path];
        statuses := statuses + [Unique];
      }
      forall k | 0 <= k < i ensures StatusOk(files, statuses, live, k) { assert StatusOk(files, before, live, k); }
    }
  }

  // ----- folders that hold only repeats -----------------------------------------------------------------

  predicate AtOrBelow(f: Path, d: Path)
  {
    f == d || Below(f, d)
  }

  predicate Inside(folders: set<Path>, d: Path)
  {
    exists f :: f in folders && AtOrBelow(f, d)
  }

  /** Climbing from `p` reaches `d`: the climb ends at the first of the given folders. */
  predicate Reaches(folders: set<Path>, d: Path, p: Path)
  {
    Below(d, p) && Inside(folders, d) && forall f :: f in folders && Below(f, p) ==> !Below(d, f)
  }

  lemma InsideUp(folders: set<Path>, d: Path, e: Path)
    requires Inside(folders, d) && Below(d, e)
    ensures Inside(folders, e)
  {
    var f :| f in folders && AtOrBelow(f, d);
    if f != d { assert e[..|d|][..|f|] == e[..|f|]; }
  }

  /** Every folder the climb from `p` reaches is up by `n`, and no other. */
  ghost predicate Raised(counter: map<Path, nat>, counted: map<Path, nat>, folders: set<Path>, p: Path, n: nat)
  {
    (forall d: Path :: At(counted, d) == At(counter, d) + if Reaches(folders, d, p) then n else 0) &&
    (forall d: Path :: d in counted <==> d in counter || Reaches(folders, d, p))
  }

  method CountWithin(counter: map<Path, nat>, folders: set<Path>, p: Path, n: nat) returns (counted: map<Path, nat>)
    requires |p| >= 2
    ensures Raised(counter, counted, folders, p, n)
  {
    counted := counter;
    var d := Parent(p);
    while Inside(folders, d)
      invariant Below(d, p)
      invariant forall f :: f in folders && Below(f, p) ==> !Below(d, f)
      invariant forall e: Path :: At(counted, e) == At(counter, e) + if Reaches(folders, e, p) && |e| > |d| then n else 0
      invariant forall e: Path :: e in counted <==> e in counter || (Reaches(folders, e, p) && |e| > |d|)
      decreases |d|
    {
      assert forall e: Path :: Below(e, p) && |e| == |d| ==> e == d;
      assert Reaches(folders, d, p);
      counted := counted[d := At(counted, d) + n];
      if d in folders {
        forall e: Path | Reaches(folders, e, p) ensures |e| >= |d| { if |e| < |d| { Comparable(e, d, p); } }
        return;
      }
      var up := Parent(d);
      assert |d| >= 2;
      assert p[..|up|] == p[..|d|][..|up|];
      forall f | f in folders && Below(f, p) ensures !Below(up, f) {
        if Below(up, f) { Comparable(d, f, p); }
      }
      d := up;
    }
    forall e: Path | Reaches(folders, e, p) ensures |e| > |d| {
      if |e| <= |d| {
        Comparable(e, d, p);
        if e != d { InsideUp(folders, e, d); }
      }
    }
  }

  predicate Bad(s: Status)
  {
    s.Unique? || s.Error?
  }

  /** Some file under the folder was counted, and none of those counted there is the only copy. */
  predicate OnlyRepeats(files: seq<NewFile>, statuses: seq<Status>, folders: set<Path>, d: Path)
    requires |statuses| == |files|
  {
    (exists i :: 0 <= i < |files| && Reaches(folders, d, files[i].path)) &&
    forall i :: 0 <= i < |files| && Reaches(folders, d, files[i].path) ==> !Bad(statuses[i])
  }

  ghost predicate ListsRepeats(files: seq<NewFile>, statuses: seq<Status>, folders: set<Path>, listed: set<Path>)
    requires |statuses| == |files|
  {
    forall d: Path :: d in listed <==> OnlyRepeats(files, statuses, folders, d) && !OnlyRepeats(files, statuses, folders, Parent(d))
  }

  ghost predicate FolderCounted(files: seq<NewFile>, statuses: seq<Status>, folders: set<Path>, n: nat,
                                total: map<Path, nat>, bad: map<Path, nat>, d: Path)
    requires |statuses| == |files| && n <= |files|
  {
    (d in total <==> exists i :: 0 <= i < n && Reaches(folders, d, files[i].path)) &&
    (At(bad, d) == 0 <==> forall i :: 0 <= i < n && Reaches(folders, d, files[i].path) ==> !Bad(statuses[i]))
  }

  ghost predicate CountedTo(files: seq<NewFile>, statuses: seq<Status>, folders: set<Path>, n: nat, total: map<Path,
                            nat>, bad: map<Path, nat>)
    requires |statuses| == |files| && n <= |files|
  {
    forall d: Path :: FolderCounted(files, statuses, folders, n, total, bad, d)
  }

  lemma OneMoreCounted(files: seq<NewFile>, statuses: seq<Status>, folders: set<Path>, n: nat, total: map<Path, nat>,
                       bad: map<Path, nat>,
                       total': map<Path, nat>, bad': map<Path, nat>)
    requires |statuses| == |files| && n < |files| && CountedTo(files, statuses, folders, n, total, bad)
    requires Raised(total, total', folders, files[n].path, 1)
    requires if Bad(statuses[n]) then Raised(bad, bad', folders, files[n].path, 1) else bad' == bad
    ensures CountedTo(files, statuses, folders, n + 1, total', bad')
  {
    var m := n + 1;
    forall d: Path ensures FolderCounted(files, statuses, folders, m, total', bad', d) {
      assert FolderCounted(files, statuses, folders, n, total, bad, d);
    }
  }

  method CountAll(files: seq<NewFile>, statuses: seq<Status>, folders: set<Path>)
    returns (total: map<Path, nat>, bad: map<Path, nat>)
    requires |statuses| == |files| && forall i :: 0 <= i < |files| ==> |files[i].path| >= 2
    ensures CountedTo(files, statuses, folders, |files|, total, bad)
  {
    total, bad := map[], map[];
    for n := 0 to |files|
      invariant CountedTo(files, statuses, folders, n, total, bad)
    {
      ghost var total0, bad0 := total, bad;
      total := CountWithin(total, folders, files[n].path, 1);
      if Bad(statuses[n]) { bad := CountWithin(bad, folders, files[n].path, 1); }
      OneMoreCounted(files, statuses, folders, n, total0, bad0, total, bad);
    }
  }

  method ListRemovable(files: seq<NewFile>, statuses: seq<Status>, folders: set<Path>) returns (listed: set<Path>)
    requires |statuses| == |files| && forall i :: 0 <= i < |files| ==> |files[i].path| >= 2
    ensures ListsRepeats(files, statuses, folders, listed)
  {
    var total, bad := CountAll(files, statuses, folders);
    var ok := set d | d in total && At(bad, d) == 0;
    forall d: Path ensures d in ok <==> OnlyRepeats(files, statuses, folders, d) {
      assert FolderCounted(files, statuses, folders, |files|, total, bad, d);
    }
    listed := set d | d in ok && Parent(d) !in ok;
  }

  // ----- what deleting the listed folders leaves --------------------------------------------------------

  /** No input folder lies inside another. */
  predicate Disjoint(folders: set<Path>)
  {
    forall f, g :: f in folders && g in folders ==> !Below(f, g)
  }

  lemma ListedIsInside(files: seq<NewFile>, statuses: seq<Status>, folders: set<Path>, listed: set<Path>, d: Path)
    requires |statuses| == |files| && ListsRepeats(files, statuses, folders, listed) && d in listed
    ensures Inside(folders, d)
  {
    assert OnlyRepeats(files, statuses, folders, d);
  }

  /** A listed folder holds an input folder that the file lies below: the climb from the file ended before
      it reached the listed folder. */
  predicate CutOff(listed: set<Path>, folders: set<Path>, p: Path)
  {
    exists d, g :: d in listed && g in folders && Below(d, g) && Below(g, p)
  }

  /** Some folder above the file holds only repeats. */
  predicate RepeatsAbove(files: seq<NewFile>, statuses: seq<Status>, folders: set<Path>, p: Path)
    requires |statuses| == |files|
  {
    exists d :: d in AncestorsOf(p) && OnlyRepeats(files, statuses, folders, d)
  }

  function AncestorsOf(p: Path): set<Path>
  {
    set n | 1 <= n < |p| :: p[..n]
  }

  lemma AncestorsAreAbove(p: Path, d: Path)
    ensures d in AncestorsOf(p) <==> Below(d, p)
  {
    if Below(d, p) { assert p[..|d|] in AncestorsOf(p); }
  }

  lemma RootOrDeeper(folders: set<Path>, d: Path)
    requires Inside(folders, d)
    ensures d[..1] in folders || |d| >= 2
  {
    if |d| == 1 { assert d[..1] == d; }
  }

  /** Climbing from a folder that holds only repeats ends at a listed one, unless it goes on through "/". */
  lemma {:induction false} ClimbToListed(files: seq<NewFile>, statuses: seq<Status>, folders: set<Path>,
                                         listed: set<Path>, d: Path) returns (top: Path)
    requires |statuses| == |files| && ListsRepeats(files, statuses, folders, listed)
    requires OnlyRepeats(files, statuses, folders, d) && d[..1] !in folders
    ensures top in listed && AtOrBelow(top, d)
    decreases |d|
  {
    RootOrDeeper(folders, d);
    if !OnlyRepeats(files, statuses, folders, Parent(d)) {
      top := d;
    } else {
      assert Parent(d)[..1] == d[..1];
      top := ClimbToListed(files, statuses, folders, listed, Parent(d));
      assert Below(Parent(d), d);
      if top != Parent(d) { BelowTransitive(top, Parent(d), d); }
    }
  }

  /** Unless "/" itself is an input folder, a file lies under a listed folder exactly if some folder above it
      holds only repeats. */
  lemma CoveredExactly(files: seq<NewFile>, statuses: seq<Status>, folders: set<Path>, listed: set<Path>, p: Path)
    requires |statuses| == |files| && ListsRepeats(files, statuses, folders, listed)
    ensures Covered(listed, p) ==> RepeatsAbove(files, statuses, folders, p)
    ensures p[..1] in folders || (Covered(listed, p) <==> RepeatsAbove(files, statuses, folders, p))
  {
    if d :| d in listed && Below(d, p) {
      AncestorsAreAbove(p, d);
    }
    if p[..1] !in folders {
      if d :| d in AncestorsOf(p) && OnlyRepeats(files, statuses, folders, d) {
        AncestorsAreAbove(p, d);
        assert d[..1] == p[..1];
        var top := ClimbToListed(files, statuses, folders, listed, d);
        if top != d { BelowTransitive(top, d, p); }
      }
    }
  }

  /** An input folder above the file lies below a folder that holds only repeats. */
  predicate CutOffBelow(files: seq<NewFile>, statuses: seq<Status>, folders: set<Path>, p: Path)
    requires |statuses| == |files|
  {
    exists g, d :: g in folders && Below(g, p) && d in AncestorsOf(g) && OnlyRepeats(files, statuses, folders, d)
  }

  /** A file that is the only copy, or could not be read, lies under a listed folder exactly if it is cut
      off from it by an input folder in between; told from the input, and unless "/" itself is an input folder,
      exactly if some input folder above the file lies below a folder that holds only repeats. */
  lemma BadFileCoveredExactly(files: seq<NewFile>, statuses: seq<Status>, folders: set<Path>, listed: set<Path>, i: nat)
    requires |statuses| == |files| && ListsRepeats(files, statuses, folders, listed)
    requires i < |files| && Bad(statuses[i])
    ensures Covered(listed, files[i].path) <==> CutOff(listed, folders, files[i].path)
    ensures files[i].path[..1] in folders ||
            (Covered(listed, files[i].path) <==> CutOffBelow(files, statuses, folders, files[i].path))
  {
    CutOffCovers(files, statuses, folders, listed, i);
    var p := files[i].path;
    if d, g :| d in listed && g in folders && Below(d, g) && Below(g, p) {
      AncestorsAreAbove(g, d);
      assert CutOffBelow(files, statuses, folders, p);
    }
    if p[..1] !in folders {
      if g, d :| g in folders && Below(g, p) && d in AncestorsOf(g) && OnlyRepeats(files, statuses, folders, d) {
        AncestorsAreAbove(g, d);
        BelowTransitive(d, g, p);
        AncestorsAreAbove(p, d);
        assert RepeatsAbove(files, statuses, folders, p);
        CoveredExactly(files, statuses, folders, listed, p);
      }
    }
  }

  lemma CutOffCovers(files: seq<NewFile>, statuses: seq<Status>, folders: set<Path>, listed: set<Path>, i: nat)
    requires |statuses| == |files| && ListsRepeats(files, statuses, folders, listed)
    requires i < |files| && Bad(statuses[i])
    ensures Covered(listed, files[i].path) <==> CutOff(listed, folders, files[i].path)
  {
    var p := files[i].path;
    if CutOff(listed, folders, p) {
      var d, g :| d in listed && g in folders && Below(d, g) && Below(g, p);
      BelowTransitive(d, g, p);
    }
    if Covered(listed, p) {
      var d :| d in listed && Below(d, p);
      assert OnlyRepeats(files, statuses, folders, d) && !Reaches(folders, d, p);
      ListedIsInside(files, statuses, folders, listed, d);
    }
  }

  /** No listed folder holds an input folder that lies inside another. */
  lemma DisjointCutsNothing(files: seq<NewFile>, statuses: seq<Status>, folders: set<Path>, listed: set<Path>, p: Path)
    requires |statuses| == |files| && ListsRepeats(files, statuses, folders, listed) && Disjoint(folders)
    ensures !CutOff(listed, folders, p)
  {
    forall d, g | d in listed && g in folders ensures !Below(d, g) {
      ListedIsInside(files, statuses, folders, listed, d);
      var f :| f in folders && AtOrBelow(f, d);
      if f != d && Below(d, g) { BelowTransitive(f, d, g); }
    }
  }

  /** A file that is the only copy, or could not be read, lies under no listed folder. */
  lemma BadFilesStay(files: seq<NewFile>, statuses: seq<Status>, folders: set<Path>, listed: set<Path>, i: nat)
    requires |statuses| == |files| && ListsRepeats(files, statuses, folders, listed) && Disjoint(folders)
    requires i < |files| && Bad(statuses[i])
    ensures !Covered(listed, files[i].path)
  {
    BadFileCoveredExactly(files, statuses, folders, listed, i);
    DisjointCutsNothing(files, statuses, folders, listed, files[i].path);
  }

  /** The live copies the comparison relies on lie outside the input folders. */
  ghost predicate LiveOutside(folders: set<Path>, live: Sha -> Option<Path>)
  {
    forall sha :: live(sha).Some? ==> forall f :: f in folders ==> !Below(f, live(sha).value)
  }

  lemma LiveStays(files: seq<NewFile>, statuses: seq<Status>, folders: set<Path>, listed: set<Path>,
                  live: Sha -> Option<Path>, sha: Sha)
    requires |statuses| == |files| && ListsRepeats(files, statuses, folders, listed) && LiveOutside(folders, live)
    requires live(sha).Some?
    ensures !Covered(listed, live(sha).value)
  {
    var q := live(sha).value;
    forall d: Path | d in listed ensures !Below(d, q) {
      ListedIsInside(files, statuses, folders, listed, d);
      var f :| f in folders && AtOrBelow(f, d);
      if Below(d, q) { BelowTransitive(f, d, q); }
    }
  }

  /** Deleting every listed folder leaves at least one copy of every readable, non-empty content: a live
      copy outside the folders, or the file that was recorded as unique. */
  lemma ComparisonIsSafe(files: seq<NewFile>, statuses: seq<Status>, folders: set<Path>, listed: set<Path>,
                         live: Sha -> Option<Path>, i: nat)
    requires Classified(files, statuses, live) && ListsRepeats(files, statuses, folders, listed)
    requires Disjoint(folders) && LiveOutside(folders, live) && i < |files| && Readable(files[i])
    ensures var sha := files[i].sha.value;
            (live(sha).Some? && !Covered(listed, live(sha).value)) ||
            exists j :: 0 <= j < |files| && SameSha(files[j], files[i]) && statuses[j].Unique? && !Covered(listed, files[j].path)
  {
    var sha := files[i].sha.value;
    assert StatusOk(files, statuses, live, i);
    if live(sha).Some? {
      LiveStays(files, statuses, folders, listed, live, sha);
    } else if statuses[i].Unique? {
      BadFilesStay(files, statuses, folders, listed, i);
    } else {
      var j :| 0 <= j < i && SameSha(files[j], files[i]) && statuses[j].Unique?;
      BadFilesStay(files, statuses, folders, listed, j);
    }
  }

  /** The copy the comparison relies on for a content: a live one elsewhere, or else the file recorded as
      unique. */
  predicate Keeper(files: seq<NewFile>, statuses: seq<Status>, live: Sha -> Option<Path>, sha: Sha, p: Path)
    requires |statuses| == |files|
  {
    if live(sha).Some? then p == live(sha).value
    else exists j :: 0 <= j < |files| && files[j].sha == Some(sha) && statuses[j].Unique? && files[j].path == p
  }

  /** Whatever the input folders and wherever the live copies are: every readable, non-empty content has one
      copy that the comparison relies on, and that copy goes with the listed folders exactly if some folder
      above it holds only repeats. */
  lemma KeeperGoesExactly(files: seq<NewFile>, statuses: seq<Status>, folders: set<Path>, listed: set<Path>,
                          live: Sha -> Option<Path>, i: nat) returns (p: Path)
    requires Classified(files, statuses, live) && ListsRepeats(files, statuses, folders, listed)
    requires i < |files| && Readable(files[i])
    ensures var sha := files[i].sha.value;
            Keeper(files, statuses, live, sha, p) && forall q :: Keeper(files, statuses, live, sha, q) ==> q == p
    ensures p[..1] in folders || (Covered(listed, p) <==> RepeatsAbove(files, statuses, folders, p))
  {
    var sha := files[i].sha.value;
    assert StatusOk(files, statuses, live, i);
    if live(sha).Some? {
      p := live(sha).value;
    } else {
      var first := i;
      if !statuses[i].Unique? { first :| 0 <= first < i && SameSha(files[first], files[i]) && statuses[first].Unique?; }
      p := files[first].path;
      forall j | 0 <= j < |files| && files[j].sha == Some(sha) && statuses[j].Unique? ensures j == first {
        assert StatusOk(files, statuses, live, j) && StatusOk(files, statuses, live, first);
      }
    }
    CoveredExactly(files, statuses, folders, listed, p);
  }

  /** The list of verified extractions is not filtered by the input folders. A verified copy inside one of them
      is a duplicate of itself, and the folder that holds it can be listed although nothing else has the
      content. */
  lemma VerifiedInsideLosesContent()
    returns (drive: seq<NewFile>, folders: seq<Path>, statuses: seq<Status>, live: Sha -> Option<Path>, d: Path)
    ensures Listed(drive, folders, drive) && Classified(drive, statuses, live) && |drive| == 1
    ensures Readable(drive[0]) && live(drive[0].sha.value) == Some(drive[0].path)
    ensures var inputs := set f | f in folders;
            Disjoint(inputs) && OnlyRepeats(drive, statuses, inputs, d) && !OnlyRepeats(drive, statuses, inputs, Parent(d))
    ensures Below(d, drive[0].path)
  {
    d := ["", "n"];
    var copy := NewFile(["", "n", "f"], 1, Some(1));
    drive, folders, statuses := [copy], [d], [Duplicate(Some(copy.path))];
    live := sha => if sha == 1 then Some(copy.path) else None;
    assert folders[..0] == [];
    forall p ensures Listings(folders, p) == if Below(d, p) then 1 else 0 {
      assert Listings(folders[..0], p) == 0;
    }
    var inputs := set f | f in folders;
    assert inputs == {d} && Below(d, copy.path) && AtOrBelow(d, d) && Inside(inputs, d);
    assert Reaches(inputs, d, drive[0].path);
    assert !Inside(inputs, Parent(d));
  }

  /** With one input folder inside another the climb of the inner folder's files ends there, so the outer
      folder can be listed although it holds an only copy. The two walks list that file twice, the second
      time as a repeat of itself. */
  lemma NestedFoldersLoseContent()
    returns (drive: seq<NewFile>, folders: seq<Path>, files: seq<NewFile>, statuses: seq<Status>, d: Path)
    ensures Listed(files, folders, drive) && |files| == 3
    ensures Classified(files, statuses, sha => if sha == 2 then Some(["elsewhere"]) else None)
    ensures var inputs := set f | f in folders;
            OnlyRepeats(files, statuses, inputs, d) && !OnlyRepeats(files, statuses, inputs, Parent(d))
    ensures statuses[0].Unique? && Below(d, files[0].path) && files[0] == files[1]
    ensures forall j :: 0 <= j < |files| && SameSha(files[j], files[0]) ==> Below(d, files[j].path)
  {
    d := ["", "n"];
    var inner: Path := ["", "n", "a"];
    var only, other := NewFile(["", "n", "a", "f"], 1, Some(1)), NewFile(["", "n", "g"], 1, Some(2));
    drive, folders, files := [only, other], [d, inner], [only, only, other];
    statuses := [Unique, Repeat(only.path), Duplicate(Some(["elsewhere"]))];
    TwoWalks(d, inner, only, other);
    var inputs := set f | f in folders;
    assert d in inputs && inner in inputs && Below(inner, only.path) && Below(d, inner);
    assert !Reaches(inputs, d, only.path);
    assert AtOrBelow(d, d) && Inside(inputs, d);
    assert Reaches(inputs, d, files[2].path) by { assert !Below(d, d); assert !Below(inner, files[2].path); }
    assert !Inside(inputs, Parent(d));
  }

  lemma TwoWalks(outer: Path, inner: Path, only: NewFile, other: NewFile)
    requires only != other && Below(outer, only.path) && Below(inner, only.path)
    requires Below(outer, other.path) && !Below(inner, other.path)
    ensures Listed([only, only, other], [outer, inner], [only, other])
  {
    var folders := [outer, inner];
    assert folders[..1] == [outer] && folders[..1][..0] == [];
    forall p ensures Listings(folders, p) == (if Below(outer, p) then 1 else 0) + (if Below(inner, p) then 1 else 0) {
      assert Listings(folders, p) == Listings([outer], p) + if Below(inner, p) then 1 else 0;
      assert Listings([outer], p) == Listings([], p) + if Below(outer, p) then 1 else 0;
    }
    assert [only, only, other] == [only] + [only] + [other];
    forall f: NewFile ensures multiset([only, only, other])[f] == if f in [only, other] then Listings(folders, f.path) else 0 {}
  }
}
