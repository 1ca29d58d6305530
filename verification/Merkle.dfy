/** Merkle fingerprints of folders: two folders get the same fingerprint exactly when they hold the
    same files under the same relative names. */
module Merkle {
  import opened Collections

  type Sha = nat
  type Digest = nat

  /** A folder as its components; "" is `[""]`, "x" is `["x"]`, "/a" is `["", "a"]`. */
  type Dir = p: seq<string> | |p| > 0 witness [""]

  /** A file below some folder, by its path relative to it. */
  datatype Item = Item(path: seq<string>, sha: Sha)

  /** One line of what is hashed for a folder. */
  datatype Line = FileLine(name: string, sha: Sha) | DirLine(name: string, digest: Digest)

  /** The hash of the sorted lines, taken as injective: sorting makes it a function of the multiset. */
  type Hash = multiset<Line> -> Digest

  ghost predicate Injective(hash: Hash)
  {
    forall a, b :: hash(a) == hash(b) ==> a == b
  }

  predicate Named(items: seq<Item>)
  {
    forall i :: 0 <= i < |items| ==> |items[i].path| > 0
  }

  // ----- what a fingerprint stands for -----------------------------------------------------------

  function FileLines(items: seq<Item>): seq<Line>
    decreases |items|
  {
    if items == [] then [] else
      var rest := FileLines(items[1..]);
      if |items[0].path| == 1 then [FileLine(items[0].path[0], items[0].sha)] + rest else rest
  }

  /** The files inside the direct subfolder `name`, relative to it. */
  function Inside(items: seq<Item>, name: string): seq<Item>
    decreases |items|
  {
    if items == [] then [] else
      var rest := Inside(items[1..], name);
      if |items[0].path| >= 2 && items[0].path[0] == name then [Item(items[0].path[1..], items[0].sha)] + rest else rest
  }

  function Subfolders(items: seq<Item>): set<string>
  {
    set i | 0 <= i < |items| && |items[i].path| >= 2 :: items[i].path[0]
  }

  function TotalLength(items: seq<Item>): nat
    decreases |items|
  {
    if items == [] then 0 else |items[0].path| + TotalLength(items[1..])
  }

  lemma {:induction false} InsideIsSmaller(items: seq<Item>, name: string)
    ensures TotalLength(Inside(items, name)) + |Inside(items, name)| <= TotalLength(items)
    ensures name in Subfolders(items) <==> Inside(items, name) != []
    ensures Named(Inside(items, name))
    decreases |items|
  {
    if items != [] {
      InsideIsSmaller(items[1..], name);
      if name in Subfolders(items) && !(|items[0].path| >= 2 && items[0].path[0] == name) {
        var i :| 0 <= i < |items| && |items[i].path| >= 2 && items[i].path[0] == name;
        assert items[1..][i - 1] == items[i];
      }
      if name in Subfolders(items[1..]) {
        var i :| 0 <= i < |items[1..]| && |items[1..][i].path| >= 2 && items[1..][i].path[0] == name;
        assert items[i + 1] == items[1..][i];
      }
    }
  }

  ghost function DirLines(hash: Hash, items: seq<Item>): set<Line>
    decreases TotalLength(items), 1
  {
    set name | name in Subfolders(items) :: DirLine(name, SubfolderPrint(hash, items, name))
  }

  ghost function SubfolderPrint(hash: Hash, items: seq<Item>, name: string): Digest
    requires name in Subfolders(items)
    decreases TotalLength(items), 0
  {
    InsideIsSmaller(items, name);
    Fingerprint(hash, Inside(items, name))
  }

  ghost function Lines(hash: Hash, items: seq<Item>): multiset<Line>
    decreases TotalLength(items), 2
  {
    multiset(FileLines(items)) + multiset(DirLines(hash, items))
  }

  ghost function Fingerprint(hash: Hash, items: seq<Item>): Digest
    decreases TotalLength(items), 3
  {
    hash(Lines(hash, items))
  }

  lemma {:induction false} FileLineCount(items: seq<Item>, name: string, sha: Sha)
    ensures multiset(FileLines(items))[FileLine(name, sha)] == multiset(items)[Item([name], sha)]
    ensures forall d :: multiset(FileLines(items))[DirLine(name, d)] == 0
    decreases |items|
  {
    if items != [] {
      FileLineCount(items[1..], name, sha);
      assert items == [items[0]] + items[1..];
      if |items[0].path| == 1 { assert items[0].path == [items[0].path[0]]; }
    }
  }

  lemma {:induction false} InsideCount(items: seq<Item>, name: string, path: seq<string>, sha: Sha)
    requires |path| > 0
    ensures multiset(Inside(items, name))[Item(path, sha)] == multiset(items)[Item([name] + path, sha)]
    decreases |items|
  {
    if items != [] {
      InsideCount(items[1..], name, path, sha);
      assert items == [items[0]] + items[1..];
      if |items[0].path| >= 2 { assert items[0].path == [items[0].path[0]] + items[0].path[1..]; }
    }
  }

  lemma NoEmptyPath(items: seq<Item>, sha: Sha)
    requires Named(items)
    ensures multiset(items)[Item([], sha)] == 0
  {
    assert Item([], sha) !in items;
  }

  // ----- equal content gives equal fingerprints -------------------------------------------------------

  lemma SameInside(a: seq<Item>, b: seq<Item>, name: string)
    requires multiset(a) == multiset(b)
    ensures multiset(Inside(a, name)) == multiset(Inside(b, name))
  {
    InsideIsSmaller(a, name);
    InsideIsSmaller(b, name);
    forall item: Item ensures multiset(Inside(a, name))[item] == multiset(Inside(b, name))[item] {
      if item.path == [] {
        NoEmptyPath(Inside(a, name), item.sha);
        NoEmptyPath(Inside(b, name), item.sha);
      } else {
        InsideCount(a, name, item.path, item.sha);
        InsideCount(b, name, item.path, item.sha);
      }
    }
  }

  lemma SameFileLines(a: seq<Item>, b: seq<Item>)
    requires multiset(a) == multiset(b)
    ensures multiset(FileLines(a)) == multiset(FileLines(b))
  {
    forall line: Line ensures multiset(FileLines(a))[line] == multiset(FileLines(b))[line] {
      FileLineCount(a, line.name, if line.FileLine? then line.sha else 0);
      FileLineCount(b, line.name, if line.FileLine? then line.sha else 0);
    }
  }

  lemma {:induction false} SameContentSamePrint(hash: Hash, a: seq<Item>, b: seq<Item>)
    requires multiset(a) == multiset(b)
    ensures Fingerprint(hash, a) == Fingerprint(hash, b)
    decreases TotalLength(a)
  {
    SameFileLines(a, b);
    forall name ensures name in Subfolders(a) <==> name in Subfolders(b)
    {
      SubfoldersByContent(a, b, name);
      SubfoldersByContent(b, a, name);
    }
    forall name | name in Subfolders(a) ensures SubfolderPrint(hash, a, name) == SubfolderPrint(hash, b, name) {
      InsideIsSmaller(a, name);
      SameInside(a, b, name);
      SameContentSamePrint(hash, Inside(a, name), Inside(b, name));
    }
    assert DirLines(hash, a) == DirLines(hash, b);
  }

  lemma SubfoldersByContent(a: seq<Item>, b: seq<Item>, name: string)
    requires multiset(Inside(a, name)) == multiset(Inside(b, name)) || multiset(a) == multiset(b)
    ensures name in Subfolders(a) ==> name in Subfolders(b)
  {
    if multiset(a) == multiset(b) { SameInside(a, b, name); }
    InsideIsSmaller(a, name);
    InsideIsSmaller(b, name);
    if name in Subfolders(a) {
      assert Inside(a, name)[0] in multiset(Inside(b, name));
    }
  }

  // ----- equal fingerprints mean equal content ----------------------------------------------------------

  lemma SplitLines(hash: Hash, a: seq<Item>, b: seq<Item>)
    requires Lines(hash, a) == Lines(hash, b)
    ensures multiset(FileLines(a)) == multiset(FileLines(b)) && DirLines(hash, a) == DirLines(hash, b)
  {
    forall line: Line
      ensures multiset(FileLines(a))[line] == multiset(FileLines(b))[line] && (line in DirLines(hash, a) <==> line in DirLines(hash, b))
    {
      FileLineCount(a, line.name, if line.FileLine? then line.sha else 0);
      FileLineCount(b, line.name, if line.FileLine? then line.sha else 0);
      assert Lines(hash, a)[line] == multiset(FileLines(a))[line] + multiset(DirLines(hash, a))[line];
      assert Lines(hash, b)[line] == multiset(FileLines(b))[line] + multiset(DirLines(hash, b))[line];
    }
  }

  lemma {:induction false} SamePrintSameContent(hash: Hash, a: seq<Item>, b: seq<Item>)
    requires Injective(hash) && Named(a) && Named(b) && Fingerprint(hash, a) == Fingerprint(hash, b)
    ensures multiset(a) == multiset(b)
    decreases TotalLength(a)
  {
    SplitLines(hash, a, b);
    forall name ensures multiset(Inside(a, name)) == multiset(Inside(b, name)) {
      SamePrintSameInside(hash, a, b, name);
    }
    forall item: Item ensures multiset(a)[item] == multiset(b)[item] {
      if item.path == [] {
        NoEmptyPath(a, item.sha);
        NoEmptyPath(b, item.sha);
      } else if |item.path| == 1 {
        FileLineCount(a, item.path[0], item.sha);
        FileLineCount(b, item.path[0], item.sha);
        assert item == Item([item.path[0]], item.sha);
      } else {
        InsideCount(a, item.path[0], item.path[1..], item.sha);
        InsideCount(b, item.path[0], item.path[1..], item.sha);
        assert item.path == [item.path[0]] + item.path[1..];
      }
    }
  }

  lemma SameSubfolders(hash: Hash, a: seq<Item>, b: seq<Item>, name: string)
    requires DirLines(hash, a) == DirLines(hash, b) && name in Subfolders(a)
    ensures name in Subfolders(b) && SubfolderPrint(hash, a, name) == SubfolderPrint(hash, b, name)
  {
    assert DirLine(name, SubfolderPrint(hash, a, name)) in DirLines(hash, b);
  }

  lemma {:induction false} SamePrintSameInside(hash: Hash, a: seq<Item>, b: seq<Item>, name: string)
    requires Injective(hash) && DirLines(hash, a) == DirLines(hash, b)
    ensures multiset(Inside(a, name)) == multiset(Inside(b, name))
    decreases TotalLength(a), 0
  {
    InsideIsSmaller(a, name);
    InsideIsSmaller(b, name);
    if name in Subfolders(b) { SameSubfolders(hash, b, a, name); }
    if name in Subfolders(a) {
      SameSubfolders(hash, a, b, name);
      SamePrintSameContent(hash, Inside(a, name), Inside(b, name));
    }
  }

  /** Fingerprints are canonical: equal exactly for equal relative paths with equal content hashes,
      counted with repetition, whatever order the files were added in. */
  lemma FingerprintsAreCanonical(hash: Hash, a: seq<Item>, b: seq<Item>)
    requires Injective(hash) && Named(a) && Named(b)
    ensures Fingerprint(hash, a) == Fingerprint(hash, b) <==> multiset(a) == multiset(b)
  {
    if multiset(a) == multiset(b) { SameContentSamePrint(hash, a, b); }
    if Fingerprint(hash, a) == Fingerprint(hash, b) { SamePrintSameContent(hash, a, b); }
  }

  // ----- the tree the script builds --------------------------------------------------------------------

  datatype Entry = Entry(name: string, sha: Sha, size: nat)
  datatype Add = Add(dir: Dir, entry: Entry)

  /** `d` is `e` or lies above it. */
  predicate AtOrAbove(d: Dir, e: Dir)
  {
    |d| <= |e| && e[..|d|] == d
  }

  function Entries(added: seq<Add>, d: Dir): seq<Entry>
    decreases |added|
  {
    if added == [] then [] else
      var n := |added| - 1;
      Entries(added[..n], d) + if added[n].dir == d then [added[n].entry] else []
  }

  predicate HoldsFiles(added: seq<Add>, d: Dir)
  {
    exists i :: 0 <= i < |added| && AtOrAbove(d, added[i].dir)
  }

  /** The files below `d`, relative to it, in the order they were added. */
  function Relative(added: seq<Add>, d: Dir): (r: seq<Item>)
    ensures Named(r)
    decreases |added|
  {
    if added == [] then [] else
      var n := |added| - 1;
      Relative(added[..n], d) +
        if AtOrAbove(d, added[n].dir) then [Item(added[n].dir[|d|..] + [added[n].entry.name], added[n].entry.sha)] else []
  }

  function Up(d: Dir): Dir
    requires |d| >= 2
  {
    d[..|d| - 1]
  }

  lemma HoldsMore(added: seq<Add>, a: Add, d: Dir)
    ensures HoldsFiles(added + [a], d) <==> HoldsFiles(added, d) || AtOrAbove(d, a.dir)
  {
    if HoldsFiles(added, d) {
      var i :| 0 <= i < |added| && AtOrAbove(d, added[i].dir);
      assert (added + [a])[i] == added[i];
    }
    if AtOrAbove(d, a.dir) { assert (added + [a])[|added|] == a; }
  }

  lemma AboveHolds(added: seq<Add>, d: Dir, e: Dir)
    requires HoldsFiles(added, e) && AtOrAbove(d, e)
    ensures HoldsFiles(added, d)
  {
    var i :| 0 <= i < |added| && AtOrAbove(e, added[i].dir);
    assert added[i].dir[..|e|][..|d|] == added[i].dir[..|d|];
  }

  function Kids(dirs: map<Dir, set<Dir>>, d: Dir): set<Dir>
  {
    if d in dirs then dirs[d] else {}
  }

  /** `c` is registered exactly if it held files before, or lies on the way up from `dir` and is deeper
      than `level`. */
  ghost predicate RegisteredTo(dirs: map<Dir, set<Dir>>, before: seq<Add>, dir: Dir, level: nat)
  {
    forall p: Dir, c: Dir :: c in Kids(dirs, p) <==>
      |c| == |p| + 1 && AtOrAbove(p, c) && (HoldsFiles(before, c) || (AtOrAbove(c, dir) && |c| > level))
  }

  ghost predicate NoneEmpty(dirs: map<Dir, set<Dir>>)
  {
    forall d: Dir :: d in dirs ==> dirs[d] != {}
  }

  lemma StartsRegistered(dirs: map<Dir, set<Dir>>, before: seq<Add>, dir: Dir)
    requires forall p: Dir, c: Dir :: c in Kids(dirs, p) <==> |c| == |p| + 1 && AtOrAbove(p, c) && HoldsFiles(before, c)
    ensures RegisteredTo(dirs, before, dir, |dir|)
  {}

  lemma RegisterOne(dirs: map<Dir, set<Dir>>, before: seq<Add>, dir: Dir, node: Dir)
    requires RegisteredTo(dirs, before, dir, |node|) && AtOrAbove(node, dir) && |node| >= 2
    ensures RegisteredTo(dirs[Up(node) := Kids(dirs, Up(node)) + {node}], before, dir, |node| - 1)
    ensures AtOrAbove(Up(node), dir)
  {
    assert dir[..|node|][..|node| - 1] == dir[..|node| - 1];
    var dirs' := dirs[Up(node) := Kids(dirs, Up(node)) + {node}];
    forall p: Dir, c: Dir
      ensures c in Kids(dirs', p) <==>
              |c| == |p| + 1 && AtOrAbove(p, c) && (HoldsFiles(before, c) || (AtOrAbove(c, dir) && |c| > |node| - 1))
    {
      assert c in Kids(dirs', p) <==> c in Kids(dirs, p) || (p == Up(node) && c == node);
      if |c| == |node| && AtOrAbove(c, dir) { assert c == node; }
    }
  }

  /** Where the climb stops everything further up is registered already. */
  lemma RegisteredEnough(dirs: map<Dir, set<Dir>>, before: seq<Add>, a: Add, node: Dir)
    requires RegisteredTo(dirs, before, a.dir, |node|) && AtOrAbove(node, a.dir)
    requires |node| >= 2 ==> HoldsFiles(before, node)
    ensures forall p: Dir, c: Dir :: c in Kids(dirs, p) <==> |c| == |p| + 1 && AtOrAbove(p, c) && HoldsFiles(before + [a], c)
  {
    forall p: Dir, c: Dir ensures c in Kids(dirs, p) <==> |c| == |p| + 1 && AtOrAbove(p, c) && HoldsFiles(before + [a], c) {
      HoldsMore(before, a, c);
      if AtOrAbove(c, a.dir) && |c| <= |node| {
        assert AtOrAbove(c, node) by { assert a.dir[..|node|][..|c|] == a.dir[..|c|]; }
        if |node| >= 2 { AboveHolds(before, c, node); }
      }
    }
  }

  // ----- a folder's fingerprint from its own files and its subfolders ------------------------------------

  lemma {:induction false} FileLinesAppend(a: seq<Item>, b: seq<Item>)
    ensures FileLines(a + b) == FileLines(a) + FileLines(b)
    decreases |a|
  {
    if a == [] {
      assert a + b == b;
    } else {
      assert (a + b)[1..] == a[1..] + b;
      FileLinesAppend(a[1..], b);
    }
  }

  lemma {:induction false} InsideAppend(a: seq<Item>, b: seq<Item>, name: string)
    ensures Inside(a + b, name) == Inside(a, name) + Inside(b, name)
    decreases |a|
  {
    if a == [] {
      assert a + b == b;
    } else {
      assert (a + b)[1..] == a[1..] + b;
      InsideAppend(a[1..], b, name);
    }
  }

  function EntryLines(entries: seq<Entry>): seq<Line>
  {
    seq(|entries|, i requires 0 <= i < |entries| => FileLine(entries[i].name, entries[i].sha))
  }

  /** The relative path of one added file, if it lies below `d`. */
  function ItemOf(a: Add, d: Dir): seq<Item>
  {
    if AtOrAbove(d, a.dir) then [Item(a.dir[|d|..] + [a.entry.name], a.entry.sha)] else []
  }

  lemma {:induction false} OwnFileLines(added: seq<Add>, d: Dir)
    ensures FileLines(Relative(added, d)) == EntryLines(Entries(added, d))
    decreases |added|
  {
    if added != [] {
      var n := |added| - 1;
      OwnFileLines(added[..n], d);
      FileLinesAppend(Relative(added[..n], d), ItemOf(added[n], d));
      if added[n].dir == d {
        assert added[n].dir[|d|..] == [];
        assert FileLines(ItemOf(added[n], d)) == [FileLine(added[n].entry.name, added[n].entry.sha)];
      } else {
        assert AtOrAbove(d, added[n].dir) ==> |added[n].dir[|d|..]| > 0;
        assert FileLines(ItemOf(added[n], d)) == [];
      }
    }
  }

  lemma ItemInside(a: Add, d: Dir, name: string)
    ensures Inside(ItemOf(a, d), name) == ItemOf(a, d + [name])
  {
    var c := d + [name];
    if AtOrAbove(c, a.dir) {
      assert a.dir[..|c|][..|d|] == d && a.dir[|d|..][0] == a.dir[..|c|][|d|];
      assert (a.dir[|d|..] + [a.entry.name])[1..] == a.dir[|c|..] + [a.entry.name];
    }
  }

  lemma {:induction false} InsideRelative(added: seq<Add>, d: Dir, name: string)
    ensures Inside(Relative(added, d), name) == Relative(added, d + [name])
    decreases |added|
  {
    if added != [] {
      var n := |added| - 1;
      InsideRelative(added[..n], d, name);
      InsideAppend(Relative(added[..n], d), ItemOf(added[n], d), name);
      ItemInside(added[n], d, name);
    }
  }

  lemma {:induction false} RelativeHolds(added: seq<Add>, d: Dir)
    ensures Relative(added, d) != [] <==> HoldsFiles(added, d)
    decreases |added|
  {
    if added != [] {
      var n := |added| - 1;
      RelativeHolds(added[..n], d);
      assert added == added[..n] + [added[n]];
      HoldsMore(added[..n], added[n], d);
    }
  }

  /** The subfolders of `d` are the last components of the folders registered with it. */
  lemma SubfoldersAreKids(added: seq<Add>, d: Dir, name: string)
    ensures name in Subfolders(Relative(added, d)) <==> HoldsFiles(added, d + [name])
  {
    InsideIsSmaller(Relative(added, d), name);
    InsideRelative(added, d, name);
    RelativeHolds(added, d + [name]);
  }

  // ----- counts -----------------------------------------------------------------------------------------

  type Weight = Entry -> nat

  function Below(added: seq<Add>, d: Dir, weight: Weight): nat
    decreases |added|
  {
    if added == [] then 0 else
      var n := |added| - 1;
      Below(added[..n], d, weight) + if AtOrAbove(d, added[n].dir) then weight(added[n].entry) else 0
  }

  function Own(entries: seq<Entry>, weight: Weight): nat
    decreases |entries|
  {
    if entries == [] then 0 else Own(entries[..|entries| - 1], weight) + weight(entries[|entries| - 1])
  }

  function BelowAt(added: seq<Add>, weight: Weight): Dir -> int
  {
    (d: Dir) => Below(added, d, weight)
  }

  predicate ChildOf(c: Dir, d: Dir)
  {
    |c| == |d| + 1 && AtOrAbove(d, c)
  }

  lemma KidsGain(added: seq<Add>, d: Dir, kids: set<Dir>, weight: Weight)
    requires added != [] && forall c :: c in kids ==> ChildOf(c, d)
    requires forall c: Dir :: ChildOf(c, d) && HoldsFiles(added, c) ==> c in kids
    ensures var last := added[|added| - 1];
            Sum(kids, BelowAt(added, weight)) == Sum(kids, BelowAt(added[..|added| - 1], weight)) +
              if AtOrAbove(d, last.dir) && last.dir != d then weight(last.entry) else 0
  {
    var last := added[|added| - 1];
    forall e | e in kids && AtOrAbove(e, last.dir) ensures AtOrAbove(d, last.dir) && last.dir != d {
      assert last.dir[..|e|][..|d|] == last.dir[..|d|];
    }
    if AtOrAbove(d, last.dir) && last.dir != d {
      var c: Dir := last.dir[..|d| + 1];
      assert ChildOf(c, d) by { assert last.dir[..|d| + 1][..|d|] == last.dir[..|d|]; }
      assert HoldsFiles(added, c);
      forall e | e in kids && e != c ensures BelowAt(added, weight)(e) == BelowAt(added[..|added| - 1], weight)(e) {}
      SumChange(kids, c, BelowAt(added[..|added| - 1], weight), BelowAt(added, weight));
    } else {
      forall e | e in kids ensures BelowAt(added, weight)(e) == BelowAt(added[..|added| - 1], weight)(e) {}
      SumSame(kids, BelowAt(added[..|added| - 1], weight), BelowAt(added, weight));
    }
  }

  /** What lies below a folder is its own files plus what lies below its subfolders. */
  lemma {:induction false} BelowSplits(added: seq<Add>, d: Dir, kids: set<Dir>, weight: Weight)
    requires forall c :: c in kids ==> ChildOf(c, d)
    requires forall c: Dir :: ChildOf(c, d) && HoldsFiles(added, c) ==> c in kids
    ensures Below(added, d, weight) == Own(Entries(added, d), weight) + Sum(kids, BelowAt(added, weight))
    decreases |added|
  {
    if added == [] {
      SumOfZeros(kids, BelowAt([], weight));
    } else {
      var n := |added| - 1;
      assert added == added[..n] + [added[n]];
      forall c: Dir | ChildOf(c, d) && HoldsFiles(added[..n], c) ensures c in kids { HoldsMore(added[..n], added[n], c); }
      BelowSplits(added[..n], d, kids, weight);
      KidsGain(added, d, kids, weight);
      if added[n].dir == d {
        var entries := Entries(added, d);
        assert entries[..|entries| - 1] == Entries(added[..n], d);
      } else {
        assert Entries(added, d) == Entries(added[..n], d);
      }
    }
  }

  const ONE: Weight := (e: Entry) => 1
  const SIZE: Weight := (e: Entry) => e.size

  datatype Print = Print(digest: Digest, files: nat, bytes: nat)

  /** What the script should report for a folder. */
  ghost function PrintOf(hash: Hash, added: seq<Add>, d: Dir): Print
  {
    Print(Fingerprint(hash, Relative(added, d)), Below(added, d, ONE), Below(added, d, SIZE))
  }

  ghost function KidLine(hash: Hash, added: seq<Add>, c: Dir): Line
  {
    DirLine(c[|c| - 1], Fingerprint(hash, Relative(added, c)))
  }

  ghost function KidLines(hash: Hash, added: seq<Add>, kids: set<Dir>): set<Line>
  {
    set c | c in kids :: KidLine(hash, added, c)
  }

  lemma KidName(c: Dir, d: Dir)
    requires ChildOf(c, d)
    ensures c == d + [c[|c| - 1]]
  {}

  lemma KidPrint(hash: Hash, added: seq<Add>, d: Dir, name: string)
    requires name in Subfolders(Relative(added, d))
    ensures DirLine(name, SubfolderPrint(hash, Relative(added, d), name)) == KidLine(hash, added, d + [name])
  {
    InsideRelative(added, d, name);
  }

  lemma KidLinesAreDirLines(hash: Hash, added: seq<Add>, d: Dir, kids: set<Dir>)
    requires forall c: Dir :: c in kids <==> ChildOf(c, d) && HoldsFiles(added, c)
    ensures KidLines(hash, added, kids) == DirLines(hash, Relative(added, d))
  {
    var items := Relative(added, d);
    forall line | line in KidLines(hash, added, kids) ensures line in DirLines(hash, items) {
      var c :| c in kids && line == KidLine(hash, added, c);
      KidName(c, d);
      SubfoldersAreKids(added, d, c[|c| - 1]);
      KidPrint(hash, added, d, c[|c| - 1]);
    }
    forall line | line in DirLines(hash, items) ensures line in KidLines(hash, added, kids) {
      var name :| name in Subfolders(items) && line == DirLine(name, SubfolderPrint(hash, items, name));
      SubfoldersAreKids(added, d, name);
      KidPrint(hash, added, d, name);
      assert ChildOf(d + [name], d);
    }
  }

  lemma NewKidLine(hash: Hash, added: seq<Add>, d: Dir, done: set<Dir>, c: Dir)
    requires ChildOf(c, d) && c !in done && forall e :: e in done ==> ChildOf(e, d)
    ensures multiset(KidLines(hash, added, done + {c})) == multiset(KidLines(hash, added, done)) + multiset{KidLine(hash, added, c)}
  {
    forall e | e in done ensures KidLine(hash, added, e) != KidLine(hash, added, c) {
      KidName(c, d);
      KidName(e, d);
    }
    assert KidLines(hash, added, done + {c}) == KidLines(hash, added, done) + {KidLine(hash, added, c)};
  }

  lemma PrintFromParts(hash: Hash, added: seq<Add>, d: Dir, kids: set<Dir>)
    requires forall c: Dir :: c in kids <==> ChildOf(c, d) && HoldsFiles(added, c)
    ensures var entries := Entries(added, d);
            PrintOf(hash, added, d).digest == hash(multiset(EntryLines(entries)) + multiset(KidLines(hash, added, kids))) &&
            PrintOf(hash, added, d).files == Own(entries, ONE) + Sum(kids, BelowAt(added, ONE)) &&
            PrintOf(hash, added, d).bytes == Own(entries, SIZE) + Sum(kids, BelowAt(added, SIZE))
  {
    OwnFileLines(added, d);
    KidLinesAreDirLines(hash, added, d, kids);
    BelowSplits(added, d, kids, ONE);
    BelowSplits(added, d, kids, SIZE);
    var items := Relative(added, d);
    assert Lines(hash, items) == multiset(EntryLines(Entries(added, d))) + multiset(KidLines(hash, added, kids));
    assert Fingerprint(hash, items) == hash(Lines(hash, items));
  }

  /** The lines collected for a folder so far, and its running counts. */
  datatype Parts = Parts(lines: multiset<Line>, files: int, bytes: int)

  function AddKid(parts: Parts, c: Dir, p: Print): Parts
  {
    Parts(parts.lines + multiset{DirLine(c[|c| - 1], p.digest)}, parts.files + p.files, parts.bytes + p.bytes)
  }

  ghost predicate KidsDone(hash: Hash, added: seq<Add>, done: set<Dir>, parts: Parts)
  {
    parts == Parts(multiset(KidLines(hash, added, done)), Sum(done, BelowAt(added, ONE)), Sum(done, BelowAt(added, SIZE)))
  }

  lemma KidDone(hash: Hash, added: seq<Add>, d: Dir, done: set<Dir>, parts: Parts, c: Dir, p: Print)
    requires KidsDone(hash, added, done, parts) && p == PrintOf(hash, added, c)
    requires ChildOf(c, d) && c !in done && forall e :: e in done ==> ChildOf(e, d)
    ensures KidsDone(hash, added, done + {c}, AddKid(parts, c, p))
  {
    NewKidLine(hash, added, d, done, c);
    SumAdd(done, c, BelowAt(added, ONE));
    SumAdd(done, c, BelowAt(added, SIZE));
  }

  ghost predicate KidPrinted(hash: Hash, added: seq<Add>, d: Dir, c: Dir, out: map<Dir, Print>)
  {
    ChildOf(c, d) && c in out && out[c] == PrintOf(hash, added, c)
  }

  ghost predicate KidsPrinted(hash: Hash, added: seq<Add>, d: Dir, kids: set<Dir>, out: map<Dir, Print>)
  {
    kids <= out.Keys && forall e :: e in kids ==> KidPrinted(hash, added, d, e, out)
  }

  lemma NextKid(hash: Hash, added: seq<Add>, d: Dir, kids: set<Dir>, todo: set<Dir>, out: map<Dir, Print>,
                parts: Parts, c: Dir)
    requires KidsPrinted(hash, added, d, kids, out) && KidsDone(hash, added, kids - todo, parts) && c in todo
    requires todo <= kids
    ensures KidsDone(hash, added, kids - (todo - {c}), AddKid(parts, c, out[c]))
  {
    assert KidPrinted(hash, added, d, c, out);
    forall e | e in kids - todo ensures ChildOf(e, d) { assert KidPrinted(hash, added, d, e, out); }
    KidDone(hash, added, d, kids - todo, parts, c, out[c]);
    assert kids - (todo - {c}) == kids - todo + {c};
  }

  lemma NoKids(hash: Hash, added: seq<Add>, kids: set<Dir>)
    ensures KidsDone(hash, added, kids - kids, Parts(multiset{}, 0, 0))
  {
    assert kids - kids == {} && KidLines(hash, added, {}) == {};
  }

  method KidEntries(hash: Hash, ghost added: seq<Add>, ghost d: Dir, kids: set<Dir>, out: map<Dir, Print>)
    returns (parts: Parts)
    requires KidsPrinted(hash, added, d, kids, out)
    ensures KidsDone(hash, added, kids, parts)
  {
    parts := Parts(multiset{}, 0, 0);
    var todo := kids;
    NoKids(hash, added, kids);
    while todo != {}
      invariant todo <= kids && KidsDone(hash, added, kids - todo, parts)
      decreases todo
    {
      var child :| child in todo;
      NextKid(hash, added, d, kids, todo, out, parts, child);
      parts := AddKid(parts, child, out[child]);
      todo := todo - {child};
    }
    assert kids - todo == kids;
  }

  class Tree {
    var files: map<Dir, seq<Entry>>
    var dirs: map<Dir, set<Dir>>
    ghost var added: seq<Add>

    function FilesOf(d: Dir): seq<Entry>
      reads this
    {
      if d in files then files[d] else []
    }

    ghost predicate FilesValid()
      reads this
    {
      forall d: Dir :: FilesOf(d) == Entries(added, d) && (d in files <==> Entries(added, d) != [])
    }

    /** A folder is registered with its parent exactly when some file lies at or below it: whenever a
        folder is registered, so are all folders above it. */
    ghost predicate DirsValid()
      reads this
    {
      forall p: Dir, c: Dir :: c in Kids(dirs, p) <==> |c| == |p| + 1 && AtOrAbove(p, c) && HoldsFiles(added, c)
    }

    ghost predicate Valid()
      reads this
    {
      FilesValid() && DirsValid() && NoneEmpty(dirs)
    }

    constructor ()
      ensures Valid() && added == []
    {
      files, dirs, added := map[], map[], [];
    }

    method AddFile(dir: Dir, entry: Entry)
      requires Valid()
      modifies this
      ensures Valid() && added == old(added) + [Add(dir, entry)]
    {
      files := files[dir := FilesOf(dir) + [entry]];
      ghost var before := added;
      added := added + [Add(dir, entry)];
      assert added[..|added| - 1] == before;
      StartsRegistered(dirs, before, dir);
      RegisterFolders(dir, before);
      assert DirsValid();
    }

    /** Climbs from `dir` and stops at the first folder that is registered already. */
    method RegisterFolders(dir: Dir, ghost before: seq<Add>)
      requires NoneEmpty(dirs) && RegisteredTo(dirs, before, dir, |dir|)
      modifies this`dirs
      ensures NoneEmpty(dirs)
      ensures forall a: Add, p: Dir, c: Dir :: a.dir == dir ==>
                (c in Kids(dirs, p) <==> |c| == |p| + 1 && AtOrAbove(p, c) && HoldsFiles(before + [a], c))
    {
      var node := dir;
      while |node| >= 2 && node !in Kids(dirs, Up(node))
        invariant AtOrAbove(node, dir) && NoneEmpty(dirs) && RegisteredTo(dirs, before, dir, |node|)
        decreases |node|
      {
        RegisterOne(dirs, before, dir, node);
        dirs := dirs[Up(node) := Kids(dirs, Up(node)) + {node}];
        node := Up(node);
      }
      forall a: Add | a.dir == dir
        ensures forall p: Dir, c: Dir :: c in Kids(dirs, p) <==> |c| == |p| + 1 && AtOrAbove(p, c) && HoldsFiles(before + [a], c)
      {
        RegisteredEnough(dirs, before, a, node);
      }
    }

    method OwnEntries(entries: seq<Entry>) returns (lines: multiset<Line>, nfiles: nat, nbytes: nat)
      ensures lines == multiset(EntryLines(entries)) && nfiles == Own(entries, ONE) && nbytes == Own(entries, SIZE)
    {
      lines, nfiles, nbytes := multiset{}, 0, 0;
      for i := 0 to |entries|
        invariant lines == multiset(EntryLines(entries[..i])) && nfiles == Own(entries[..i], ONE)
        invariant nbytes == Own(entries[..i], SIZE)
      {
        assert entries[..i + 1][..i] == entries[..i];
        assert EntryLines(entries[..i + 1]) == EntryLines(entries[..i]) + [FileLine(entries[i].name, entries[i].sha)];
        lines := lines + multiset{FileLine(entries[i].name, entries[i].sha)};
        nfiles, nbytes := nfiles + 1, nbytes + entries[i].size;
      }
      assert entries[..|entries|] == entries;
    }

    /** One folder, once all its subfolders have their fingerprints. */
    method PrintFolder(hash: Hash, d: Dir, out: map<Dir, Print>) returns (p: Print)
      requires Valid() && KidsPrinted(hash, added, d, Kids(dirs, d), out)
      ensures p == PrintOf(hash, added, d)
    {
      var ownLines, ownFiles, ownBytes := OwnEntries(FilesOf(d));
      var kids := KidEntries(hash, added, d, Kids(dirs, d), out);
      PrintFromParts(hash, added, d, Kids(dirs, d));
      assert ownFiles + kids.files == PrintOf(hash, added, d).files && ownBytes + kids.bytes == PrintOf(hash, added, d).bytes;
      p := Print(hash(ownLines + kids.lines), ownFiles + kids.files, ownBytes + kids.bytes);
    }

    lemma KeysHoldFiles(d: Dir)
      requires Valid()
      ensures d in files.Keys + dirs.Keys <==> HoldsFiles(added, d)
    {
      EntriesOrDeeper(added, d);
      if d in dirs {
        var c :| c in dirs[d];
        assert c in Kids(dirs, d);
        AboveHolds(added, d, c);
      }
      if c: Dir :| ChildOf(c, d) && HoldsFiles(added, c) { assert c in Kids(dirs, d); }
    }

    ghost predicate Printed(hash: Hash, out: map<Dir, Print>)
      reads this
    {
      forall d: Dir :: d in out ==> out[d] == PrintOf(hash, added, d)
    }

    /** Deepest folders first, so that every folder finds its subfolders' fingerprints ready. */
    method Fingerprints(hash: Hash) returns (out: map<Dir, Print>)
      requires Valid()
      ensures Printed(hash, out) && forall d: Dir :: d in out <==> HoldsFiles(added, d)
    {
      out := map[];
      var keys := files.Keys + dirs.Keys;
      var todo := keys;
      while todo != {}
        invariant todo <= keys && out.Keys == keys - todo && Printed(hash, out)
        invariant forall d: Dir, e: Dir :: d in out && e in todo ==> |e| <= |d|
        decreases todo
      {
        var d := Deepest(todo);
        KidsAreReady(hash, d, todo, out);
        var p := PrintFolder(hash, d, out);
        out := out[d := p];
        todo := todo - {d};
      }
      forall d: Dir ensures d in keys <==> HoldsFiles(added, d) { KeysHoldFiles(d); }
    }

    lemma KidsAreReady(hash: Hash, d: Dir, todo: set<Dir>, out: map<Dir, Print>)
      requires Valid() && Printed(hash, out) && out.Keys == files.Keys + dirs.Keys - todo && forall e :: e in todo ==> |e| <= |d|
      ensures KidsPrinted(hash, added, d, Kids(dirs, d), out)
    {
      forall c: Dir | c in Kids(dirs, d) ensures KidPrinted(hash, added, d, c, out) { KeysHoldFiles(c); }
    }
  }

  method Deepest(todo: set<Dir>) returns (d: Dir)
    requires todo != {}
    ensures d in todo && forall e :: e in todo ==> |e| <= |d|
  {
    ghost var first := LeastExists(todo, (e: Dir) => 0 - |e|);
    d :| d in todo && forall e :: e in todo ==> |e| <= |d|;
  }

  lemma {:induction false} EntriesOrDeeper(added: seq<Add>, d: Dir)
    ensures HoldsFiles(added, d) <==> Entries(added, d) != [] || exists c: Dir :: ChildOf(c, d) && HoldsFiles(added, c)
    decreases |added|
  {
    if added != [] {
      var n := |added| - 1;
      assert added == added[..n] + [added[n]];
      EntriesOrDeeper(added[..n], d);
      HoldsMore(added[..n], added[n], d);
      forall c: Dir ensures HoldsFiles(added, c) <==> HoldsFiles(added[..n], c) || AtOrAbove(c, added[n].dir) {
        HoldsMore(added[..n], added[n], c);
      }
      if AtOrAbove(d, added[n].dir) && added[n].dir != d {
        var c: Dir := added[n].dir[..|d| + 1];
        assert ChildOf(c, d) by { assert c[..|d|] == added[n].dir[..|d|]; }
        assert HoldsFiles(added, c);
      }
      if c: Dir :| ChildOf(c, d) && AtOrAbove(c, added[n].dir) {
        assert added[n].dir[..|c|][..|d|] == added[n].dir[..|d|];
      }
    }
  }

  /** Two folders, of one tree or of two, get the same fingerprint exactly when the files below them have
      the same relative paths and the same content. */
  lemma FoldersComparedByContent(hash: Hash, added: seq<Add>, d: Dir, added': seq<Add>, d': Dir)
    requires Injective(hash)
    ensures PrintOf(hash, added, d).digest == PrintOf(hash, added', d').digest <==>
            multiset(Relative(added, d)) == multiset(Relative(added', d'))
  {
    FingerprintsAreCanonical(hash, Relative(added, d), Relative(added', d'));
  }

  // ----- the root of an archive ----------------------------------------------------------------------------

  const ROOT: Dir := [""]

  /** An archive member without a folder is added to "", and so in the end is one whose path begins with "/";
      one in a folder "x/y" is added to `["x", "y"]` and never reaches "". */
  predicate ReachesRoot(d: Dir)
  {
    d[0] == ""
  }

  /** The node reported as the archive's root covers the whole archive only if every member reaches it:
      members in folders do not. So two archives can be reported identical although they differ in a
      folder. */
  lemma {:induction false} ArchiveRootSeesTopFilesOnly(added: seq<Add>)
    ensures Below(added, ROOT, ONE) <= |added|
    ensures Below(added, ROOT, ONE) == |added| <==> forall i :: 0 <= i < |added| ==> ReachesRoot(added[i].dir)
    ensures (forall i :: 0 <= i < |added| && ReachesRoot(added[i].dir) ==> added[i].dir == ROOT) ==>
              Below(added, ROOT, ONE) == |Entries(added, ROOT)|
    decreases |added|
  {
    if added != [] {
      var n := |added| - 1;
      ArchiveRootSeesTopFilesOnly(added[..n]);
      assert forall i :: 0 <= i < n ==> added[..n][i] == added[i];
      if AtOrAbove(ROOT, added[n].dir) { assert added[n].dir[..1][0] == added[n].dir[0]; }
      if ReachesRoot(added[n].dir) { assert added[n].dir[..1] == ROOT; }
    }
  }

  lemma DifferentArchivesSameRootPrint(hash: Hash) returns (added: seq<Add>, added': seq<Add>)
    ensures forall a :: a in added + added' ==> a.dir == ROOT || !ReachesRoot(a.dir)
    ensures multiset(added) != multiset(added')
    ensures PrintOf(hash, added, ROOT) == PrintOf(hash, added', ROOT)
  {
    var top := Add(ROOT, Entry("readme", 1, 10));
    var inFolder := Add(["photos"], Entry("beach", 2, 20));
    added, added' := [top], [top, inFolder];
    assert added'[..1] == [top] && added[..0] == [];
    assert |multiset(added)| != |multiset(added')|;
    assert added'[1] == inFolder && !AtOrAbove(ROOT, inFolder.dir) by { assert inFolder.dir[..1][0] != ROOT[0]; }
    assert Relative(added', ROOT) == Relative(added'[..1], ROOT) + [] == Relative([top], ROOT);
    assert Below(added', ROOT, ONE) == Below([top], ROOT, ONE) && Below(added', ROOT, SIZE) == Below([top], ROOT, SIZE);
  }
}
