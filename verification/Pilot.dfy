/** The deterministic pilot: files of one type taken round-robin from the top-level folders, each
    folder's own files in checksum order. */
module Pilot {
  import opened Arithmetic
  import opened Collections
  import opened TextOrder

  /** `top` is the top-level folder the file lies in. */
  datatype File = File(path: string, checksum: string, top: string)

  /** A picked file and the folder it came from. */
  datatype Pick = Pick(folder: nat, file: File)

  function TotalLeft(queues: seq<seq<File>>): nat
    decreases |queues|
  {
    if queues == [] then 0 else TotalLeft(queues[..|queues| - 1]) + |queues[|queues| - 1]|
  }

  predicate AnyLeft(queues: seq<seq<File>>)
  {
    exists t :: 0 <= t < |queues| && queues[t] != []
  }

  lemma {:induction false} NoneLeft(queues: seq<seq<File>>)
    ensures TotalLeft(queues) == 0 <==> !AnyLeft(queues)
    decreases |queues|
  {
    if queues != [] {
      var n := |queues| - 1;
      NoneLeft(queues[..n]);
      if AnyLeft(queues[..n]) {
        var t :| 0 <= t < n && queues[..n][t] != [];
        assert queues[t] != [];
      }
      if t :| 0 <= t < |queues| && queues[t] != [] {
        if t < n { assert queues[..n][t] != []; }
      }
    }
  }

  lemma {:induction false} Popped(queues: seq<seq<File>>, t: nat)
    requires t < |queues| && queues[t] != []
    ensures TotalLeft(queues[t := queues[t][1..]]) == TotalLeft(queues) - 1
    decreases |queues|
  {
    var n := |queues| - 1;
    var queues' := queues[t := queues[t][1..]];
    if t < n {
      Popped(queues[..n], t);
      assert queues'[..n] == queues[..n][t := queues[..n][t][1..]];
    } else {
      assert queues'[..n] == queues[..n];
    }
  }

  /** The files picked from one folder, in the order they were picked. */
  function From(picked: seq<Pick>, t: nat): seq<File>
    decreases |picked|
  {
    if picked == [] then [] else
      var n := |picked| - 1;
      From(picked[..n], t) + if picked[n].folder == t then [picked[n].file] else []
  }

  /** How many a folder has given after `round` full rounds and the first `at` folders of the next. */
  function Given(size: nat, t: nat, round: nat, at: nat): nat
  {
    Least(size, if t < at then round + 1 else round)
  }

  predicate FolderOk(start: seq<File>, left: seq<File>, picked: seq<File>, given: nat)
  {
    given <= |start| && picked == start[..given] && left == start[given..]
  }

  ghost predicate RoundRobin(start: seq<seq<File>>, left: seq<seq<File>>, picked: seq<Pick>, round: nat, at: nat)
  {
    |left| == |start| && TotalLeft(left) + |picked| == TotalLeft(start) &&
    forall t :: 0 <= t < |start| ==> FolderOk(start[t], left[t], From(picked, t), Given(|start[t]|, t, round, at))
  }

  lemma FolderStays(start: seq<File>, left: seq<File>, picked: seq<File>, t: nat, round: nat, at: nat)
    requires FolderOk(start, left, picked, Given(|start|, t, round, at)) && (t != at || left == [])
    ensures FolderOk(start, left, picked, Given(|start|, t, round, at + 1))
  {}

  lemma FolderGives(start: seq<File>, left: seq<File>, picked: seq<File>, round: nat, at: nat)
    requires FolderOk(start, left, picked, Given(|start|, at, round, at)) && left != []
    ensures FolderOk(start, left[1..], picked + [left[0]], Given(|start|, at, round, at + 1))
  {}

  lemma Skip(start: seq<seq<File>>, left: seq<seq<File>>, picked: seq<Pick>, round: nat, at: nat)
    requires RoundRobin(start, left, picked, round, at) && at < |start| && left[at] == []
    ensures RoundRobin(start, left, picked, round, at + 1)
  {
    forall t | 0 <= t < |start| ensures FolderOk(start[t], left[t], From(picked, t), Given(|start[t]|, t, round, at + 1)) {
      FolderStays(start[t], left[t], From(picked, t), t, round, at);
    }
  }

  lemma TakeOne(start: seq<seq<File>>, left: seq<seq<File>>, picked: seq<Pick>, round: nat, at: nat)
    requires RoundRobin(start, left, picked, round, at) && at < |start| && left[at] != []
    ensures RoundRobin(start, left[at := left[at][1..]], picked + [Pick(at, left[at][0])], round, at + 1)
  {
    Popped(left, at);
    var picked', left' := picked + [Pick(at, left[at][0])], left[at := left[at][1..]];
    assert picked'[..|picked|] == picked;
    forall t | 0 <= t < |start| ensures FolderOk(start[t], left'[t], From(picked', t), Given(|start[t]|, t, round, at + 1)) {
      if t == at {
        FolderGives(start[t], left[t], From(picked, t), round, at);
      } else {
        FolderStays(start[t], left[t], From(picked, t), t, round, at);
        assert From(picked', t) == From(picked, t);
      }
    }
  }

  lemma NextRound(start: seq<seq<File>>, left: seq<seq<File>>, picked: seq<Pick>, round: nat)
    requires RoundRobin(start, left, picked, round, |start|)
    ensures RoundRobin(start, left, picked, round + 1, 0)
  {
    forall t | 0 <= t < |start| ensures FolderOk(start[t], left[t], From(picked, t), Given(|start[t]|, t, round + 1, 0)) {
      assert FolderOk(start[t], left[t], From(picked, t), Given(|start[t]|, t, round, |start|));
    }
  }

  lemma NothingTaken(start: seq<seq<File>>)
    ensures RoundRobin(start, start, [], 0, 0)
  {}

  /** Something is left in this folder or a later one. */
  predicate LeftFrom(queues: seq<seq<File>>, at: nat)
  {
    exists t :: at <= t < |queues| && queues[t] != []
  }

  /** `tops[i % len(tops)]` is the folder whose turn it is. */
  predicate Turn(i: nat, folders: nat, round: nat, at: nat)
  {
    i == round * folders + at && at < folders
  }

  lemma NextTurn(i: nat, folders: nat, round: nat, at: nat)
    requires Turn(i, folders, round, at)
    ensures i % folders == at
    ensures if at + 1 == folders then Turn(i + 1, folders, round + 1, 0) else Turn(i + 1, folders, round, at + 1)
  {
    DivIs(i, folders, round, at);
    assert (round + 1) * folders == round * folders + folders;
  }

  /** A turn takes a file, or moves on towards a folder that has one. */
  ghost predicate Nearer(queues: seq<seq<File>>, at: nat, queues': seq<seq<File>>, at': nat)
  {
    TotalLeft(queues') < TotalLeft(queues) ||
    (queues' == queues && (if LeftFrom(queues, at) then LeftFrom(queues, at') && at' == at + 1
                           else LeftFrom(queues, at') || (!LeftFrom(queues, at') && at' == at + 1)))
  }

  /** The folder whose turn it is gives its next file, if it has one. */
  method TakeFrom(ghost start: seq<seq<File>>, byTop: seq<seq<File>>, picked: seq<Pick>, t: nat, ghost round: nat)
    returns (byTop': seq<seq<File>>, picked': seq<Pick>)
    requires RoundRobin(start, byTop, picked, round, t) && t < |byTop|
    ensures RoundRobin(start, byTop', picked', round, t + 1) && |picked'| <= |picked| + 1
    ensures if byTop[t] == [] then byTop' == byTop else TotalLeft(byTop') < TotalLeft(byTop)
  {
    if byTop[t] != [] {
      TakeOne(start, byTop, picked, round, t);
      Popped(byTop, t);
      picked' := picked + [Pick(t, byTop[t][0])];
      byTop' := byTop[t := byTop[t][1..]];
    } else {
      Skip(start, byTop, picked, round, t);
      byTop', picked' := byTop, picked;
    }
  }

  method TakeTurn(ghost start: seq<seq<File>>, byTop: seq<seq<File>>, picked: seq<Pick>, i: nat, ghost round: nat,
                  ghost at: nat)
    returns (byTop': seq<seq<File>>, picked': seq<Pick>, ghost round': nat, ghost at': nat)
    requires RoundRobin(start, byTop, picked, round, at) && Turn(i, |start|, round, at) && AnyLeft(byTop)
    ensures RoundRobin(start, byTop', picked', round', at') && Turn(i + 1, |start|, round', at')
    ensures |picked'| <= |picked| + 1 && at' < |start| && Nearer(byTop, at, byTop', at')
  {
    NextTurn(i, |start|, round, at);
    byTop', picked' := TakeFrom(start, byTop, picked, i % |byTop|, round);
    round', at' := round, at + 1;
    if at' == |start| {
      NextRound(start, byTop', picked', round);
      round', at' := round + 1, 0;
    }
    NearerNext(byTop, at, byTop', at');
  }

  lemma NearerNext(queues: seq<seq<File>>, at: nat, queues': seq<seq<File>>, at': nat)
    requires at < |queues| && AnyLeft(queues) && at' == if at + 1 == |queues| then 0 else at + 1
    requires if queues[at] == [] then queues' == queues else TotalLeft(queues') < TotalLeft(queues)
    ensures Nearer(queues, at, queues', at')
  {
    if at' == 0 { assert LeftFrom(queues, 0); }
  }

  method PickRoundRobin(start: seq<seq<File>>, perType: nat)
    returns (picked: seq<Pick>, ghost left: seq<seq<File>>, ghost round: nat, ghost at: nat)
    ensures |picked| == Least(perType, TotalLeft(start)) && RoundRobin(start, left, picked, round, at)
  {
    var byTop := start;
    picked, round, at := [], 0, 0;
    var i := 0;
    NothingTaken(start);
    while |picked| < perType && AnyLeft(byTop)
      invariant |picked| <= perType && RoundRobin(start, byTop, picked, round, at)
      invariant start != [] ==> Turn(i, |start|, round, at)
      decreases TotalLeft(byTop), !LeftFrom(byTop, at), |start| - at
    {
      byTop, picked, round, at := TakeTurn(start, byTop, picked, i, round, at);
      i := i + 1;
    }
    left := byTop;
    NoneLeft(byTop);
  }

  /** Every folder gives a prefix of its own list, no file twice, and any two folders' counts differ by at
      most one unless the smaller one has nothing left to give. */
  lemma PilotIsBalanced(start: seq<seq<File>>, left: seq<seq<File>>, picked: seq<Pick>, round: nat, at: nat, a: nat,
                        b: nat)
    requires RoundRobin(start, left, picked, round, at) && a < |start| && b < |start|
    ensures From(picked, a) <= start[a]
    ensures |From(picked, a)| <= |From(picked, b)| + 1 || From(picked, b) == start[b]
  {
    assert FolderOk(start[a], left[a], From(picked, a), Given(|start[a]|, a, round, at));
    assert FolderOk(start[b], left[b], From(picked, b), Given(|start[b]|, b, round, at));
  }

  // ----- the folders' own lists ---------------------------------------------------------------------------

  function OfTop(files: seq<File>, top: string): seq<File>
    decreases |files|
  {
    if files == [] then [] else
      var n := |files| - 1;
      OfTop(files[..n], top) + if files[n].top == top then [files[n]] else []
  }

  function OfChecksum(files: seq<File>, checksum: string): seq<File>
    decreases |files|
  {
    if files == [] then [] else
      var n := |files| - 1;
      OfChecksum(files[..n], checksum) + if files[n].checksum == checksum then [files[n]] else []
  }

  predicate InOrder(files: seq<File>)
  {
    forall i, j :: 0 <= i < j < |files| ==> !Before(files[j].checksum, files[i].checksum)
  }

  /** The same files by checksum, and those of one checksum in the order they had. */
  ghost predicate StablySorted(files: seq<File>, sorted: seq<File>)
  {
    InOrder(sorted) && |sorted| == |files| && forall c :: OfChecksum(sorted, c) == OfChecksum(files, c)
  }

  lemma {:induction false} ChecksumsConcatenate(a: seq<File>, b: seq<File>, c: string)
    ensures OfChecksum(a + b, c) == OfChecksum(a, c) + OfChecksum(b, c)
    decreases |b|
  {
    if b == [] {
      assert a + b == a;
    } else {
      var n := |b| - 1;
      assert (a + b)[..|a + b| - 1] == a + b[..n];
      ChecksumsConcatenate(a, b[..n], c);
    }
  }

  lemma {:induction false} NoneOfChecksum(files: seq<File>, c: string)
    requires forall f :: f in files ==> f.checksum != c
    ensures OfChecksum(files, c) == []
    decreases |files|
  {
    if files != [] { NoneOfChecksum(files[..|files| - 1], c); }
  }

  /** The file goes in front of those with a greater checksum. */
  lemma InsertedStably(files: seq<File>, sorted: seq<File>, f: File, at: nat)
    requires StablySorted(files, sorted) && at <= |sorted|
    requires forall i :: 0 <= i < at ==> !Before(f.checksum, sorted[i].checksum)
    requires forall i :: at <= i < |sorted| ==> Before(f.checksum, sorted[i].checksum)
    ensures StablySorted(files + [f], sorted[..at] + [f] + sorted[at..])
  {
    var after := sorted[..at] + [f] + sorted[at..];
    forall i, j | 0 <= i < j < |after| ensures !Before(after[j].checksum, after[i].checksum) {
      if i == at { BeforeTotal(after[j].checksum, f.checksum); }
    }
    forall c ensures OfChecksum(after, c) == OfChecksum(files + [f], c) {
      assert sorted == sorted[..at] + sorted[at..] && (files + [f])[..|files|] == files;
      ChecksumsConcatenate(sorted[..at], sorted[at..], c);
      ChecksumsConcatenate(sorted[..at] + [f], sorted[at..], c);
      ChecksumsConcatenate(sorted[..at], [f], c);
      assert [f][..0] == [] && OfChecksum([f], c) == if f.checksum == c then [f] else [];
      if f.checksum == c {
        forall g | g in sorted[at..] ensures g.checksum != c { BeforeTotal(c, c); }
        NoneOfChecksum(sorted[at..], c);
      }
    }
  }

  /** `list.sort(key=...)`. */
  method SortByChecksum(files: seq<File>) returns (sorted: seq<File>)
    ensures StablySorted(files, sorted)
  {
    sorted := [];
    for n := 0 to |files|
      invariant StablySorted(files[..n], sorted)
    {
      var at := |sorted|;
      while at > 0 && Before(files[n].checksum, sorted[at - 1].checksum)
        invariant 0 <= at <= |sorted| && forall i :: at <= i < |sorted| ==> Before(files[n].checksum, sorted[i].checksum)
      {
        at := at - 1;
      }
      forall i | 0 <= i < at ensures !Before(files[n].checksum, sorted[i].checksum) {
        if Before(files[n].checksum, sorted[i].checksum) && i < at - 1 {
          BeforeTotal(sorted[i].checksum, sorted[at - 1].checksum);
          if sorted[i].checksum != sorted[at - 1].checksum {
            BeforeTransitive(files[n].checksum, sorted[i].checksum, sorted[at - 1].checksum);
          }
        }
      }
      InsertedStably(files[..n], sorted, files[n], at);
      assert files[..n + 1] == files[..n] + [files[n]];
      sorted := sorted[..at] + [files[n]] + sorted[at..];
    }
    assert files[..|files|] == files;
  }

  predicate Grouped(files: seq<File>, byTop: map<string, seq<File>>)
  {
    (forall f :: f in files ==> f.top in byTop) && forall top :: top in byTop ==> byTop[top] == OfTop(files, top) && byTop[top] != []
  }

  lemma {:induction false} NoneOfTop(files: seq<File>, top: string)
    requires forall f :: f in files ==> f.top != top
    ensures OfTop(files, top) == []
    decreases |files|
  {
    if files != [] { NoneOfTop(files[..|files| - 1], top); }
  }

  method GroupByTop(files: seq<File>) returns (byTop: map<string, seq<File>>)
    ensures Grouped(files, byTop)
  {
    byTop := map[];
    for n := 0 to |files|
      invariant Grouped(files[..n], byTop)
    {
      var f := files[n];
      assert files[..n + 1][..n] == files[..n] && files[..n + 1] == files[..n] + [f];
      if f.top !in byTop { NoneOfTop(files[..n], f.top); }
      byTop := byTop[f.top := (if f.top in byTop then byTop[f.top] else []) + [f]];
    }
    assert files[..|files|] == files;
  }

  /** The lists of the folders that have files, in the folders' order. */
  ghost predicate Queued(files: seq<File>, tops: seq<string>, queues: seq<seq<File>>)
  {
    AscendingTexts(tops) && |queues| == |tops| && (forall f :: f in files ==> f.top in tops) &&
    forall t :: 0 <= t < |tops| ==> queues[t] != [] && StablySorted(OfTop(files, tops[t]), queues[t])
  }

  predicate DistinctTops(tops: seq<string>)
  {
    forall i, j :: 0 <= i < j < |tops| ==> tops[i] != tops[j]
  }

  /** How many of the files lie in these folders. */
  function CountOf(files: seq<File>, tops: seq<string>): nat
    decreases |tops|
  {
    if tops == [] then 0 else CountOf(files, tops[..|tops| - 1]) + |OfTop(files, tops[|tops| - 1])|
  }

  lemma {:induction false} OneFileCounts(files: seq<File>, f: File, tops: seq<string>)
    requires DistinctTops(tops)
    ensures CountOf(files + [f], tops) == CountOf(files, tops) + if f.top in tops then 1 else 0
    decreases |tops|
  {
    if tops != [] {
      var n := |tops| - 1;
      OneFileCounts(files, f, tops[..n]);
      assert (files + [f])[..|files|] == files && tops == tops[..n] + [tops[n]];
    }
  }

  lemma {:induction false} NoFilesCount(tops: seq<string>)
    ensures CountOf([], tops) == 0
    decreases |tops|
  {
    if tops != [] { NoFilesCount(tops[..|tops| - 1]); }
  }

  lemma {:induction false} EveryFileCounts(files: seq<File>, tops: seq<string>)
    requires DistinctTops(tops) && forall f :: f in files ==> f.top in tops
    ensures CountOf(files, tops) == |files|
    decreases |files|
  {
    if files == [] {
      NoFilesCount(tops);
    } else {
      var n := |files| - 1;
      EveryFileCounts(files[..n], tops);
      OneFileCounts(files[..n], files[n], tops);
      assert files == files[..n] + [files[n]];
    }
  }

  lemma {:induction false} QueuesCount(files: seq<File>, tops: seq<string>, queues: seq<seq<File>>)
    requires |queues| == |tops| && forall t :: 0 <= t < |tops| ==> |queues[t]| == |OfTop(files, tops[t])|
    ensures TotalLeft(queues) == CountOf(files, tops)
    decreases |tops|
  {
    if tops != [] { QueuesCount(files, tops[..|tops| - 1], queues[..|tops| - 1]); }
  }

  lemma AscendingAreDistinct(tops: seq<string>)
    requires AscendingTexts(tops)
    ensures DistinctTops(tops)
  {
    forall i, j | 0 <= i < j < |tops| ensures tops[i] != tops[j] { BeforeTotal(tops[i], tops[j]); }
  }

  /** Nobody is left out: the folders' lists hold all files. */
  lemma QueuesHoldAll(files: seq<File>, tops: seq<string>, queues: seq<seq<File>>)
    requires Queued(files, tops, queues)
    ensures TotalLeft(queues) == |files|
  {
    AscendingAreDistinct(tops);
    QueuesCount(files, tops, queues);
    EveryFileCounts(files, tops);
  }

  method BuildQueues(files: seq<File>) returns (tops: seq<string>, queues: seq<seq<File>>)
    ensures Queued(files, tops, queues)
  {
    var byTop := GroupByTop(files);
    tops := SortTexts(byTop.Keys);
    queues := [];
    for t := 0 to |tops|
      invariant |queues| == t && forall k :: 0 <= k < t ==> queues[k] != [] && StablySorted(OfTop(files, tops[k]), queues[k])
    {
      var sorted := SortByChecksum(byTop[tops[t]]);
      queues := queues + [sorted];
    }
  }

  /** The pilot files of one type: each folder's files by checksum, taken in turns from the folders in the
      order of their names, until there are enough or none is left. */
  method PickPilot(files: seq<File>, perType: nat)
    returns (picked: seq<Pick>, ghost tops: seq<string>, ghost queues: seq<seq<File>>, ghost left: seq<seq<File>>,
             ghost round: nat, ghost at: nat)
    ensures Queued(files, tops, queues) && RoundRobin(queues, left, picked, round, at)
    ensures |picked| == Least(perType, |files|)
  {
    var byTop;
    tops, byTop := BuildQueues(files);
    queues := byTop;
    QueuesHoldAll(files, tops, queues);
    picked, left, round, at := PickRoundRobin(byTop, perType);
  }
}
