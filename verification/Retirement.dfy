/** Extracting what exists nowhere else and deleting archives whose contents are proven safe: over a
    whole run no content of a deleted archive is lost. */
module Retirement {
  import opened Collections
  import opened CleanReads
  import opened Extraction

  /** What was recorded before the run: the non-empty leaf members of every archive, the loose
      locations of every content, and where each member would be extracted to. */
  datatype Records = Records(leaves: map<Path, map<Key, Sha>>, loose: set<(Sha, Path)>, errored: set<Path>,
                             dest: (Path, Key) -> Path)

  /** A partial file of some member. */
  predicate IsPart(r: Records, p: Path)
  {
    exists top, key :: top in r.leaves && key in r.leaves[top] && Part(r.dest(top, key)) == p
  }

  /** No member is extracted to a partial file's name or onto an archive of the run, and no archive has a
      partial file's name. Two members may well be extracted to the same file. */
  ghost predicate SoundLayout(r: Records, archives: set<Path>)
  {
    (forall t, k :: Leaf(r, t, k) ==> !IsPart(r, r.dest(t, k)) && r.dest(t, k) !in archives) &&
    (forall top :: top in archives ==> !IsPart(r, top))
  }

  predicate Leaf(r: Records, top: Path, key: Key)
  {
    top in r.leaves && key in r.leaves[top]
  }

  function LeavesOf(r: Records, top: Path): map<Key, Sha>
  {
    if top in r.leaves then r.leaves[top] else map[]
  }

  predicate Unchanged(disk: Disk, p: Path)
  {
    p in disk && !disk[p].touched
  }

  predicate LooseCopy(disk: Disk, r: Records, sha: Sha, top: Path, p: Path)
  {
    (sha, p) in r.loose && p != top && Unchanged(disk, p)
  }

  /** The content still exists at a loose location other than the archive itself, where nothing has
      changed since the scan, or as a copy verified by this or an earlier run. */
  predicate Covered(disk: Disk, r: Records, have: map<Sha, Path>, sha: Sha, top: Path)
  {
    (exists loc :: loc in r.loose && LooseCopy(disk, r, sha, top, loc.1)) || (sha in have && have[sha] in disk)
  }

  lemma CoveredExactly(disk: Disk, r: Records, have: map<Sha, Path>, sha: Sha, top: Path)
    ensures Covered(disk, r, have, sha, top) <==>
            (exists p :: (sha, p) in r.loose && p != top && p in disk && !disk[p].touched) || (sha in have && have[sha] in disk)
  {
    if p :| (sha, p) in r.loose && p != top && p in disk && !disk[p].touched {
      assert LooseCopy(disk, r, sha, top, (sha, p).1);
    }
  }

  ghost predicate LooseTruthful(disk: Disk, r: Records)
  {
    forall sha, p :: (sha, p) in r.loose ==> !IsPart(r, p) && (Unchanged(disk, p) ==> Holds(disk, p, sha))
  }

  ghost predicate HaveTruthful(disk: Disk, r: Records, have: map<Sha, Path>, deleted: set<Path>)
  {
    forall sha :: sha in have ==> HaveOk(disk, r, deleted, sha, have[sha])
  }

  /** A copy noted as verified is there with its content, unless it was an archive deleted since. */
  ghost predicate HaveOk(disk: Disk, r: Records, deleted: set<Path>, sha: Sha, p: Path)
  {
    !IsPart(r, p) && (Holds(disk, p, sha) || (p in deleted && p !in disk))
  }

  /** What the records say about the disk is true of it, and no partial file is taken for a copy. */
  ghost predicate Truthful(disk: Disk, r: Records, have: map<Sha, Path>, deleted: set<Path>)
  {
    LooseTruthful(disk, r) && HaveTruthful(disk, r, have, deleted)
  }

  // ----- a whole run -------------------------------------------------------------------------------------

  function PartsOf(r: Records): Path -> bool
  {
    p => IsPart(r, p)
  }

  function DestOf(r: Records, top: Path): Key -> Path
  {
    key => r.dest(top, key)
  }

  predicate SomeLeaves(r: Records, top: Path, needed: map<Key, Sha>)
  {
    forall key :: key in needed ==> Leaf(r, top, key) && r.leaves[top][key] == needed[key]
  }

  lemma LayoutIsApart(r: Records, archives: set<Path>, top: Path, needed: map<Key, Sha>)
    requires SoundLayout(r, archives) && SomeLeaves(r, top, needed)
    ensures Apart(PartsOf(r), DestOf(r, top), needed)
  {
    forall key | key in needed ensures IsPart(r, Part(r.dest(top, key))) && !IsPart(r, r.dest(top, key)) {
      assert Leaf(r, top, key);
    }
  }

  /** The files of the start of the run are still there as they were, archives deleted since aside, and
      whatever else is there now was written by the run. */
  ghost predicate OnlyDeletes(start: Disk, now: Disk, r: Records, deleted: set<Path>)
  {
    forall p :: !IsPart(r, p) ==> KeptOrDeleted(start, now, deleted, p)
  }

  predicate KeptOrDeleted(start: Disk, now: Disk, deleted: set<Path>, p: Path)
  {
    (p in start && p !in deleted ==> p in now && now[p] == start[p]) &&
    (p in now && !now[p].touched ==> p in start && now[p] == start[p])
  }

  /** The content of a processed archive file itself. */
  ghost predicate ArchiveContent(start: Disk, archives: set<Path>, sha: Sha)
  {
    exists top :: top in archives && Holds(start, top, sha)
  }

  ghost predicate Exists(disk: Disk, r: Records, sha: Sha)
  {
    exists p :: !IsPart(r, p) && Holds(disk, p, sha)
  }

  /** Every leaf content of the deleted archives still exists as a file, unless it is itself the content
      of an archive of this run. */
  ghost predicate NothingLost(start: Disk, now: Disk, r: Records, archives: set<Path>, deleted: set<Path>)
  {
    forall top, key :: top in deleted && Leaf(r, top, key) ==>
      Exists(now, r, r.leaves[top][key]) || ArchiveContent(start, archives, r.leaves[top][key])
  }

  ghost predicate RunOk(start: Disk, now: Disk, r: Records, have: map<Sha, Path>, archives: set<Path>,
                        deleted: set<Path>)
  {
    Truthful(now, r, have, deleted) && OnlyDeletes(start, now, r, deleted) && deleted <= archives &&
    NothingLost(start, now, r, archives, deleted)
  }

  /** An extraction keeps everything the run has established. */
  lemma ExtractionKeepsRun(start: Disk, before: Disk, now: Disk, r: Records, have: map<Sha, Path>,
                           archives: set<Path>, deleted: set<Path>,
                           top: Path, needed: map<Key, Sha>)
    requires SoundLayout(r, archives) && RunOk(start, before, r, have, archives, deleted) && SomeLeaves(r, top, needed)
    requires DiskOk(before, now, PartsOf(r), DestOf(r, top), needed)
    ensures RunOk(start, now, r, have, archives, deleted)
  {
    forall p | !IsPart(r, p) ensures FileOk(before, now, DestOf(r, top), needed, p) { assert !PartsOf(r)(p); }
    forall key | key in needed ensures DestOf(r, top)(key) !in archives { assert Leaf(r, top, key); }
    forall sha, p | (sha, p) in r.loose ensures !IsPart(r, p) && (Unchanged(now, p) ==> Holds(now, p, sha)) {
      assert FileOk(before, now, DestOf(r, top), needed, p);
    }
    forall sha | sha in have ensures HaveOk(now, r, deleted, sha, have[sha]) {
      assert HaveOk(before, r, deleted, sha, have[sha]) && FileOk(before, now, DestOf(r, top), needed, have[sha]);
    }
    forall p | !IsPart(r, p) ensures KeptOrDeleted(start, now, deleted, p) {
      assert KeptOrDeleted(start, before, deleted, p) && FileOk(before, now, DestOf(r, top), needed, p);
    }
    forall t, key | t in deleted && Leaf(r, t, key) && !ArchiveContent(start, archives, r.leaves[t][key])
      ensures Exists(now, r, r.leaves[t][key])
    {
      var p :| !IsPart(r, p) && Holds(before, p, r.leaves[t][key]);
      assert FileOk(before, now, DestOf(r, top), needed, p);
      assert Holds(now, p, r.leaves[t][key]);
    }
  }

  lemma JobKeepsRun(start: Disk, before: Disk, r: Records, have: map<Sha, Path>, archives: set<Path>,
                    deleted: set<Path>,
                    top: Path, needed: map<Key, Sha>, steps: seq<Step>)
    requires SoundLayout(r, archives) && RunOk(start, before, r, have, archives, deleted) && SomeLeaves(r, top, needed)
    requires SafeSteps(before, DestOf(r, top), needed, steps)
    ensures var j := HandleAll(JobState(before, map[], 0, multiset{}, {}, {}), needed, DestOf(r, top), steps);
            RunOk(start, j.disk, r, have, archives, deleted) && VerifiedOk(DestOf(r, top), needed, j)
  {
    LayoutIsApart(r, archives, top, needed);
    var j := JobState(before, map[], 0, multiset{}, {}, {});
    ExtractionIsFaithful(before, PartsOf(r), DestOf(r, top), needed, j, steps);
    ExtractionKeepsRun(start, before, HandleAll(j, needed, DestOf(r, top), steps).disk,
                       r, have, archives, deleted, top, needed);
  }

  /** What is careful at the start of the run is safe whenever the archive's turn comes: of its members some are
      needed then, and the files they go to that were there are there still. */
  lemma CarefulStaysSafe(start: Disk, now: Disk, r: Records, have: map<Sha, Path>, archives: set<Path>,
                         deleted: set<Path>, top: Path, needed: map<Key, Sha>, steps: seq<Step>)
    requires SoundLayout(r, archives) && RunOk(start, now, r, have, archives, deleted) && SomeLeaves(r, top, needed)
    requires CarefulSteps(start, DestOf(r, top), LeavesOf(r, top), steps)
    ensures SafeSteps(now, DestOf(r, top), needed, steps)
  {
    forall key | key in needed
      ensures key in LeavesOf(r, top) && LeavesOf(r, top)[key] == needed[key] &&
              (DestOf(r, top)(key) in start ==> DestOf(r, top)(key) in now)
    {
      assert Leaf(r, top, key);
      assert KeptOrDeleted(start, now, deleted, r.dest(top, key));
    }
    CarefulIsSafe(start, now, DestOf(r, top), LeavesOf(r, top), needed, steps);
  }

  lemma VerifiedIsTruthful(disk: Disk, r: Records, have: map<Sha, Path>, archives: set<Path>, deleted: set<Path>,
                           top: Path, needed: map<Key, Sha>, key: Key)
    requires SoundLayout(r, archives) && SomeLeaves(r, top, needed) && HaveTruthful(disk, r, have, deleted)
    requires key in needed && Holds(disk, r.dest(top, key), needed[key])
    ensures HaveTruthful(disk, r, have[needed[key] := r.dest(top, key)], deleted)
  {
    assert Leaf(r, top, key);
    assert HaveOk(disk, r, deleted, needed[key], r.dest(top, key));
  }

  /** What the final check before a deletion finds. */
  lemma CoveredExists(disk: Disk, r: Records, have: map<Sha, Path>, deleted: set<Path>, sha: Sha, top: Path)
    requires Truthful(disk, r, have, deleted) && Covered(disk, r, have, sha, top)
    ensures exists p :: !IsPart(r, p) && Holds(disk, p, sha) && (p == top ==> sha in have && have[sha] == p)
  {
    if loc :| loc in r.loose && LooseCopy(disk, r, sha, top, loc.1) {
      assert (sha, loc.1) in r.loose && Holds(disk, loc.1, sha);
    } else {
      assert HaveOk(disk, r, deleted, sha, have[sha]);
    }
  }

  /** Deleting an unchanged archive, all of whose leaves are covered, loses nothing. */
  lemma DeletionKeepsRun(start: Disk, now: Disk, r: Records, have: map<Sha, Path>, archives: set<Path>,
                         deleted: set<Path>, top: Path)
    requires RunOk(start, now, r, have, archives, deleted) && top in archives && !IsPart(r, top) && Unchanged(now, top)
    requires forall key :: key in LeavesOf(r, top) ==> Covered(now, r, have, LeavesOf(r, top)[key], top)
    ensures RunOk(start, now - {top}, r, have, archives, deleted + {top})
  {
    var after := now - {top};
    assert KeptOrDeleted(start, now, deleted, top);
    forall p | !IsPart(r, p) ensures KeptOrDeleted(start, after, deleted + {top}, p) { assert KeptOrDeleted(start, now, deleted, p); }
    forall sha, p | (sha, p) in r.loose ensures !IsPart(r, p) && (Unchanged(after, p) ==> Holds(after, p, sha)) {
      assert Unchanged(after, p) ==> Unchanged(now, p);
    }
    forall sha | sha in have ensures HaveOk(after, r, deleted + {top}, sha, have[sha]) { assert HaveOk(now, r, deleted, sha, have[sha]); }
    forall t, key | t in deleted + {top} && Leaf(r, t, key)
      ensures Exists(after, r, r.leaves[t][key]) || ArchiveContent(start, archives, r.leaves[t][key])
    {
      var sha := r.leaves[t][key];
      if t == top {
        assert LeavesOf(r, top)[key] == sha;
        CoveredExists(now, r, have, deleted, sha, top);
      }
      assert Holds(now, top, sha) ==> Holds(start, top, sha);
      if !ArchiveContent(start, archives, sha) {
        var p :| !IsPart(r, p) && Holds(now, p, sha);
        assert Holds(after, p, sha);
      }
    }
  }

  /** What the steps of one archive lead to, from this disk. */
  function JobOf(disk: Disk, r: Records, top: Path, needed: map<Key, Sha>, steps: seq<Step>): JobState
  {
    HandleAll(JobState(disk, map[], 0, multiset{}, {}, {}), needed, DestOf(r, top), steps)
  }

  /** The list of verified files after the verified members were added: their hashes, each with the file of one of
      them, and otherwise what was there. */
  predicate Noted(before: map<Sha, Path>, after: map<Sha, Path>, needed: map<Key, Sha>, verified: map<Key, Path>)
  {
    (forall key :: key in verified && key in needed ==> needed[key] in after) && (forall sha :: sha in before ==> sha in after) &&
    forall sha :: sha in after ==>
      (exists key :: key in verified && key in needed && needed[key] == sha && after[sha] == verified[key]) ||
      (sha in before && after[sha] == before[sha] && forall key :: key in verified && key in needed ==> needed[key] != sha)
  }

  lemma NotedOneMore(before: map<Sha, Path>, now: map<Sha, Path>, needed: map<Key, Sha>, verified: map<Key, Path>,
                     done: map<Key, Path>, key: Key)
    requires key in needed && key in verified && key !in done && Noted(before, now, needed, done)
    requires forall k :: k in done ==> k in verified && done[k] == verified[k]
    ensures Noted(before, now[needed[key] := verified[key]], needed, done[key := verified[key]])
  {
    var after, more := now[needed[key] := verified[key]], done[key := verified[key]];
    forall sha | sha in after
      ensures (exists k :: k in more && k in needed && needed[k] == sha && after[sha] == more[k]) ||
              (sha in before && after[sha] == before[sha] && forall k :: k in more && k in needed ==> needed[k] != sha)
    {
      if sha == needed[key] {
        assert key in more && after[sha] == more[key];
      } else if k :| k in done && k in needed && needed[k] == sha && now[sha] == done[k] {
        assert k in more && after[sha] == more[k];
      }
    }
  }

  /** Every verified member is one of the needed ones, with its content at its destination. */
  ghost predicate AllHeld(disk: Disk, r: Records, top: Path, needed: map<Key, Sha>, verified: map<Key, Path>)
  {
    forall key :: key in verified ==>
      key in needed && verified[key] == r.dest(top, key) && Holds(disk, r.dest(top, key), needed[key])
  }

  lemma OneLess(verified: map<Key, Path>, todo: set<Key>, key: Key)
    requires key in verified && key in todo
    ensures verified - (todo - {key}) == (verified - todo)[key := verified[key]]
  {}

  /** What holds while the verified members are noted one by one. */
  ghost predicate NotingOk(disk: Disk, r: Records, deleted: set<Path>, before: map<Sha, Path>, now: map<Sha, Path>,
                           needed: map<Key, Sha>, done: map<Key, Path>)
  {
    HaveTruthful(disk, r, now, deleted) && Noted(before, now, needed, done)
  }

  lemma NoteOne(disk: Disk, r: Records, archives: set<Path>, deleted: set<Path>, before: map<Sha, Path>,
                now: map<Sha, Path>, top: Path, needed: map<Key, Sha>, verified: map<Key, Path>,
                todo: set<Key>, key: Key)
    requires SoundLayout(r, archives) && SomeLeaves(r, top, needed) && AllHeld(disk, r, top, needed, verified)
    requires NotingOk(disk, r, deleted, before, now, needed, verified - todo) && key in verified && key in todo
    ensures key in needed
    ensures NotingOk(disk, r, deleted, before, now[needed[key] := verified[key]], needed, verified - (todo - {key}))
  {
    VerifiedIsTruthful(disk, r, now, archives, deleted, top, needed, key);
    NotedOneMore(before, now, needed, verified, verified - todo, key);
    OneLess(verified, todo, key);
  }

  /** The members that still have to be extracted are all there, and nothing went wrong. */
  predicate Clean(needed: map<Key, Sha>, j: JobState)
  {
    j.errors == 0 && forall key :: key in needed ==> key in j.verified
  }

  /** What the final check before a deletion asks for. */
  predicate SafeToDelete(disk: Disk, r: Records, have: map<Sha, Path>, task: Task)
  {
    Unchanged(disk, task.top) && task.deletable &&
    forall key :: key in LeavesOf(r, task.top) ==> Covered(disk, r, have, LeavesOf(r, task.top)[key], task.top)
  }

  /** One archive of the run: what happens while it is read, whether the destination has room for it, and
      whether the file lies below the root and is a regular file. */
  datatype Task = Task(top: Path, steps: seq<Step>, enoughSpace: bool, deletable: bool)

  /** The leaves that are not covered, all of them and nothing else. */
  ghost predicate ExactlyNeeded(disk: Disk, r: Records, have: map<Sha, Path>, top: Path, needed: map<Key, Sha>)
  {
    SomeLeaves(r, top, needed) && forall key :: key in needed <==> key in LeavesOf(r, top) && !Covered(disk, r, have, LeavesOf(r, top)[key], top)
  }

  /** What was covered before the extraction still is, and a verified leaf is covered by its own copy. */
  lemma LeafIsCovered(disk: Disk, r: Records, have: map<Sha, Path>, after: map<Sha, Path>, deleted: set<Path>, top: Path,
                      needed: map<Key, Sha>, j: JobState, key: Key)
    requires Truthful(disk, r, have, deleted) && ExactlyNeeded(disk, r, have, top, needed) && key in LeavesOf(r, top)
    requires DiskOk(disk, j.disk, PartsOf(r), DestOf(r, top), needed) && VerifiedOk(DestOf(r, top), needed, j)
    requires Noted(have, after, needed, j.verified) && (key in needed ==> key in j.verified)
    ensures Covered(j.disk, r, after, LeavesOf(r, top)[key], top)
  {
    var sha := LeavesOf(r, top)[key];
    if loc :| key !in needed && loc in r.loose && LooseCopy(disk, r, sha, top, loc.1) {
      assert (sha, loc.1) in r.loose;
      assert FileOk(disk, j.disk, DestOf(r, top), needed, loc.1);
      assert LooseCopy(j.disk, r, sha, top, loc.1);
    } else {
      assert sha in after;
      if key !in needed {
        assert HaveOk(disk, r, deleted, sha, have[sha]);
        assert FileOk(disk, j.disk, DestOf(r, top), needed, have[sha]);
      }
    }
  }

  /** After an extraction in which nothing went wrong every leaf is covered: the archive may be deleted exactly if it
      is unchanged and deletable. */
  lemma CleanIsSafe(disk: Disk, r: Records, have: map<Sha, Path>, after: map<Sha, Path>, archives: set<Path>,
                    deleted: set<Path>, task: Task, needed: map<Key, Sha>)
    requires SoundLayout(r, archives) && Truthful(disk, r, have, deleted) && task.top in archives
    requires ExactlyNeeded(disk, r, have, task.top, needed) && SafeSteps(disk, DestOf(r, task.top), needed, task.steps)
    requires var j := JobOf(disk, r, task.top, needed, task.steps); Noted(have, after, needed, j.verified) && Clean(needed, j)
    ensures SafeToDelete(JobOf(disk, r, task.top, needed, task.steps).disk, r, after, task) <==> Unchanged(disk, task.top) && task.deletable
  {
    var top, j := task.top, JobOf(disk, r, task.top, needed, task.steps);
    LayoutIsApart(r, archives, top, needed);
    ExtractionIsFaithful(disk, PartsOf(r), DestOf(r, top), needed, JobState(disk, map[], 0, multiset{}, {}, {}), task.steps);
    assert FileOk(disk, j.disk, DestOf(r, top), needed, top);
    forall key | key in LeavesOf(r, top) ensures Covered(j.disk, r, after, LeavesOf(r, top)[key], top) {
      LeafIsCovered(disk, r, have, after, deleted, top, needed, j, key);
    }
  }

  // ----- the turns of a run -----------------------------------------------------------------------------------

  /** What a run has come to: the disk, the verified files, and the archives deleted so far. */
  datatype RunState = RunState(disk: Disk, have: map<Sha, Path>, deleted: set<Path>)

  datatype Mode = Mode(extract: bool, deleteVerified: bool)

  /** The members of the archive without a copy elsewhere. */
  function StillNeeded(s: RunState, r: Records, top: Path): (needed: map<Key, Sha>)
    ensures ExactlyNeeded(s.disk, r, s.have, top, needed)
  {
    map key | key in LeavesOf(r, top) && !Covered(s.disk, r, s.have, LeavesOf(r, top)[key], top) :: LeavesOf(r, top)[key]
  }

  /** Nothing is done about an archive in a dry run, or if some of its files could not be read before. */
  predicate LeftAlone(mode: Mode, r: Records, task: Task)
  {
    !mode.extract || task.top in r.errored
  }

  /** The archive needs extraction and there is no room for it. */
  predicate Stops(mode: Mode, r: Records, s: RunState, task: Task)
  {
    !LeftAlone(mode, r, task) && StillNeeded(s, r, task.top) != map[] && !task.enoughSpace
  }

  /** One turn. Needed members are extracted and the verified ones noted; then the archive is deleted exactly if
      deleting is asked for, nothing went wrong, and it is unchanged and deletable. */
  ghost predicate Turned(mode: Mode, r: Records, a: RunState, task: Task, b: RunState)
  {
    if LeftAlone(mode, r, task) then b == a
    else
      var needed := StillNeeded(a, r, task.top);
      var j := JobOf(a.disk, r, task.top, needed, if needed == map[] then [] else task.steps);
      var gone := mode.deleteVerified && Clean(needed, j) && Unchanged(a.disk, task.top) && task.deletable;
      (if needed == map[] then b.have == a.have else task.enoughSpace && Noted(a.have, b.have, needed, j.verified)) &&
      b.deleted == (if gone then a.deleted + {task.top} else a.deleted) &&
      b.disk == if gone then j.disk - {task.top} else j.disk
  }

  /** The states of a run over the archives, one after each turn. */
  ghost predicate TurnsTaken(mode: Mode, r: Records, tasks: seq<Task>, states: seq<RunState>, first: RunState, last: RunState)
  {
    0 < |states| <= |tasks| + 1 && states[0] == first && states[|states| - 1] == last &&
    forall k, l :: 0 <= k < l < |states| && l == k + 1 ==> Turned(mode, r, states[k], tasks[k], states[l])
  }

  /** All of them were taken, in order, unless the run had to stop for lack of space. */
  ghost predicate Turns(mode: Mode, r: Records, tasks: seq<Task>, states: seq<RunState>, first: RunState, last: RunState)
  {
    TurnsTaken(mode, r, tasks, states, first, last) && (|states| <= |tasks| ==> Stops(mode, r, last, tasks[|states| - 1]))
  }

  lemma NoTurnYet(mode: Mode, r: Records, tasks: seq<Task>, s: RunState)
    ensures TurnsTaken(mode, r, tasks, [s], s, s)
  {}

  lemma AllTurnsTaken(mode: Mode, r: Records, tasks: seq<Task>, states: seq<RunState>, first: RunState, last: RunState)
    requires TurnsTaken(mode, r, tasks, states, first, last)
    requires |states| == |tasks| + 1 || Stops(mode, r, last, tasks[|states| - 1])
    ensures Turns(mode, r, tasks, states, first, last)
  {}

  lemma OneMoreTurn(mode: Mode, r: Records, tasks: seq<Task>, states: seq<RunState>, first: RunState, last: RunState,
                    next: RunState)
    requires TurnsTaken(mode, r, tasks, states, first, last) && |states| <= |tasks|
    requires Turned(mode, r, last, tasks[|states| - 1], next)
    ensures TurnsTaken(mode, r, tasks, states + [next], first, next)
  {}

  lemma ErroredStay(mode: Mode, r: Records, a: RunState, task: Task, b: RunState)
    requires Turned(mode, r, a, task, b)
    ensures b.deleted == a.deleted || (b.deleted == a.deleted + {task.top} && task.top !in r.errored)
  {}

  /** An archive whose needed members are all read, one at a time and to the end, and come out as recorded is extracted
      with nothing going wrong, unless a file already there has other content or two of them go to one file. */
  lemma GoodReadsAreClean(disk: Disk, r: Records, archives: set<Path>, task: Task, needed: map<Key, Sha>)
    requires SoundLayout(r, archives) && SomeLeaves(r, task.top, needed)
    requires GoodFiles(disk, needed, DestOf(r, task.top))
    requires forall a, b :: a in needed && b in needed && r.dest(task.top, a) == r.dest(task.top, b) ==> needed[a] == needed[b]
    requires forall n :: 0 <= n < |task.steps| ==> task.steps[n].One? && GoodRead(needed, task.steps[n])
    requires forall key :: key in needed ==> exists n :: 0 <= n < |task.steps| && task.steps[n].key == key
    ensures Clean(needed, JobOf(disk, r, task.top, needed, task.steps))
  {
    LayoutIsApart(r, archives, task.top, needed);
    GoodReadsVerify(JobState(disk, map[], 0, multiset{}, {}, {}), PartsOf(r), needed, DestOf(r, task.top), task.steps);
  }

  class Retirer {
    const fs: FileSystem
    const r: Records
    const extract: bool
    const deleteVerified: bool
    var have: map<Sha, Path>
    var deleted: set<Path>

    constructor (fs: FileSystem, r: Records, extract: bool, deleteVerified: bool, have: map<Sha, Path>)
      ensures this.fs == fs && this.r == r && this.have == have && deleted == {}
      ensures this.extract == extract && this.deleteVerified == deleteVerified
    {
      this.fs, this.r, this.extract, this.deleteVerified := fs, r, extract, deleteVerified;
      this.have, deleted := have, {};
    }

    function State(): RunState
      reads this, fs
    {
      RunState(fs.disk, have, deleted)
    }

    function RunMode(): Mode
    {
      Mode(extract, deleteVerified)
    }

    ghost predicate Ok(start: Disk, archives: set<Path>)
      reads this, fs
    {
      RunOk(start, fs.disk, r, have, archives, deleted)
    }

    function NeededFor(top: Path): (needed: map<Key, Sha>)
      reads this, fs
      ensures forall key :: key in needed <==> key in LeavesOf(r, top) && !Covered(fs.disk, r, have, LeavesOf(r, top)[key], top)
      ensures SomeLeaves(r, top, needed)
    {
      StillNeeded(State(), r, top)
    }

    /** Nothing of the archive has to be extracted, and it may be deleted. */
    predicate Retirable(task: Task)
      reads this, fs
    {
      extract && deleteVerified && task.top !in r.errored && NeededFor(task.top) == map[] && task.deletable &&
      Unchanged(fs.disk, task.top)
    }

    /** Notes every verified copy, as the script appends them to its list of verified files. */
    method NoteVerified(top: Path, needed: map<Key, Sha>, verified: map<Key, Path>, ghost archives: set<Path>)
      requires SoundLayout(r, archives) && SomeLeaves(r, top, needed) && HaveTruthful(fs.disk, r, have, deleted)
      requires AllHeld(fs.disk, r, top, needed, verified)
      modifies this`have
      ensures HaveTruthful(fs.disk, r, have, deleted) && Noted(old(have), have, needed, verified)
    {
      var todo := verified.Keys;
      ghost var disk, before, gone := fs.disk, have, deleted;
      assert verified - todo == map[];
      while todo != {}
        invariant todo <= verified.Keys && NotingOk(disk, r, gone, before, have, needed, verified - todo)
        decreases todo
      {
        var key :| key in todo;
        NoteOne(disk, r, archives, gone, before, have, top, needed, verified, todo, key);
        have := have[needed[key] := verified[key]];
        todo := todo - {key};
      }
      assert verified - todo == verified;
    }

    /** Extracts the needed members; true when every one of them was verified without any error. */
    method ExtractNeeded(task: Task, ghost start: Disk, ghost archives: set<Path>) returns (ok: bool)
      requires SoundLayout(r, archives) && Ok(start, archives)
      requires SafeSteps(fs.disk, DestOf(r, task.top), NeededFor(task.top), task.steps)
      modifies this`have, fs
      ensures Ok(start, archives)
      ensures var needed := old(NeededFor(task.top));
              var j := JobOf(old(fs.disk), r, task.top, needed, task.steps);
              fs.disk == j.disk && Noted(old(have), have, needed, j.verified) && (ok <==> Clean(needed, j))
    {
      var needed := NeededFor(task.top);
      JobKeepsRun(start, fs.disk, r, have, archives, deleted, task.top, needed, task.steps);
      var job := new Job(fs, needed, DestOf(r, task.top));
      job.RunLevel(task.steps);
      NoteVerified(task.top, needed, job.verified, archives);
      ok := job.errors == 0 && forall key :: key in needed ==> key in job.verified;
    }

    /** The final check before a deletion, and the deletion. */
    method DeleteIfSafe(task: Task, ghost start: Disk, ghost archives: set<Path>)
      requires SoundLayout(r, archives) && Ok(start, archives) && task.top in archives
      modifies this`deleted, fs
      ensures Ok(start, archives)
      ensures var gone := SafeToDelete(old(fs.disk), r, have, task);
              deleted == (if gone then old(deleted) + {task.top} else old(deleted)) &&
              fs.disk == if gone then old(fs.disk) - {task.top} else old(fs.disk)
    {
      var leaves := LeavesOf(r, task.top);
      var everything := forall key :: key in leaves ==> Covered(fs.disk, r, have, leaves[key], task.top);
      if everything && Unchanged(fs.disk, task.top) && task.deletable {
        DeletionKeepsRun(start, fs.disk, r, have, archives, deleted, task.top);
        fs.disk := fs.disk - {task.top};
        deleted := deleted + {task.top};
      }
    }

    /** One turn of the loop over the archives; true when the run has to stop for lack of space. An archive that
        needs extraction, and has the space, is deleted exactly if deleting is asked for, nothing went wrong and
        every needed member was verified, and the final check finds it unchanged, deletable and every leaf
        covered; every verified member is noted in any case. */
    method RetireOne(task: Task, ghost start: Disk, ghost archives: set<Path>) returns (stop: bool)
      requires SoundLayout(r, archives) && Ok(start, archives) && task.top in archives
      requires SafeSteps(fs.disk, DestOf(r, task.top), NeededFor(task.top), task.steps)
      modifies this`have, this`deleted, fs
      ensures Ok(start, archives)
      ensures stop <==> Stops(RunMode(), r, old(State()), task)
      ensures stop ==> fs.disk == old(fs.disk) && have == old(have) && deleted == old(deleted)
      ensures !stop ==> Turned(RunMode(), r, old(State()), task, State())
      ensures extract && task.top !in r.errored && old(NeededFor(task.top)) != map[] && task.enoughSpace ==>
                var needed := old(NeededFor(task.top));
                var j := JobOf(old(fs.disk), r, task.top, needed, task.steps);
                var gone := deleteVerified && Clean(needed, j) && SafeToDelete(j.disk, r, have, task);
                Noted(old(have), have, needed, j.verified) &&
                deleted == (if gone then old(deleted) + {task.top} else old(deleted)) &&
                fs.disk == if gone then j.disk - {task.top} else j.disk
      ensures extract && task.top !in r.errored && old(NeededFor(task.top)) == map[] ==>
                var gone := deleteVerified && SafeToDelete(old(fs.disk), r, have, task);
                have == old(have) && deleted == (if gone then old(deleted) + {task.top} else old(deleted)) &&
                fs.disk == if gone then old(fs.disk) - {task.top} else old(fs.disk)
    {
      if task.top in r.errored || !extract { return false; }
      var ok := true;
      if NeededFor(task.top) != map[] {
        if !task.enoughSpace { return true; }
        ghost var before, had, needed := fs.disk, have, NeededFor(task.top);
        ok := ExtractNeeded(task, start, archives);
        if ok { CleanIsSafe(before, r, had, have, archives, deleted, task, needed); }
      } else {
        assert forall key :: key in LeavesOf(r, task.top) ==> key !in NeededFor(task.top);
      }
      if ok && deleteVerified {
        DeleteIfSafe(task, start, archives);
      }
      return false;
    }

    /** Neither an archive that was left alone nor anything it is the only copy of is gone. */
    ghost predicate Safe(start: Disk, archives: set<Path>)
      reads this, fs
    {
      Ok(start, archives) && forall top :: top in deleted ==> top !in r.errored
    }

    /** The next turn of a run that began with the disk `start`. */
    method NextTurn(task: Task, ghost start: Disk, ghost archives: set<Path>, ghost tasks: seq<Task>,
                    ghost states: seq<RunState>, ghost first: RunState)
      returns (stop: bool, ghost states': seq<RunState>)
      requires SoundLayout(r, archives) && Safe(start, archives) && task.top in archives
      requires TurnsTaken(RunMode(), r, tasks, states, first, State()) && |states| <= |tasks| && task == tasks[|states| - 1]
      requires CarefulSteps(start, DestOf(r, task.top), LeavesOf(r, task.top), task.steps)
      modifies this`have, this`deleted, fs
      ensures Safe(start, archives)
      ensures if stop then Turns(RunMode(), r, tasks, states', first, State())
              else |states'| == |states| + 1 && TurnsTaken(RunMode(), r, tasks, states', first, State())
    {
      CarefulStaysSafe(start, fs.disk, r, have, archives, deleted, task.top, NeededFor(task.top), task.steps);
      ghost var before := State();
      stop := RetireOne(task, start, archives);
      states' := states;
      if stop {
        AllTurnsTaken(RunMode(), r, tasks, states, first, before);
      } else {
        ErroredStay(RunMode(), r, before, task, State());
        OneMoreTurn(RunMode(), r, tasks, states, first, before, State());
        states' := states + [State()];
      }
    }

    /** The whole run: every archive gets its turn, in order, unless it stops for lack of space; and however the
        readers break off, give up and fall back, and wherever it stops, every
        non-empty leaf content of every archive it deleted that is not itself the content of an archive of
        the run still exists as a file, and apart from the deleted archives every file there was at the start
        is as it was; provided that no two members the 7z reader finishes together go to one file that was not
        there at the start, and no late write of a writer that was left open changes a file put in place
        since. */
    method RetireArchives(tasks: seq<Task>) returns (ghost states: seq<RunState>)
      requires SoundLayout(r, set k | 0 <= k < |tasks| :: tasks[k].top)
      requires Truthful(fs.disk, r, have, {}) && deleted == {}
      requires forall k :: 0 <= k < |tasks| ==>
                 CarefulSteps(fs.disk, DestOf(r, tasks[k].top), LeavesOf(r, tasks[k].top), tasks[k].steps)
      modifies this`have, this`deleted, fs
      ensures Turns(RunMode(), r, tasks, states, old(State()), State())
      ensures var archives := set k | 0 <= k < |tasks| :: tasks[k].top;
              deleted <= archives && NothingLost(old(fs.disk), fs.disk, r, archives, deleted) &&
              OnlyDeletes(old(fs.disk), fs.disk, r, deleted)
      ensures forall top :: top in deleted ==> top !in r.errored
    {
      ghost var start, archives := fs.disk, set k | 0 <= k < |tasks| :: tasks[k].top;
      ghost var first := State();
      states := [first];
      NoTurnYet(RunMode(), r, tasks, first);
      for i := 0 to |tasks|
        invariant Safe(start, archives)
        invariant |states| == i + 1 && TurnsTaken(RunMode(), r, tasks, states, first, State())
      {
        var stop;
        stop, states := NextTurn(tasks[i], start, archives, tasks, states, first);
        if stop { return; }
      }
      AllTurnsTaken(RunMode(), r, tasks, states, first, State());
    }
  }

  // ----- what goes wrong otherwise ------------------------------------------------------------------------

  /** What an earlier archive left behind is taken for a copy of the content in the final check of a later
      one, although no file has that content. */
  ghost predicate TrustsGarbage(disk: Disk, verified: map<Key, Path>, key: Key, sha: Sha)
  {
    key in verified && (forall r: Records, top: Path :: Covered(disk, r, map[sha := verified[key]], sha, top)) &&
    forall p :: !Holds(disk, p, sha)
  }

  lemma OnlyGarbage(disk: Disk, verified: map<Key, Path>)
    requires disk == map["a" := File(None, true)] && verified == map["a" := "a"]
    ensures TrustsGarbage(disk, verified, "a", 7)
  {}

  lemma BothOpened(needed: map<Key, Sha>, dest: Key -> Path)
    requires needed == map["a" := 7] && dest("a") == "a"
    ensures StartAll(NOTHING_DONE, needed, dest, ["a", "a"]) ==
            JobState(map[Part("a") := File(None, true)], map[], 0, multiset{"a", "a"}, {"a"}, {})
  {
    PartDiffers("a");
    var keys := ["a", "a"];
    assert keys[..1] == ["a"] && keys[..1][..0] == [];
    var one := StartMember(NOTHING_DONE, needed, dest, "a");
    assert one == JobState(map[Part("a") := File(None, true)], map[], 0, multiset{"a"}, {}, {});
    assert StartAll(NOTHING_DONE, needed, dest, keys[..1]) == one;
    assert Shared(one.open, dest, "a") by { assert "a" in one.open; }
  }

  lemma BothFinished(needed: map<Key, Sha>, dest: Key -> Path)
    requires needed == map["a" := 7] && dest("a") == "a"
    ensures var two := JobState(map[Part("a") := File(None, true)], map[], 0, multiset{"a", "a"}, {"a"}, {});
            FinishAll(two, needed, dest, ["a", "a"], [7, 8]) ==
            JobState(map["a" := File(None, true)], map["a" := "a"], 1, multiset{}, {"a"}, {})
  {
    PartDiffers("a");
    var two := JobState(map[Part("a") := File(None, true)], map[], 0, multiset{"a", "a"}, {"a"}, {});
    var streams: seq<Sha> := [7, 8];
    assert streams[..1] == [7] && streams[..1][..0] == [];
    assert two.disk - {Part("a")} == map[] && two.open - multiset{"a"} == multiset{"a"};
    var placed := FinishMember(two, needed, dest, "a", 7);
    assert placed == JobState(map["a" := File(None, true)], map["a" := "a"], 0, multiset{"a"}, {"a"}, {});
    assert FinishAll(two, needed, dest, ["a", "a"], streams[..1]) == placed;
    assert multiset{"a"} - multiset{"a"} == multiset{};
  }

  /** Two members of one name that the 7z reader opens before it finishes either leave a file with the bytes
      of both. The second one's error keeps this archive, but every later one with the first member's content
      is judged by that file. */
  lemma TwoWritersVerifyGarbage() returns (j: JobState)
    ensures j == HandleAll(NOTHING_DONE, map["a" := 7], key => key, [Together(["a", "a"], [7, 8])])
    ensures j.errors == 1 && TrustsGarbage(j.disk, j.verified, "a", 7)
  {
    var needed: map<Key, Sha> := map["a" := 7];
    var dest: Key -> Path := key => key;
    var streams: seq<Sha> := [7, 8];
    j := Handle(NOTHING_DONE, needed, dest, Together(["a", "a"], streams));
    BothOpened(needed, dest);
    BothFinished(needed, dest);
    assert streams[..Least(2, 2)] == streams;
    OnlyGarbage(j.disk, j.verified);
    Alone(NOTHING_DONE, needed, dest, Together(["a", "a"], streams));
  }

  lemma Alone(j: JobState, needed: map<Key, Sha>, dest: Key -> Path, step: Step)
    ensures HandleAll(j, needed, dest, [step]) == Handle(j, needed, dest, step)
  {
    assert [step][..0] == [];
  }

  /** The 7z reader opens a member and gives up on a method it does not support, the command-line reader
      then extracts it without any error, so the archive may be deleted; and if what the first one still had
      in its buffer goes to the file only then, and is wrong, the content is gone. */
  lemma LateWriteLosesContent() returns (clean: JobState, j: JobState)
    ensures clean == HandleAll(NOTHING_DONE, map["a" := 7], key => key, [Together(["a"], []), One("a", Some(7))])
    ensures clean.errors == 0 && clean.verified == map["a" := "a"] && Holds(clean.disk, "a", 7)
    ensures j == Handle(clean, map["a" := 7], key => key, Late("a", true)) && TrustsGarbage(j.disk, j.verified, "a", 7)
  {
    var needed: map<Key, Sha> := map["a" := 7];
    var dest: Key -> Path := key => key;
    var none: seq<Sha> := [];
    PartDiffers("a");
    var begun := StartMember(NOTHING_DONE, needed, dest, "a");
    assert begun == JobState(map[Part("a") := File(None, true)], map[], 0, multiset{"a"}, {}, {});
    assert ["a"][..0] == [] && none[..Least(|none|, 1)] == [];
    assert StartAll(NOTHING_DONE, needed, dest, ["a"]) == begun;
    var given := Handle(NOTHING_DONE, needed, dest, Together(["a"], none));
    assert given == GiveUp(begun, dest);
    assert given.stale == {"a"};
    clean := Handle(given, needed, dest, One("a", Some(7)));
    FallbackReads(given, needed, dest);
    assert [Together(["a"], none), One("a", Some(7))][..1] == [Together(["a"], none)];
    Alone(NOTHING_DONE, needed, dest, Together(["a"], none));
    j := Handle(clean, needed, dest, Late("a", true));
    OnlyGarbage(j.disk, j.verified);
  }

  lemma FallbackReads(given: JobState, needed: map<Key, Sha>, dest: Key -> Path)
    requires needed == map["a" := 7] && dest("a") == "a"
    requires given == JobState(map[Part("a") := File(None, true)], map[], 0, multiset{}, {}, {"a"})
    ensures Handle(given, needed, dest, One("a", Some(7))) ==
            JobState(map["a" := File(Some(7), true)], map["a" := "a"], 0, multiset{}, {}, {"a"})
  {
    PartDiffers("a");
    var started := StartMember(given, needed, dest, "a");
    assert !Shared(given.open, dest, "a") && multiset{} + multiset{"a"} == multiset{"a"};
    assert started == JobState(map[Part("a") := File(None, true)], map[], 0, multiset{"a"}, {}, {"a"});
    assert started.disk - {Part("a")} == map[] && multiset{"a"} - multiset{"a"} == multiset{};
  }
}
