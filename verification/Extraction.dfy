/** Extracting the members of one archive that exist nowhere else: partial files, the check of what was
    written, and what the different archive readers do to it. */
module Extraction {
  import opened Collections

  type Path = string
  type Key = string
  type Sha = nat

  /** `content` is absent when two writers have mixed their bytes; `touched` says that size or
      modification time are not what the scan recorded. */
  datatype File = File(content: Option<Sha>, touched: bool)
  type Disk = map<Path, File>

  function Part(final: Path): Path
  {
    final + ".part"
  }

  lemma PartDiffers(p: Path)
    ensures Part(p) != p
  {
    assert |Part(p)| == |p| + 5;
  }

  lemma PartInjective(p: Path, q: Path)
    requires Part(p) == Part(q)
    ensures p == q
  {
    assert Part(p)[..|p|] == p && Part(q)[..|q|] == q;
  }

  predicate Holds(disk: Disk, p: Path, sha: Sha)
  {
    p in disk && disk[p].content == Some(sha)
  }

  // ----- what the readers do ------------------------------------------------------------------------------

  /** What happens while one archive, its nested archives included, is read:
      - `One`: a reader that takes one member at a time opens it, reads it, and finishes it or breaks off;
      - `Together`: the other reader opens these members one after the other and then finishes as many of
        them, in the same order, with the hashes of what was written to them. It finishes none if it gives
        up while reading, and only the first few if finishing one raises; what it leaves open stays open;
      - `Failed`: any other exception;
      - `Late`: a writer that was left open writes out what it still had in its buffer, changing the bytes
        of its file or not. */
  datatype Step =
    | One(key: Key, outcome: Option<Sha>)
    | Together(keys: seq<Key>, streams: seq<Sha>)
    | Failed
    | Late(file: Path, changes: bool)

  /** `open` has every writer of a partial file and `mixed` the files that two of them share; `stale` are
      the files that a writer was left open on. */
  datatype JobState = JobState(disk: Disk, verified: map<Key, Path>, errors: nat, open: multiset<Key>, mixed: set<Path>,
                               stale: set<Path>)

  const NOTHING_DONE := JobState(map[], map[], 0, multiset{}, {}, {})

  predicate Shared(open: multiset<Key>, dest: Key -> Path, key: Key)
  {
    exists other :: other in open && dest(other) == dest(key)
  }

  function StartMember(j: JobState, needed: map<Key, Sha>, dest: Key -> Path, key: Key): JobState
  {
    if key !in needed then j
    else if dest(key) in j.disk then
      if j.disk[dest(key)].content == Some(needed[key]) then j.(verified := j.verified[key := dest(key)])
      else j.(errors := j.errors + 1)
    else j.(disk := j.disk[Part(dest(key)) := File(None, true)], open := j.open + multiset{key},
            mixed := if Shared(j.open, dest, key) then j.mixed + {dest(key)} else j.mixed - {dest(key)})
  }

  function FinishMember(j: JobState, needed: map<Key, Sha>, dest: Key -> Path, key: Key, streamed: Sha): JobState
  {
    if key !in needed || key !in j.open then j else
      var closed := j.(open := j.open - multiset{key});
      if Part(dest(key)) !in j.disk then closed.(errors := j.errors + 1)
      else if streamed != needed[key] then closed.(disk := j.disk - {Part(dest(key))}, errors := j.errors + 1)
      else closed.(disk := (j.disk - {Part(dest(key))})[dest(key) := File(if dest(key) in j.mixed then None else Some(streamed), true)],
                   verified := j.verified[key := dest(key)])
  }

  function ReadMember(j: JobState, needed: map<Key, Sha>, dest: Key -> Path, key: Key, outcome: Option<Sha>): JobState
  {
    var started := StartMember(j, needed, dest, key);
    if key !in needed || dest(key) in j.disk then
      if outcome.Some? then started else started.(errors := j.errors + 1)
    else if outcome.Some? then FinishMember(started, needed, dest, key, outcome.value)
    else started.(disk := started.disk - {Part(dest(key))}, open := j.open, errors := j.errors + 1)
  }

  /** The members are opened in this order. */
  function StartAll(j: JobState, needed: map<Key, Sha>, dest: Key -> Path, keys: seq<Key>): JobState
    decreases |keys|
  {
    if keys == [] then j else
      StartMember(StartAll(j, needed, dest, keys[..|keys| - 1]), needed, dest, keys[|keys| - 1])
  }

  /** The first of them are finished, each with the hash of what was written to it. */
  function FinishAll(j: JobState, needed: map<Key, Sha>, dest: Key -> Path, keys: seq<Key>, streams: seq<Sha>): JobState
    requires |streams| <= |keys|
    decreases |streams|
  {
    if streams == [] then j else
      var n := |streams| - 1;
      FinishMember(FinishAll(j, needed, dest, keys, streams[..n]), needed, dest, keys[n], streams[n])
  }

  function GiveUp(j: JobState, dest: Key -> Path): JobState
  {
    j.(stale := j.stale + (set key | key in j.open :: dest(key)), open := multiset{})
  }

  function WriteLate(j: JobState, file: Path): JobState
  {
    if file !in j.stale then j
    else if file in j.disk then j.(disk := j.disk[file := File(None, true)])
    else j.(mixed := j.mixed + {file})
  }

  function Handle(j: JobState, needed: map<Key, Sha>, dest: Key -> Path, step: Step): JobState
  {
    match step
    case One(key, outcome) => ReadMember(j, needed, dest, key, outcome)
    case Together(keys, streams) =>
      var finished := streams[..Least(|streams|, |keys|)];
      GiveUp(FinishAll(StartAll(j, needed, dest, keys), needed, dest, keys, finished), dest)
    case Failed => j.(errors := j.errors + 1)
    case Late(file, changes) => if changes then WriteLate(j, file) else j
  }

  function HandleAll(j: JobState, needed: map<Key, Sha>, dest: Key -> Path, steps: seq<Step>): JobState
    decreases |steps|
  {
    if steps == [] then j else
      Handle(HandleAll(j, needed, dest, steps[..|steps| - 1]), needed, dest, steps[|steps| - 1])
  }

  // ----- nothing is overwritten --------------------------------------------------------------------------------

  /** The needed members do not go to partial files. */
  ghost predicate Apart(parts: Path -> bool, dest: Key -> Path, needed: map<Key, Sha>)
  {
    forall key :: key in needed ==> parts(Part(dest(key))) && !parts(dest(key))
  }

  ghost predicate Untouched(disk: Disk, disk': Disk, parts: Path -> bool)
  {
    forall p :: !parts(p) && p in disk ==> p in disk' && disk'[p] == disk[p]
  }

  /** Every writer, abandoned ones included, is on a file that was not there at the start. */
  predicate WritesNew(disk: Disk, needed: map<Key, Sha>, dest: Key -> Path, j: JobState)
  {
    (forall key :: key in j.open ==> key in needed && dest(key) !in disk) && forall d :: d in j.stale ==> d !in disk
  }

  ghost predicate Harmless(disk: Disk, parts: Path -> bool, needed: map<Key, Sha>, dest: Key -> Path, j: JobState)
  {
    Untouched(disk, j.disk, parts) && WritesNew(disk, needed, dest, j)
  }

  lemma StartIsHarmless(disk: Disk, parts: Path -> bool, needed: map<Key, Sha>, dest: Key -> Path, j: JobState, key: Key)
    requires Apart(parts, dest, needed) && Harmless(disk, parts, needed, dest, j)
    ensures Harmless(disk, parts, needed, dest, StartMember(j, needed, dest, key))
  {
    var j' := StartMember(j, needed, dest, key);
    forall other | other in j'.open ensures other in j.open || (other == key && key in needed && dest(key) !in j.disk) {}
  }

  lemma FinishIsHarmless(disk: Disk, parts: Path -> bool, needed: map<Key, Sha>, dest: Key -> Path, j: JobState,
                         key: Key, streamed: Sha)
    requires Apart(parts, dest, needed) && Harmless(disk, parts, needed, dest, j)
    ensures Harmless(disk, parts, needed, dest, FinishMember(j, needed, dest, key, streamed))
  {
    var j' := FinishMember(j, needed, dest, key, streamed);
    forall other | other in j'.open ensures other in j.open {}
  }

  lemma ReadIsHarmless(disk: Disk, parts: Path -> bool, needed: map<Key, Sha>, dest: Key -> Path, j: JobState,
                       key: Key, outcome: Option<Sha>)
    requires Apart(parts, dest, needed) && Harmless(disk, parts, needed, dest, j)
    ensures Harmless(disk, parts, needed, dest, ReadMember(j, needed, dest, key, outcome))
  {
    StartIsHarmless(disk, parts, needed, dest, j, key);
    if outcome.Some? {
      FinishIsHarmless(disk, parts, needed, dest, StartMember(j, needed, dest, key), key, outcome.value);
    }
  }

  lemma {:induction false} StartAllIsHarmless(disk: Disk, parts: Path -> bool, needed: map<Key, Sha>, dest: Key -> Path,
                                              j: JobState, keys: seq<Key>)
    requires Apart(parts, dest, needed) && Harmless(disk, parts, needed, dest, j)
    ensures Harmless(disk, parts, needed, dest, StartAll(j, needed, dest, keys))
    decreases |keys|
  {
    if keys != [] {
      var n := |keys| - 1;
      StartAllIsHarmless(disk, parts, needed, dest, j, keys[..n]);
      StartIsHarmless(disk, parts, needed, dest, StartAll(j, needed, dest, keys[..n]), keys[n]);
    }
  }

  lemma {:induction false} FinishAllIsHarmless(disk: Disk, parts: Path -> bool, needed: map<Key, Sha>, dest: Key -> Path,
                                               j: JobState, keys: seq<Key>, streams: seq<Sha>)
    requires Apart(parts, dest, needed) && Harmless(disk, parts, needed, dest, j) && |streams| <= |keys|
    ensures Harmless(disk, parts, needed, dest, FinishAll(j, needed, dest, keys, streams))
    decreases |streams|
  {
    if streams != [] {
      var n := |streams| - 1;
      FinishAllIsHarmless(disk, parts, needed, dest, j, keys, streams[..n]);
      FinishIsHarmless(disk, parts, needed, dest, FinishAll(j, needed, dest, keys, streams[..n]), keys[n], streams[n]);
    }
  }

  lemma StepIsHarmless(disk: Disk, parts: Path -> bool, needed: map<Key, Sha>, dest: Key -> Path, j: JobState, step: Step)
    requires Apart(parts, dest, needed) && Harmless(disk, parts, needed, dest, j)
    ensures Harmless(disk, parts, needed, dest, Handle(j, needed, dest, step))
  {
    match step
    case One(key, outcome) => ReadIsHarmless(disk, parts, needed, dest, j, key, outcome);
    case Together(keys, streams) =>
      StartAllIsHarmless(disk, parts, needed, dest, j, keys);
      FinishAllIsHarmless(disk, parts, needed, dest, StartAll(j, needed, dest, keys), keys, streams[..Least(|streams|, |keys|)]);
    case Failed =>
    case Late(file, changes) =>
  }

  /** Whatever the readers do, clashing names, exceptions and late writes included: no file that was there,
      partial ones aside, is ever changed or removed. */
  lemma {:induction false} NothingOverwritten(disk: Disk, parts: Path -> bool, needed: map<Key, Sha>, dest: Key -> Path,
                                              j: JobState, steps: seq<Step>)
    requires Apart(parts, dest, needed) && Harmless(disk, parts, needed, dest, j)
    ensures Harmless(disk, parts, needed, dest, HandleAll(j, needed, dest, steps))
    decreases |steps|
  {
    if steps != [] {
      var n := |steps| - 1;
      NothingOverwritten(disk, parts, needed, dest, j, steps[..n]);
      StepIsHarmless(disk, parts, needed, dest, HandleAll(j, needed, dest, steps[..n]), steps[n]);
    }
  }

  // ----- what is recorded as verified ---------------------------------------------------------------------------

  predicate SoleWriters(dest: Key -> Path, needed: map<Key, Sha>, j: JobState)
  {
    (forall key :: key in j.open ==> key in needed && j.open[key] == 1 && dest(key) !in j.mixed && dest(key) !in j.disk) &&
    (forall key, other :: key in j.open && other in j.open && dest(key) == dest(other) ==> key == other)
  }

  /** Whatever is recorded as verified is on disk with the right content. */
  predicate VerifiedOk(dest: Key -> Path, needed: map<Key, Sha>, j: JobState)
  {
    forall key :: key in j.verified ==> key in needed && j.verified[key] == dest(key) && Holds(j.disk, dest(key), needed[key])
  }

  predicate Spared(disk: Disk, disk': Disk, p: Path)
  {
    p in disk ==> p in disk' && disk'[p] == disk[p]
  }

  predicate Extracted(disk': Disk, dest: Key -> Path, needed: map<Key, Sha>, p: Path)
  {
    p in disk' && disk'[p].touched && exists key :: key in needed && p == dest(key) && Holds(disk', p, needed[key])
  }

  predicate FileOk(disk: Disk, disk': Disk, dest: Key -> Path, needed: map<Key, Sha>, p: Path)
  {
    Spared(disk, disk', p) && (p in disk' && p !in disk ==> Extracted(disk', dest, needed, p))
  }

  /** Partial files aside, no file is changed or lost, and every new one is a needed member's. */
  ghost predicate DiskOk(disk: Disk, disk': Disk, parts: Path -> bool, dest: Key -> Path, needed: map<Key, Sha>)
  {
    forall p :: !parts(p) ==> FileOk(disk, disk', dest, needed, p)
  }

  ghost predicate JobOk(disk: Disk, parts: Path -> bool, dest: Key -> Path, needed: map<Key, Sha>, j: JobState)
  {
    VerifiedOk(dest, needed, j) && DiskOk(disk, j.disk, parts, dest, needed) && SoleWriters(dest, needed, j)
  }

  ghost predicate SameBut(a: Disk, b: Disk, part: Path)
  {
    forall p :: (p in a || p in b) && p != part ==> p in a && p in b && a[p] == b[p]
  }

  /** Writing or removing a partial file disturbs nothing. */
  lemma PartsDoNotMatter(disk: Disk, parts: Path -> bool, dest: Key -> Path, needed: map<Key, Sha>, a: Disk, b: Disk,
                         part: Path)
    requires DiskOk(disk, a, parts, dest, needed) && parts(part) && SameBut(a, b, part)
    ensures DiskOk(disk, b, parts, dest, needed)
  {
    forall p | !parts(p) ensures FileOk(disk, b, dest, needed, p) {
      assert FileOk(disk, a, dest, needed, p);
      if p in b && p !in disk {
        var key :| key in needed && p == dest(key) && Holds(a, p, needed[key]);
        assert Holds(b, p, needed[key]);
      }
    }
  }

  /** A member of which no file is being written becomes the one writer of its file. */
  lemma StartKeepsWriters(dest: Key -> Path, needed: map<Key, Sha>, j: JobState, key: Key, disk': Disk, mixed: set<Path>)
    requires SoleWriters(dest, needed, j) && key in needed && dest(key) !in j.disk && !Shared(j.open, dest, key)
    requires forall other :: other in needed && dest(other) !in j.disk ==> dest(other) !in disk'
    requires mixed == j.mixed - {dest(key)}
    ensures SoleWriters(dest, needed, JobState(disk', j.verified, j.errors, j.open + multiset{key}, mixed, j.stale))
  {
    var open := j.open + multiset{key};
    forall other | other in open ensures other == key || (other in j.open && dest(other) != dest(key)) {}
    forall other | other in open && other != key ensures open[other] == j.open[other] {}
    assert key !in j.open;
  }

  lemma StartKeepsJob(disk: Disk, parts: Path -> bool, dest: Key -> Path, needed: map<Key, Sha>, j: JobState, key: Key)
    requires Apart(parts, dest, needed) && JobOk(disk, parts, dest, needed, j)
    requires key in needed && dest(key) !in j.disk ==> !Shared(j.open, dest, key)
    ensures JobOk(disk, parts, dest, needed, StartMember(j, needed, dest, key))
  {
    if key in needed && dest(key) !in j.disk {
      var j' := StartMember(j, needed, dest, key);
      PartsDoNotMatter(disk, parts, dest, needed, j.disk, j'.disk, Part(dest(key)));
      forall other | other in needed ensures Part(dest(key)) != dest(other) {
        assert parts(Part(dest(key))) && !parts(dest(other));
      }
      StartKeepsWriters(dest, needed, j, key, j'.disk, j'.mixed);
      assert VerifiedOk(dest, needed, j');
    }
  }

  /** A partial file renamed into place is a verified member with exactly its recorded content. */
  lemma PlacedIsOk(disk: Disk, parts: Path -> bool, dest: Key -> Path, needed: map<Key, Sha>, now: Disk, key: Key)
    requires DiskOk(disk, now, parts, dest, needed) && key in needed && dest(key) !in now && !parts(dest(key))
    ensures DiskOk(disk, now[dest(key) := File(Some(needed[key]), true)], parts, dest, needed)
  {
    var disk' := now[dest(key) := File(Some(needed[key]), true)];
    forall p | !parts(p) ensures FileOk(disk, disk', dest, needed, p) {
      assert FileOk(disk, now, dest, needed, p) && FileOk(disk, now, dest, needed, dest(key));
      if p == dest(key) {
        assert Holds(disk', p, needed[key]);
      } else if p in disk' && p !in disk {
        var other :| other in needed && p == dest(other) && Holds(now, p, needed[other]);
        assert Holds(disk', p, needed[other]);
      }
    }
  }

  /** The one writer of a file, once finished, leaves the others as they were. */
  lemma PlacingKeepsWriters(dest: Key -> Path, needed: map<Key, Sha>, j: JobState, key: Key, disk': Disk,
                            verified: map<Key, Path>)
    requires SoleWriters(dest, needed, j) && key in j.open && disk'.Keys <= j.disk.Keys + {dest(key)}
    ensures SoleWriters(dest, needed, JobState(disk', verified, j.errors, j.open - multiset{key}, j.mixed, j.stale))
  {
    var open := j.open - multiset{key};
    forall other | other in open ensures other in j.open && other != key && open[other] == j.open[other] {}
  }

  /** What was verified before stays verified when one more file is put in place. */
  lemma PlacingKeepsVerified(dest: Key -> Path, needed: map<Key, Sha>, j: JobState, j': JobState, key: Key)
    requires VerifiedOk(dest, needed, j) && key in needed && dest(key) !in j.disk
    requires j'.verified == j.verified[key := dest(key)]
    requires Holds(j'.disk, dest(key), needed[key])
    requires forall other :: other in needed && dest(other) != dest(key) ==> Spared(j.disk, j'.disk, dest(other))
    ensures VerifiedOk(dest, needed, j')
  {
    forall other | other in j'.verified
      ensures other in needed && j'.verified[other] == dest(other) && Holds(j'.disk, dest(other), needed[other])
    {
      if other != key {
        assert other in j.verified && Holds(j.disk, dest(other), needed[other]);
        assert Spared(j.disk, j'.disk, dest(other));
      }
    }
  }

  lemma PlacingKeepsJob(disk: Disk, parts: Path -> bool, dest: Key -> Path, needed: map<Key, Sha>, j: JobState,
                        key: Key)
    requires Apart(parts, dest, needed) && JobOk(disk, parts, dest, needed, j) && key in needed && key in j.open
    ensures JobOk(disk, parts, dest, needed,
                  JobState((j.disk - {Part(dest(key))})[dest(key) := File(Some(needed[key]), true)],
                           j.verified[key := dest(key)], j.errors, j.open - multiset{key}, j.mixed, j.stale))
  {
    var without := j.disk - {Part(dest(key))};
    var disk', verified := without[dest(key) := File(Some(needed[key]), true)], j.verified[key := dest(key)];
    PartsDoNotMatter(disk, parts, dest, needed, j.disk, without, Part(dest(key)));
    PlacedIsOk(disk, parts, dest, needed, without, key);
    PlacingKeepsWriters(dest, needed, j, key, disk', verified);
    forall other | other in needed && dest(other) != dest(key) ensures Spared(j.disk, disk', dest(other)) {
      assert parts(Part(dest(key))) && !parts(dest(other));
    }
    PlacingKeepsVerified(dest, needed, j, JobState(disk', verified, j.errors, j.open - multiset{key}, j.mixed, j.stale), key);
  }

  lemma DroppingKeepsJob(disk: Disk, parts: Path -> bool, dest: Key -> Path, needed: map<Key, Sha>, j: JobState,
                         key: Key, errors: nat, open: multiset<Key>)
    requires Apart(parts, dest, needed) && JobOk(disk, parts, dest, needed, j) && key in needed && open <= j.open
    ensures JobOk(disk, parts, dest, needed, JobState(j.disk - {Part(dest(key))}, j.verified, errors, open, j.mixed, j.stale))
    ensures JobOk(disk, parts, dest, needed, j.(errors := errors, open := open))
  {
    PartsDoNotMatter(disk, parts, dest, needed, j.disk, j.disk - {Part(dest(key))}, Part(dest(key)));
    forall other | other in needed ensures Part(dest(key)) != dest(other) { assert parts(Part(dest(key))) && !parts(dest(other)); }
    forall other | other in open ensures other in j.open && open[other] == j.open[other] { assert open[other] <= j.open[other]; }
  }

  lemma FinishKeepsJob(disk: Disk, parts: Path -> bool, dest: Key -> Path, needed: map<Key, Sha>, j: JobState,
                       key: Key, streamed: Sha)
    requires Apart(parts, dest, needed) && JobOk(disk, parts, dest, needed, j)
    ensures JobOk(disk, parts, dest, needed, FinishMember(j, needed, dest, key, streamed))
  {
    if key in needed && key in j.open {
      if Part(dest(key)) in j.disk && streamed == needed[key] {
        PlacingKeepsJob(disk, parts, dest, needed, j, key);
      } else {
        DroppingKeepsJob(disk, parts, dest, needed, j, key, j.errors + 1, j.open - multiset{key});
      }
    }
  }

  lemma ReadKeepsJob(disk: Disk, parts: Path -> bool, dest: Key -> Path, needed: map<Key, Sha>, j: JobState,
                     key: Key, outcome: Option<Sha>)
    requires Apart(parts, dest, needed) && JobOk(disk, parts, dest, needed, j)
    requires key in needed && dest(key) !in j.disk ==> !Shared(j.open, dest, key)
    ensures JobOk(disk, parts, dest, needed, ReadMember(j, needed, dest, key, outcome))
  {
    var started := StartMember(j, needed, dest, key);
    StartKeepsJob(disk, parts, dest, needed, j, key);
    if key in needed && dest(key) !in j.disk {
      if outcome.Some? {
        FinishKeepsJob(disk, parts, dest, needed, started, key, outcome.value);
      } else {
        DroppingKeepsJob(disk, parts, dest, needed, started, key, j.errors + 1, j.open);
      }
    }
  }

  /** No member is being written. */
  ghost predicate Between(disk: Disk, parts: Path -> bool, dest: Key -> Path, needed: map<Key, Sha>, j: JobState)
  {
    JobOk(disk, parts, dest, needed, j) && j.open == multiset{}
  }

  /** Two of the members go to one file that is not there yet: both would be opened. */
  predicate Clash(disk: Disk, dest: Key -> Path, needed: map<Key, Sha>, keys: seq<Key>)
  {
    exists a, b :: 0 <= a < b < |keys| && Clashing(disk, dest, needed, keys[a], keys[b])
  }

  predicate Clashing(disk: Disk, dest: Key -> Path, needed: map<Key, Sha>, key: Key, other: Key)
  {
    key in needed && other in needed && dest(key) == dest(other) && dest(key) !in disk
  }

  lemma {:induction false} StartAllAddsParts(j: JobState, parts: Path -> bool, dest: Key -> Path, needed: map<Key, Sha>,
                                             keys: seq<Key>)
    requires Apart(parts, dest, needed)
    ensures forall p :: !parts(p) ==> (p in StartAll(j, needed, dest, keys).disk <==> p in j.disk)
    decreases |keys|
  {
    if keys != [] { StartAllAddsParts(j, parts, dest, needed, keys[..|keys| - 1]); }
  }

  lemma {:induction false} StartAllKeepsJob(disk: Disk, parts: Path -> bool, dest: Key -> Path, needed: map<Key, Sha>,
                                            j: JobState, keys: seq<Key>)
    requires Apart(parts, dest, needed) && Between(disk, parts, dest, needed, j) && !Clash(j.disk, dest, needed, keys)
    ensures JobOk(disk, parts, dest, needed, StartAll(j, needed, dest, keys))
    ensures forall key :: key in StartAll(j, needed, dest, keys).open ==> key in keys && key in needed
    decreases |keys|
  {
    if keys != [] {
      var n := |keys| - 1;
      var before, key := StartAll(j, needed, dest, keys[..n]), keys[n];
      NoClashBefore(j.disk, dest, needed, keys, n);
      StartAllKeepsJob(disk, parts, dest, needed, j, keys[..n]);
      StartAllAddsParts(j, parts, dest, needed, keys[..n]);
      if key in needed && dest(key) !in before.disk { NotShared(j.disk, dest, needed, keys, before.open); }
      StartKeepsJob(disk, parts, dest, needed, before, key);
      StartOpens(before, needed, dest, key);
    }
  }

  lemma NoClashBefore(disk: Disk, dest: Key -> Path, needed: map<Key, Sha>, keys: seq<Key>, n: nat)
    requires n <= |keys| && !Clash(disk, dest, needed, keys)
    ensures !Clash(disk, dest, needed, keys[..n])
  {
    forall a, b | 0 <= a < b < n ensures !Clashing(disk, dest, needed, keys[..n][a], keys[..n][b]) {
      assert !Clashing(disk, dest, needed, keys[a], keys[b]);
    }
  }

  lemma NotShared(disk: Disk, dest: Key -> Path, needed: map<Key, Sha>, keys: seq<Key>, open: multiset<Key>)
    requires keys != [] && !Clash(disk, dest, needed, keys)
    requires forall other :: other in open ==> other in keys[..|keys| - 1] && other in needed
    requires keys[|keys| - 1] in needed && dest(keys[|keys| - 1]) !in disk
    ensures !Shared(open, dest, keys[|keys| - 1])
  {
    var n := |keys| - 1;
    forall other | other in open ensures dest(other) != dest(keys[n]) {
      var a :| 0 <= a < n && keys[..n][a] == other;
      assert !Clashing(disk, dest, needed, keys[a], keys[n]);
    }
  }

  lemma StartOpens(j: JobState, needed: map<Key, Sha>, dest: Key -> Path, key: Key)
    ensures forall other :: other in StartMember(j, needed, dest, key).open ==> other in j.open || (other == key && key in needed)
  {}

  lemma {:induction false} FinishAllKeepsJob(disk: Disk, parts: Path -> bool, dest: Key -> Path, needed: map<Key, Sha>,
                                             j: JobState, keys: seq<Key>, streams: seq<Sha>)
    requires Apart(parts, dest, needed) && JobOk(disk, parts, dest, needed, j) && |streams| <= |keys|
    ensures JobOk(disk, parts, dest, needed, FinishAll(j, needed, dest, keys, streams))
    decreases |streams|
  {
    if streams != [] {
      var n := |streams| - 1;
      FinishAllKeepsJob(disk, parts, dest, needed, j, keys, streams[..n]);
      FinishKeepsJob(disk, parts, dest, needed, FinishAll(j, needed, dest, keys, streams[..n]), keys[n], streams[n]);
    }
  }

  /** A reader that finishes nothing leaves only partial files behind, clash or not. */
  lemma {:induction false} StartAllVerifies(disk: Disk, parts: Path -> bool, dest: Key -> Path, needed: map<Key, Sha>,
                                            j: JobState, keys: seq<Key>)
    requires Apart(parts, dest, needed) && VerifiedOk(dest, needed, j) && DiskOk(disk, j.disk, parts, dest, needed)
    ensures var j' := StartAll(j, needed, dest, keys);
            VerifiedOk(dest, needed, j') && DiskOk(disk, j'.disk, parts, dest, needed)
    decreases |keys|
  {
    if keys != [] {
      var n := |keys| - 1;
      StartAllVerifies(disk, parts, dest, needed, j, keys[..n]);
      StartVerifies(disk, parts, dest, needed, StartAll(j, needed, dest, keys[..n]), keys[n]);
    }
  }

  lemma StartVerifies(disk: Disk, parts: Path -> bool, dest: Key -> Path, needed: map<Key, Sha>, j: JobState, key: Key)
    requires Apart(parts, dest, needed) && VerifiedOk(dest, needed, j) && DiskOk(disk, j.disk, parts, dest, needed)
    ensures var j' := StartMember(j, needed, dest, key);
            VerifiedOk(dest, needed, j') && DiskOk(disk, j'.disk, parts, dest, needed)
  {
    if key in needed && dest(key) !in j.disk {
      var j' := StartMember(j, needed, dest, key);
      PartsDoNotMatter(disk, parts, dest, needed, j.disk, j'.disk, Part(dest(key)));
      forall other | other in needed ensures Part(dest(key)) != dest(other) {
        assert parts(Part(dest(key))) && !parts(dest(other));
      }
    }
  }

  lemma TogetherKeepsJob(disk: Disk, parts: Path -> bool, dest: Key -> Path, needed: map<Key, Sha>, j: JobState,
                         keys: seq<Key>, streams: seq<Sha>)
    requires Apart(parts, dest, needed) && Between(disk, parts, dest, needed, j)
    requires |streams| <= |keys| && (streams == [] || !Clash(j.disk, dest, needed, keys))
    ensures Between(disk, parts, dest, needed, GiveUp(FinishAll(StartAll(j, needed, dest, keys), needed, dest, keys, streams), dest))
  {
    if streams == [] {
      StartAllVerifies(disk, parts, dest, needed, j, keys);
    } else {
      StartAllKeepsJob(disk, parts, dest, needed, j, keys);
      FinishAllKeepsJob(disk, parts, dest, needed, StartAll(j, needed, dest, keys), keys, streams);
    }
  }

  /** Reading one member leaves the writers as they were. */
  lemma ReadingOpensNothing(needed: map<Key, Sha>, dest: Key -> Path, j: JobState, key: Key, outcome: Option<Sha>)
    ensures ReadMember(j, needed, dest, key, outcome).open == j.open
  {
    assert j.open + multiset{key} - multiset{key} == j.open;
  }

  lemma {:induction false} StartAllOpensExactly(j: JobState, parts: Path -> bool, dest: Key -> Path, needed: map<Key, Sha>,
                                                keys: seq<Key>)
    requires Apart(parts, dest, needed) && j.open == multiset{}
    ensures forall key :: key in StartAll(j, needed, dest, keys).open <==> key in keys && key in needed && dest(key) !in j.disk
    ensures StartAll(j, needed, dest, keys).stale == j.stale
    decreases |keys|
  {
    if keys != [] {
      var n := |keys| - 1;
      StartAllOpensExactly(j, parts, dest, needed, keys[..n]);
      StartAllAddsParts(j, parts, dest, needed, keys[..n]);
      assert keys == keys[..n] + [keys[n]];
    }
  }

  // ----- which files a step puts in place or leaves writers on -----------------------------------------------------

  /** A member that goes to the file comes out with its recorded hash: the step puts the file in place, unless
      it is there already. */
  predicate Places(needed: map<Key, Sha>, dest: Key -> Path, step: Step, d: Path)
  {
    match step
    case One(key, outcome) => key in needed && dest(key) == d && outcome == Some(needed[key])
    case Together(keys, streams) =>
      exists n :: 0 <= n < |keys| && n < |streams| && keys[n] in needed && dest(keys[n]) == d && streams[n] == needed[keys[n]]
    case _ => false
  }

  /** A reader that takes a member which goes to the file together with others does not get to finish it. */
  predicate LeavesOpen(needed: map<Key, Sha>, dest: Key -> Path, step: Step, d: Path)
  {
    step.Together? && exists n :: |step.streams| <= n < |step.keys| && step.keys[n] in needed && dest(step.keys[n]) == d
  }

  predicate PlacedBy(needed: map<Key, Sha>, dest: Key -> Path, steps: seq<Step>, d: Path)
  {
    exists m :: 0 <= m < |steps| && Places(needed, dest, steps[m], d)
  }

  predicate LeftAt(needed: map<Key, Sha>, dest: Key -> Path, steps: seq<Step>, d: Path, l: nat)
    requires l < |steps|
  {
    LeavesOpen(needed, dest, steps[l], d) && !PlacedBy(needed, dest, steps[..l], d)
  }

  /** A writer is left open on the file before it is put in place. */
  predicate LeftBy(needed: map<Key, Sha>, dest: Key -> Path, steps: seq<Step>, d: Path)
  {
    exists l :: 0 <= l < |steps| && LeftAt(needed, dest, steps, d, l)
  }

  /** One reader leaves a writer open on the file, and a later one puts it in place. */
  predicate Spoilable(disk: Disk, needed: map<Key, Sha>, dest: Key -> Path, steps: seq<Step>, d: Path)
  {
    d !in disk && LeftBy(needed, dest, steps, d) && PlacedBy(needed, dest, steps, d)
  }

  /** No two needed members that are finished together go to one file that is not there yet, and a late write
      changes no file that was put in place over a writer left open on it. `disk` are the files of the start. */
  predicate SafeStep(disk: Disk, dest: Key -> Path, needed: map<Key, Sha>, before: seq<Step>, step: Step)
  {
    match step
    case Together(keys, streams) => streams == [] || !Clash(disk, dest, needed, keys)
    case Late(file, changes) => changes ==> !Spoilable(disk, needed, dest, before, file)
    case _ => true
  }

  predicate SafeSteps(disk: Disk, dest: Key -> Path, needed: map<Key, Sha>, steps: seq<Step>)
  {
    forall n :: 0 <= n < |steps| ==> SafeStep(disk, dest, needed, steps[..n], steps[n])
  }

  predicate VerifiedAt(j: JobState, dest: Key -> Path, d: Path)
  {
    exists key :: key in j.verified && dest(key) == d
  }

  /** What one step does to a file that is not a partial one. */
  predicate Effect(needed: map<Key, Sha>, dest: Key -> Path, j: JobState, j': JobState, step: Step, d: Path)
  {
    (d in j'.disk <==> d in j.disk || Places(needed, dest, step, d)) &&
    (d in j'.stale <==> d in j.stale || (LeavesOpen(needed, dest, step, d) && d !in j.disk)) &&
    (VerifiedAt(j, dest, d) || (d in j'.disk && d !in j.disk) ==> VerifiedAt(j', dest, d))
  }

  /** Files only come, and what was verified stays so. */
  ghost predicate Grows(parts: Path -> bool, j: JobState, j': JobState)
  {
    (forall p :: !parts(p) && p in j.disk ==> p in j'.disk) && j.verified.Keys <= j'.verified.Keys
  }

  lemma {:induction false} StartAllGrows(j: JobState, parts: Path -> bool, dest: Key -> Path, needed: map<Key, Sha>,
                                         keys: seq<Key>)
    requires Apart(parts, dest, needed)
    ensures Grows(parts, j, StartAll(j, needed, dest, keys))
    ensures StartAll(j, needed, dest, keys).open <= j.open + multiset(keys) && StartAll(j, needed, dest, keys).stale == j.stale
    decreases |keys|
  {
    if keys != [] {
      var n := |keys| - 1;
      StartAllGrows(j, parts, dest, needed, keys[..n]);
      assert keys == keys[..n] + [keys[n]];
    }
  }

  lemma {:induction false} FinishAllGrows(j: JobState, parts: Path -> bool, dest: Key -> Path, needed: map<Key, Sha>,
                                          keys: seq<Key>, streams: seq<Sha>)
    requires Apart(parts, dest, needed) && |streams| <= |keys|
    ensures Grows(parts, j, FinishAll(j, needed, dest, keys, streams))
    ensures FinishAll(j, needed, dest, keys, streams).stale == j.stale
    decreases |streams|
  {
    if streams != [] {
      FinishAllGrows(j, parts, dest, needed, keys, streams[..|streams| - 1]);
    }
  }

  lemma FinishCloses(j: JobState, dest: Key -> Path, needed: map<Key, Sha>, key: Key, streamed: Sha, later: multiset<Key>)
    requires j.open <= multiset{key} + later && forall other :: other in j.open ==> other in needed
    ensures var open := FinishMember(j, needed, dest, key, streamed).open; open <= later && open <= j.open
  {
    if key !in j.open {
      forall other ensures j.open[other] <= later[other] {}
    }
  }

  /** Only members that are still to be finished have writers. */
  lemma {:induction false} OpenIsLater(j: JobState, dest: Key -> Path, needed: map<Key, Sha>, keys: seq<Key>,
                                       streams: seq<Sha>)
    requires |streams| <= |keys| && j.open <= multiset(keys) && forall key :: key in j.open ==> key in needed
    ensures FinishAll(j, needed, dest, keys, streams).open <= multiset(keys[|streams|..])
    ensures FinishAll(j, needed, dest, keys, streams).open <= j.open
    decreases |streams|
  {
    if streams == [] {
      assert keys[0..] == keys;
    } else {
      var n := |streams| - 1;
      OpenIsLater(j, dest, needed, keys, streams[..n]);
      assert keys[n..] == [keys[n]] + keys[n + 1..];
      FinishCloses(FinishAll(j, needed, dest, keys, streams[..n]), dest, needed, keys[n], streams[n], multiset(keys[n + 1..]));
    }
  }

  /** Finishing members that go elsewhere does not bring the file. */
  lemma {:induction false} FinishAllSkips(j: JobState, parts: Path -> bool, dest: Key -> Path, needed: map<Key, Sha>,
                                          keys: seq<Key>, streams: seq<Sha>, d: Path)
    requires Apart(parts, dest, needed) && |streams| <= |keys| && !parts(d) && d !in j.disk
    requires forall n :: 0 <= n < |streams| && keys[n] in needed ==> dest(keys[n]) != d
    ensures d !in FinishAll(j, needed, dest, keys, streams).disk
    decreases |streams|
  {
    if streams != [] { FinishAllSkips(j, parts, dest, needed, keys, streams[..|streams| - 1], d); }
  }

  /** A writer of `d` is open on a partial file that is there. */
  predicate Writing(j: JobState, dest: Key -> Path, key: Key, d: Path)
  {
    key in j.open && dest(key) == d && Part(d) in j.disk
  }

  lemma OthersKeepWriting(j: JobState, parts: Path -> bool, dest: Key -> Path, needed: map<Key, Sha>, key: Key, d: Path,
                          other: Key, streamed: Sha)
    requires Apart(parts, dest, needed) && Writing(j, dest, key, d) && key in needed && (other in needed ==> dest(other) != d)
    ensures var j' := FinishMember(j, needed, dest, other, streamed);
            Writing(j', dest, key, d) && j'.mixed == j.mixed && (d in j'.disk <==> d in j.disk)
  {
    if other in needed {
      if Part(dest(other)) == Part(d) { PartInjective(dest(other), d); }
      assert parts(Part(d)) && parts(Part(dest(other))) && !parts(dest(other)) && !parts(d);
    }
  }

  lemma {:induction false} EarlierKeepWriting(j: JobState, parts: Path -> bool, dest: Key -> Path, needed: map<Key, Sha>,
                                              keys: seq<Key>, streams: seq<Sha>, key: Key, d: Path)
    requires Apart(parts, dest, needed) && Writing(j, dest, key, d) && key in needed && |streams| <= |keys|
    requires forall n :: 0 <= n < |streams| && keys[n] in needed ==> dest(keys[n]) != d
    ensures var j' := FinishAll(j, needed, dest, keys, streams);
            Writing(j', dest, key, d) && j'.mixed == j.mixed && (d in j'.disk <==> d in j.disk)
    decreases |streams|
  {
    if streams != [] {
      var n := |streams| - 1;
      EarlierKeepWriting(j, parts, dest, needed, keys, streams[..n], key, d);
      OthersKeepWriting(FinishAll(j, needed, dest, keys, streams[..n]), parts, dest, needed, key, d, keys[n], streams[n]);
    }
  }

  /** The one member that goes to the file is finished: the file is there exactly if its hash is right. */
  lemma {:induction false} FinishAllAt(j: JobState, parts: Path -> bool, dest: Key -> Path, needed: map<Key, Sha>,
                                       keys: seq<Key>, streams: seq<Sha>, at: nat, d: Path)
    requires Apart(parts, dest, needed) && at < |streams| <= |keys| && keys[at] in needed && d !in j.disk && !parts(d)
    requires Writing(j, dest, keys[at], d)
    requires forall n :: 0 <= n < |keys| && n != at && keys[n] in needed ==> dest(keys[n]) != d
    ensures var j' := FinishAll(j, needed, dest, keys, streams);
            (d in j'.disk <==> streams[at] == needed[keys[at]]) && (d in j'.disk ==> VerifiedAt(j', dest, d))
    decreases |streams|
  {
    var n := |streams| - 1;
    var before, after := FinishAll(j, needed, dest, keys, streams[..n]), FinishAll(j, needed, dest, keys, streams);
    if n == at {
      EarlierKeepWriting(j, parts, dest, needed, keys, streams[..n], keys[at], d);
      if d in after.disk { assert keys[at] in after.verified; }
    } else {
      FinishAllAt(j, parts, dest, needed, keys, streams[..n], at, d);
      if key :| key in before.verified && dest(key) == d { assert key in after.verified; }
      if keys[n] in needed { assert parts(Part(dest(keys[n]))); }
    }
  }

  /** What reading one member does to the disk and to what is noted. */
  lemma ReadPlaces(parts: Path -> bool, dest: Key -> Path, needed: map<Key, Sha>, j: JobState, key: Key,
                   outcome: Option<Sha>, d: Path)
    requires Apart(parts, dest, needed) && j.open == multiset{} && !parts(d) && key in needed && dest(key) !in j.disk
    ensures var j' := ReadMember(j, needed, dest, key, outcome);
            (d in j'.disk <==> d in j.disk || (dest(key) == d && outcome == Some(needed[key]))) &&
            j'.stale == j.stale && j'.verified == if outcome == Some(needed[key]) then j.verified[key := dest(key)] else j.verified
  {
    assert parts(Part(dest(key)));
    assert key in StartMember(j, needed, dest, key).open;
  }

  lemma VerifiedStays(dest: Key -> Path, j: JobState, j': JobState, d: Path)
    requires VerifiedAt(j, dest, d) && j.verified.Keys <= j'.verified.Keys
    ensures VerifiedAt(j', dest, d)
  {
    var key :| key in j.verified && dest(key) == d;
    assert key in j'.verified;
  }

  lemma OneHasEffect(parts: Path -> bool, dest: Key -> Path, needed: map<Key, Sha>, j: JobState, key: Key,
                     outcome: Option<Sha>, d: Path)
    requires Apart(parts, dest, needed) && j.open == multiset{} && !parts(d)
    ensures Effect(needed, dest, j, ReadMember(j, needed, dest, key, outcome), One(key, outcome), d)
  {
    var j' := ReadMember(j, needed, dest, key, outcome);
    if key in needed && dest(key) !in j.disk {
      ReadPlaces(parts, dest, needed, j, key, outcome, d);
      if d in j'.disk && d !in j.disk { assert key in j'.verified; }
    }
    if VerifiedAt(j, dest, d) { VerifiedStays(dest, j, j', d); }
  }

  /** The members go to the file one at most. */
  predicate AtMostOne(dest: Key -> Path, needed: map<Key, Sha>, keys: seq<Key>, d: Path)
  {
    forall a, b :: 0 <= a < b < |keys| && keys[a] in needed && keys[b] in needed ==> dest(keys[a]) != d || dest(keys[b]) != d
  }

  lemma NoneLeftOn(parts: Path -> bool, dest: Key -> Path, needed: map<Key, Sha>, j: JobState, keys: seq<Key>,
                   streams: seq<Sha>, d: Path)
    requires Apart(parts, dest, needed) && j.open == multiset{} && |streams| <= |keys|
    requires forall n :: |streams| <= n < |keys| && keys[n] in needed ==> dest(keys[n]) != d || d in j.disk
    ensures forall key :: key in FinishAll(StartAll(j, needed, dest, keys), needed, dest, keys, streams).open ==> dest(key) != d
  {
    StartAllGrows(j, parts, dest, needed, keys);
    StartAllOpensExactly(j, parts, dest, needed, keys);
    OpenIsLater(StartAll(j, needed, dest, keys), dest, needed, keys, streams);
    forall key | key in FinishAll(StartAll(j, needed, dest, keys), needed, dest, keys, streams).open ensures dest(key) != d {
      assert key in keys[|streams|..];
    }
  }

  /** The file is not there yet, and one member of those taken together goes to it. */
  lemma TogetherReaches(parts: Path -> bool, dest: Key -> Path, needed: map<Key, Sha>, j: JobState, keys: seq<Key>,
                        streams: seq<Sha>, at: nat, d: Path)
    requires Apart(parts, dest, needed) && j.open == multiset{} && !parts(d) && d !in j.disk && |streams| <= |keys|
    requires at < |keys| && keys[at] in needed && dest(keys[at]) == d
    requires streams != [] ==> forall n :: 0 <= n < |keys| && n != at && keys[n] in needed ==> dest(keys[n]) != d
    ensures var j' := FinishAll(StartAll(j, needed, dest, keys), needed, dest, keys, streams);
            (d in j'.disk <==> at < |streams| && streams[at] == needed[keys[at]]) &&
            (d in j'.disk ==> VerifiedAt(j', dest, d)) && (at >= |streams| ==> keys[at] in j'.open)
  {
    StartAllOpens(j, parts, dest, needed, keys, at);
    if at < |streams| {
      FinishAllAt(StartAll(j, needed, dest, keys), parts, dest, needed, keys, streams, at, d);
    } else {
      EarlierKeepWriting(StartAll(j, needed, dest, keys), parts, dest, needed, keys, streams, keys[at], d);
    }
  }

  /** No member of those finished goes to the file, or it is there already. */
  lemma TogetherMisses(parts: Path -> bool, dest: Key -> Path, needed: map<Key, Sha>, j: JobState, keys: seq<Key>,
                       streams: seq<Sha>, d: Path)
    requires Apart(parts, dest, needed) && j.open == multiset{} && !parts(d) && |streams| <= |keys|
    requires d in j.disk || forall n :: 0 <= n < |streams| && keys[n] in needed ==> dest(keys[n]) != d
    ensures d in FinishAll(StartAll(j, needed, dest, keys), needed, dest, keys, streams).disk <==> d in j.disk
  {
    var started := StartAll(j, needed, dest, keys);
    StartAllAddsParts(j, parts, dest, needed, keys);
    if d in j.disk {
      FinishAllGrows(started, parts, dest, needed, keys, streams);
    } else {
      FinishAllSkips(started, parts, dest, needed, keys, streams, d);
    }
  }

  lemma TogetherKeeps(parts: Path -> bool, dest: Key -> Path, needed: map<Key, Sha>, j: JobState, keys: seq<Key>,
                      streams: seq<Sha>, d: Path)
    requires Apart(parts, dest, needed) && |streams| <= |keys|
    ensures var j' := FinishAll(StartAll(j, needed, dest, keys), needed, dest, keys, streams);
            j'.stale == j.stale && (VerifiedAt(j, dest, d) ==> VerifiedAt(j', dest, d))
  {
    var started := StartAll(j, needed, dest, keys);
    StartAllGrows(j, parts, dest, needed, keys);
    FinishAllGrows(started, parts, dest, needed, keys, streams);
    if VerifiedAt(j, dest, d) { VerifiedStays(dest, j, FinishAll(started, needed, dest, keys, streams), d); }
  }

  lemma GivesUp(j: JobState, dest: Key -> Path, d: Path)
    ensures d in GiveUp(j, dest).stale <==> d in j.stale || exists key :: key in j.open && dest(key) == d
  {}

  lemma TogetherHasEffect(parts: Path -> bool, dest: Key -> Path, needed: map<Key, Sha>, j: JobState, keys: seq<Key>,
                          streams: seq<Sha>, d: Path)
    requires Apart(parts, dest, needed) && j.open == multiset{} && !parts(d) && |streams| <= |keys|
    requires streams == [] || AtMostOne(dest, needed, keys, d) || d in j.disk
    ensures Effect(needed, dest, j, GiveUp(FinishAll(StartAll(j, needed, dest, keys), needed, dest, keys, streams), dest),
                   Together(keys, streams), d)
  {
    TogetherKeeps(parts, dest, needed, j, keys, streams, d);
    GivesUp(FinishAll(StartAll(j, needed, dest, keys), needed, dest, keys, streams), dest, d);
    if d !in j.disk {
      if at :| 0 <= at < |keys| && keys[at] in needed && dest(keys[at]) == d {
        TogetherReaches(parts, dest, needed, j, keys, streams, at, d);
        if at < |streams| { NoneLeftOn(parts, dest, needed, j, keys, streams, d); }
      } else {
        TogetherMisses(parts, dest, needed, j, keys, streams, d);
        NoneLeftOn(parts, dest, needed, j, keys, streams, d);
      }
    } else {
      TogetherMisses(parts, dest, needed, j, keys, streams, d);
      NoneLeftOn(parts, dest, needed, j, keys, streams, d);
    }
  }

  lemma StepHasEffect(parts: Path -> bool, dest: Key -> Path, needed: map<Key, Sha>, j: JobState, step: Step, d: Path)
    requires Apart(parts, dest, needed) && j.open == multiset{} && !parts(d)
    requires step.Together? && step.streams != [] ==> !Clash(j.disk, dest, needed, step.keys)
    ensures Effect(needed, dest, j, Handle(j, needed, dest, step), step, d)
  {
    match step
    case One(key, outcome) => OneHasEffect(parts, dest, needed, j, key, outcome, d);
    case Together(keys, streams) =>
      var finished := streams[..Least(|streams|, |keys|)];
      if streams != [] && d !in j.disk {
        forall a, b | 0 <= a < b < |keys| && keys[a] in needed && keys[b] in needed
          ensures dest(keys[a]) != d || dest(keys[b]) != d
        {
          assert !Clashing(j.disk, dest, needed, keys[a], keys[b]);
        }
      }
      TogetherHasEffect(parts, dest, needed, j, keys, finished, d);
      assert Places(needed, dest, Together(keys, finished), d) <==> Places(needed, dest, step, d);
      assert LeavesOpen(needed, dest, Together(keys, finished), d) <==> LeavesOpen(needed, dest, step, d);
    case Failed =>
    case Late(file, changes) =>
  }

  /** Which files are there, which have writers left on them and which are noted as verified, told from the
      steps alone. */
  ghost predicate Traced(parts: Path -> bool, dest: Key -> Path, needed: map<Key, Sha>, disk: Disk, j: JobState,
                         steps: seq<Step>)
  {
    forall d :: !parts(d) ==> TracedAt(dest, needed, disk, j, steps, d)
  }

  predicate TracedAt(dest: Key -> Path, needed: map<Key, Sha>, disk: Disk, j: JobState, steps: seq<Step>, d: Path)
  {
    (d in j.disk <==> d in disk || PlacedBy(needed, dest, steps, d)) &&
    (d in j.stale <==> d !in disk && LeftBy(needed, dest, steps, d)) &&
    (d in j.disk && d !in disk ==> VerifiedAt(j, dest, d))
  }

  lemma OneMoreStep(needed: map<Key, Sha>, dest: Key -> Path, steps: seq<Step>, d: Path)
    requires steps != []
    ensures var n := |steps| - 1;
            (PlacedBy(needed, dest, steps, d) <==>
               PlacedBy(needed, dest, steps[..n], d) || Places(needed, dest, steps[n], d)) &&
            (LeftBy(needed, dest, steps, d) <==>
               LeftBy(needed, dest, steps[..n], d) || (LeavesOpen(needed, dest, steps[n], d) && !PlacedBy(needed, dest, steps[..n], d)))
  {
    var n := |steps| - 1;
    forall l | 0 <= l < n ensures LeftAt(needed, dest, steps, d, l) <==> LeftAt(needed, dest, steps[..n], d, l) {
      assert steps[..n][..l] == steps[..l];
    }
    if m :| 0 <= m < n && Places(needed, dest, steps[m], d) { assert Places(needed, dest, steps[..n][m], d); }
    if LeftBy(needed, dest, steps, d) {
      var l :| 0 <= l < |steps| && LeftAt(needed, dest, steps, d, l);
      assert l < n ==> LeftAt(needed, dest, steps[..n], d, l);
    }
    if LeftBy(needed, dest, steps[..n], d) {
      var l :| 0 <= l < n && LeftAt(needed, dest, steps[..n], d, l);
      assert LeftAt(needed, dest, steps, d, l);
    }
    assert LeftAt(needed, dest, steps, d, n) <==> LeavesOpen(needed, dest, steps[n], d) && !PlacedBy(needed, dest, steps[..n], d);
  }

  lemma StepKeepsTrace(parts: Path -> bool, dest: Key -> Path, needed: map<Key, Sha>, disk: Disk, j: JobState, steps: seq<Step>)
    requires Apart(parts, dest, needed) && j.open == multiset{} && steps != []
    requires Traced(parts, dest, needed, disk, j, steps[..|steps| - 1])
    requires var step := steps[|steps| - 1]; step.Together? && step.streams != [] ==> !Clash(j.disk, dest, needed, step.keys)
    ensures Traced(parts, dest, needed, disk, Handle(j, needed, dest, steps[|steps| - 1]), steps)
  {
    var n := |steps| - 1;
    forall d | !parts(d) ensures TracedAt(dest, needed, disk, Handle(j, needed, dest, steps[n]), steps, d) {
      assert TracedAt(dest, needed, disk, j, steps[..n], d);
      StepHasEffect(parts, dest, needed, j, steps[n], d);
      OneMoreStep(needed, dest, steps, d);
    }
  }

  /** As there are more files, fewer members clash. */
  lemma ClashesFade(parts: Path -> bool, dest: Key -> Path, needed: map<Key, Sha>, disk: Disk, disk': Disk, keys: seq<Key>)
    requires Apart(parts, dest, needed) && !Clash(disk, dest, needed, keys)
    requires forall d :: !parts(d) && d in disk ==> d in disk'
    ensures !Clash(disk', dest, needed, keys)
  {
    forall a, b | 0 <= a < b < |keys| ensures !Clashing(disk', dest, needed, keys[a], keys[b]) {
      assert !Clashing(disk, dest, needed, keys[a], keys[b]);
    }
  }

  lemma LateKeepsJob(disk: Disk, parts: Path -> bool, dest: Key -> Path, needed: map<Key, Sha>, j: JobState, file: Path)
    requires Between(disk, parts, dest, needed, j) && (file !in j.stale || file !in j.disk)
    ensures Between(disk, parts, dest, needed, WriteLate(j, file))
  {}

  lemma StepKeepsJob(disk: Disk, parts: Path -> bool, dest: Key -> Path, needed: map<Key, Sha>, j: JobState, step: Step)
    requires Apart(parts, dest, needed) && Between(disk, parts, dest, needed, j)
    requires step.Together? && step.streams != [] ==> !Clash(j.disk, dest, needed, step.keys)
    requires step.Late? && step.changes ==> step.file !in j.stale || step.file !in j.disk
    ensures Between(disk, parts, dest, needed, Handle(j, needed, dest, step))
  {
    match step
    case One(key, outcome) =>
      ReadKeepsJob(disk, parts, dest, needed, j, key, outcome);
      ReadingOpensNothing(needed, dest, j, key, outcome);
    case Together(keys, streams) =>
      var finished := streams[..Least(|streams|, |keys|)];
      if streams == [] { assert finished == []; }
      TogetherKeepsJob(disk, parts, dest, needed, j, keys, finished);
    case Failed =>
    case Late(file, changes) => if changes { LateKeepsJob(disk, parts, dest, needed, j, file); }
  }

  /** Writers are only ever left on files that are no partial ones. */
  lemma {:induction false} StaleIsApart(parts: Path -> bool, dest: Key -> Path, needed: map<Key, Sha>, j: JobState,
                                        steps: seq<Step>)
    requires Apart(parts, dest, needed) && j.open == multiset{} && j.stale == {}
    ensures var j' := HandleAll(j, needed, dest, steps); j'.open == multiset{} && forall d :: d in j'.stale ==> !parts(d)
    decreases |steps|
  {
    if steps != [] {
      var n := |steps| - 1;
      var before := HandleAll(j, needed, dest, steps[..n]);
      StaleIsApart(parts, dest, needed, j, steps[..n]);
      match steps[n] {
        case One(key, outcome) => ReadingOpensNothing(needed, dest, before, key, outcome);
        case Together(keys, streams) =>
          var finished := streams[..Least(|streams|, |keys|)];
          StartAllGrows(before, parts, dest, needed, keys);
          StartAllOpensExactly(before, parts, dest, needed, keys);
          FinishAllGrows(StartAll(before, needed, dest, keys), parts, dest, needed, keys, finished);
          OpenIsLater(StartAll(before, needed, dest, keys), dest, needed, keys, finished);
        case Failed =>
        case Late(_, _) =>
      }
    }
  }

  /** A late write that changes bytes meets a file that is there exactly if it is spoilable. */
  lemma StaleAndThere(parts: Path -> bool, dest: Key -> Path, needed: map<Key, Sha>, disk: Disk, j: JobState,
                      steps: seq<Step>, file: Path)
    requires Traced(parts, dest, needed, disk, j, steps) && Apart(parts, dest, needed)
    requires forall d :: d in j.stale ==> !parts(d)
    ensures file in j.stale && file in j.disk <==> Spoilable(disk, needed, dest, steps, file)
  {
    if parts(file) {
      forall l | 0 <= l < |steps| ensures !LeavesOpen(needed, dest, steps[l], file) {}
    } else {
      assert TracedAt(dest, needed, disk, j, steps, file);
    }
  }

  /** As long as no two needed members that are finished together go to one new file, and no late write
      changes a file that was put in place over a writer left open on it, everything recorded as verified
      really holds its recorded content, and no file of the disk but partial ones is changed or lost. So it
      is through readers that break off, give up with members open, and fall back to another reader that
      opens the same members again. */
  lemma {:induction false} ExtractionIsFaithful(disk: Disk, parts: Path -> bool, dest: Key -> Path,
                                                needed: map<Key, Sha>, j: JobState, steps: seq<Step>)
    requires Apart(parts, dest, needed) && Between(disk, parts, dest, needed, j) && j.stale == {}
    requires SafeSteps(j.disk, dest, needed, steps)
    ensures Between(disk, parts, dest, needed, HandleAll(j, needed, dest, steps))
    ensures Traced(parts, dest, needed, j.disk, HandleAll(j, needed, dest, steps), steps)
    decreases |steps|
  {
    if steps != [] {
      var n := |steps| - 1;
      var before := HandleAll(j, needed, dest, steps[..n]);
      assert forall k :: 0 <= k < n ==> steps[..n][..k] == steps[..k];
      ExtractionIsFaithful(disk, parts, dest, needed, j, steps[..n]);
      StaleIsApart(parts, dest, needed, j, steps[..n]);
      assert SafeStep(j.disk, dest, needed, steps[..n], steps[n]);
      if steps[n].Together? && steps[n].streams != [] {
        forall d | !parts(d) && d in j.disk ensures d in before.disk { assert TracedAt(dest, needed, j.disk, before, steps[..n], d); }
        ClashesFade(parts, dest, needed, j.disk, before.disk, steps[n].keys);
      }
      if steps[n].Late? { StaleAndThere(parts, dest, needed, j.disk, before, steps[..n], steps[n].file); }
      StepKeepsJob(disk, parts, dest, needed, before, steps[n]);
      StepKeepsTrace(parts, dest, needed, j.disk, before, steps);
    }
  }

  // ----- told before it is known which members are needed ---------------------------------------------------------------

  predicate OpenedBy(members: map<Key, Sha>, dest: Key -> Path, steps: seq<Step>, d: Path)
  {
    exists l :: 0 <= l < |steps| && LeavesOpen(members, dest, steps[l], d)
  }

  /** The same as a safe step, for whichever of the members turn out to be needed. */
  predicate CarefulStep(disk: Disk, dest: Key -> Path, members: map<Key, Sha>, before: seq<Step>, step: Step)
  {
    match step
    case Together(keys, streams) => streams == [] || !Clash(disk, dest, members, keys)
    case Late(file, changes) =>
      changes && file !in disk ==> !OpenedBy(members, dest, before, file) || !PlacedBy(members, dest, before, file)
    case _ => true
  }

  predicate CarefulSteps(disk: Disk, dest: Key -> Path, members: map<Key, Sha>, steps: seq<Step>)
  {
    forall n :: 0 <= n < |steps| ==> CarefulStep(disk, dest, members, steps[..n], steps[n])
  }

  /** `needed` are some of the members, and the files they go to that were there at the start still are. */
  predicate FewerNeeded(disk: Disk, disk': Disk, dest: Key -> Path, members: map<Key, Sha>, needed: map<Key, Sha>)
  {
    forall key :: key in needed ==> key in members && members[key] == needed[key] && (dest(key) in disk ==> dest(key) in disk')
  }

  lemma FewerPlaced(dest: Key -> Path, members: map<Key, Sha>, needed: map<Key, Sha>, step: Step, d: Path)
    requires forall key :: key in needed ==> key in members && members[key] == needed[key]
    ensures Places(needed, dest, step, d) ==> Places(members, dest, step, d)
    ensures LeavesOpen(needed, dest, step, d) ==> LeavesOpen(members, dest, step, d)
  {}

  lemma FewerSpoilable(disk: Disk, disk': Disk, dest: Key -> Path, members: map<Key, Sha>, needed: map<Key, Sha>,
                       steps: seq<Step>, d: Path)
    requires FewerNeeded(disk, disk', dest, members, needed) && Spoilable(disk', needed, dest, steps, d)
    ensures d !in disk && OpenedBy(members, dest, steps, d) && PlacedBy(members, dest, steps, d)
  {
    var m :| 0 <= m < |steps| && Places(needed, dest, steps[m], d);
    FewerPlaced(dest, members, needed, steps[m], d);
    var l :| 0 <= l < |steps| && LeftAt(needed, dest, steps, d, l);
    FewerPlaced(dest, members, needed, steps[l], d);
  }

  lemma CarefulIsSafe(disk: Disk, disk': Disk, dest: Key -> Path, members: map<Key, Sha>, needed: map<Key, Sha>, steps: seq<Step>)
    requires FewerNeeded(disk, disk', dest, members, needed) && CarefulSteps(disk, dest, members, steps)
    ensures SafeSteps(disk', dest, needed, steps)
  {
    forall n | 0 <= n < |steps| ensures SafeStep(disk', dest, needed, steps[..n], steps[n]) {
      assert CarefulStep(disk, dest, members, steps[..n], steps[n]);
      match steps[n]
      case Together(keys, streams) =>
        forall a, b | 0 <= a < b < |keys| && streams != [] ensures !Clashing(disk', dest, needed, keys[a], keys[b]) {
          assert !Clashing(disk, dest, members, keys[a], keys[b]);
        }
      case Late(file, changes) =>
        if changes && Spoilable(disk', needed, dest, steps[..n], file) {
          FewerSpoilable(disk, disk', dest, members, needed, steps[..n], file);
        }
      case _ =>
    }
  }

  // ----- exactly when: members finished together --------------------------------------------------------------------

  lemma {:induction false} StartAllOpens(j: JobState, parts: Path -> bool, dest: Key -> Path, needed: map<Key, Sha>,
                                         keys: seq<Key>, a: nat)
    requires Apart(parts, dest, needed) && a < |keys| && keys[a] in needed && dest(keys[a]) !in j.disk
    ensures Writing(StartAll(j, needed, dest, keys), dest, keys[a], dest(keys[a]))
    ensures dest(keys[a]) !in StartAll(j, needed, dest, keys).disk
    decreases |keys|
  {
    var n := |keys| - 1;
    StartAllAddsParts(j, parts, dest, needed, keys[..n]);
    StartAllAddsParts(j, parts, dest, needed, keys);
    if a < n { StartAllOpens(j, parts, dest, needed, keys[..n], a); }
  }

  /** Once both are opened their file is mixed, and stays so. */
  lemma {:induction false} StartAllMixes(j: JobState, parts: Path -> bool, dest: Key -> Path, needed: map<Key, Sha>,
                                         keys: seq<Key>, a: nat, b: nat)
    requires Apart(parts, dest, needed) && a < b < |keys| && Clashing(j.disk, dest, needed, keys[a], keys[b])
    ensures dest(keys[a]) in StartAll(j, needed, dest, keys).mixed
    decreases |keys|
  {
    var n := |keys| - 1;
    var before := StartAll(j, needed, dest, keys[..n]);
    StartAllOpens(j, parts, dest, needed, keys[..n], a);
    assert keys[..n][a] == keys[a] && keys[a] in before.open;
    if b < n { StartAllMixes(j, parts, dest, needed, keys[..n], a, b); }
    if keys[n] in needed && dest(keys[n]) == dest(keys[a]) { assert Shared(before.open, dest, keys[n]); }
  }

  lemma MixedVerifiesGarbage(j: JobState, dest: Key -> Path, needed: map<Key, Sha>, key: Key, d: Path)
    requires Writing(j, dest, key, d) && d in j.mixed && key in needed
    ensures !VerifiedOk(dest, needed, GiveUp(FinishMember(j, needed, dest, key, needed[key]), dest))
  {
    var j' := GiveUp(FinishMember(j, needed, dest, key, needed[key]), dest);
    assert key in j'.verified && !Holds(j'.disk, dest(key), needed[key]);
  }

  /** The first of the members that go to a file. */
  lemma {:induction false} FirstTo(dest: Key -> Path, needed: map<Key, Sha>, keys: seq<Key>, a: nat) returns (first: nat)
    requires a < |keys| && keys[a] in needed
    ensures first <= a && keys[first] in needed && dest(keys[first]) == dest(keys[a])
    ensures forall n :: 0 <= n < first && keys[n] in needed ==> dest(keys[n]) != dest(keys[a])
    decreases a
  {
    first := a;
    if n :| 0 <= n < a && keys[n] in needed && dest(keys[n]) == dest(keys[a]) {
      first := FirstTo(dest, needed, keys, n);
    }
  }

  lemma ClashVerifiesGarbage(disk: Disk, parts: Path -> bool, dest: Key -> Path, needed: map<Key, Sha>, j: JobState,
                             keys: seq<Key>)
    returns (streams: seq<Sha>)
    requires Apart(parts, dest, needed) && Between(disk, parts, dest, needed, j) && Clash(j.disk, dest, needed, keys)
    ensures |streams| <= |keys|
    ensures !VerifiedOk(dest, needed, GiveUp(FinishAll(StartAll(j, needed, dest, keys), needed, dest, keys, streams), dest))
  {
    var c, b :| 0 <= c < b < |keys| && Clashing(j.disk, dest, needed, keys[c], keys[b]);
    var a := FirstTo(dest, needed, keys, c);
    var d, started := dest(keys[a]), StartAll(j, needed, dest, keys);
    StartAllMixes(j, parts, dest, needed, keys, a, b);
    StartAllOpens(j, parts, dest, needed, keys, a);
    var earlier: seq<Sha> := seq(a, _ => 0);
    streams := earlier + [needed[keys[a]]];
    EarlierKeepWriting(started, parts, dest, needed, keys, earlier, keys[a], d);
    MixedVerifiesGarbage(FinishAll(started, needed, dest, keys, earlier), dest, needed, keys[a], d);
    FinishOneMore(started, needed, dest, keys, earlier, needed[keys[a]]);
  }

  lemma FinishOneMore(j: JobState, needed: map<Key, Sha>, dest: Key -> Path, keys: seq<Key>, streams: seq<Sha>, streamed: Sha)
    requires |streams| < |keys|
    ensures FinishAll(j, needed, dest, keys, streams + [streamed]) ==
            FinishMember(FinishAll(j, needed, dest, keys, streams), needed, dest, keys[|streams|], streamed)
  {
    assert (streams + [streamed])[..|streams|] == streams;
  }

  /** Whatever hashes the members finished together come out with, everything recorded as verified holds its
      content: exactly if no two of them that are needed go to one file that is not there yet. */
  lemma TogetherIsSafeExactly(disk: Disk, parts: Path -> bool, dest: Key -> Path, needed: map<Key, Sha>, j: JobState,
                              keys: seq<Key>)
    requires Apart(parts, dest, needed) && Between(disk, parts, dest, needed, j)
    ensures (forall streams: seq<Sha> :: VerifiedOk(dest, needed, Handle(j, needed, dest, Together(keys, streams)))) <==>
            !Clash(j.disk, dest, needed, keys)
  {
    if Clash(j.disk, dest, needed, keys) {
      var streams := ClashVerifiesGarbage(disk, parts, dest, needed, j, keys);
      assert streams[..Least(|streams|, |keys|)] == streams;
      assert !VerifiedOk(dest, needed, Handle(j, needed, dest, Together(keys, streams)));
    } else {
      forall streams: seq<Sha> ensures VerifiedOk(dest, needed, Handle(j, needed, dest, Together(keys, streams))) {
        TogetherKeepsJob(disk, parts, dest, needed, j, keys, streams[..Least(|streams|, |keys|)]);
      }
    }
  }

  // ----- exactly when: what is written late ----------------------------------------------------------------------------

  /** A late write that changes bytes leaves everything recorded as verified intact exactly if its file was
      not put in place over a writer left open on it. */
  lemma LateWriteIsSafeExactly(disk: Disk, parts: Path -> bool, dest: Key -> Path, needed: map<Key, Sha>, j: JobState,
                               steps: seq<Step>, file: Path)
    requires Apart(parts, dest, needed) && Between(disk, parts, dest, needed, j) && j.stale == {}
    requires SafeSteps(j.disk, dest, needed, steps)
    ensures VerifiedOk(dest, needed, HandleAll(j, needed, dest, steps + [Late(file, true)])) <==>
            !Spoilable(j.disk, needed, dest, steps, file)
  {
    var j' := HandleAll(j, needed, dest, steps);
    assert (steps + [Late(file, true)])[..|steps|] == steps;
    ExtractionIsFaithful(disk, parts, dest, needed, j, steps);
    StaleIsApart(parts, dest, needed, j, steps);
    StaleAndThere(parts, dest, needed, j.disk, j', steps, file);
    if Spoilable(j.disk, needed, dest, steps, file) {
      assert TracedAt(dest, needed, j.disk, j', steps, file);
      var key :| key in j'.verified && dest(key) == file;
      assert !Holds(WriteLate(j', file).disk, dest(key), needed[key]);
    } else {
      LateKeepsJob(disk, parts, dest, needed, j', file);
    }
  }

  /** The files a reader that gives up with these members opened leaves writers on. */
  function LeftOpen(disk: Disk, dest: Key -> Path, needed: map<Key, Sha>, keys: seq<Key>): set<Path>
  {
    set key | key in keys && key in needed && dest(key) !in disk :: dest(key)
  }

  /** One reader opens these members and gives up, and another one then takes the archive member by member. */
  function Fallback(keys: seq<Key>, read: seq<Key>, outcomes: seq<Option<Sha>>): seq<Step>
    requires |read| == |outcomes|
  {
    [Together(keys, [])] + seq(|read|, n requires 0 <= n < |read| => One(read[n], outcomes[n]))
  }

  /** A member that the first reader had opened the file of comes out of the second one as recorded. */
  predicate Reread(disk: Disk, dest: Key -> Path, needed: map<Key, Sha>, keys: seq<Key>, key: Key, outcome: Option<Sha>)
  {
    key in needed && dest(key) in LeftOpen(disk, dest, needed, keys) && outcome == Some(needed[key])
  }

  lemma FallbackIsSafe(disk: Disk, dest: Key -> Path, needed: map<Key, Sha>, keys: seq<Key>, read: seq<Key>,
                       outcomes: seq<Option<Sha>>)
    requires |read| == |outcomes|
    ensures SafeSteps(disk, dest, needed, Fallback(keys, read, outcomes))
  {
    var steps := Fallback(keys, read, outcomes);
    forall n | 0 <= n < |steps| ensures SafeStep(disk, dest, needed, steps[..n], steps[n]) {}
  }

  lemma FallbackSpoils(disk: Disk, dest: Key -> Path, needed: map<Key, Sha>, keys: seq<Key>, read: seq<Key>,
                       outcomes: seq<Option<Sha>>, file: Path)
    requires |read| == |outcomes|
    ensures Spoilable(disk, needed, dest, Fallback(keys, read, outcomes), file) <==>
            exists n :: 0 <= n < |read| && dest(read[n]) == file && Reread(disk, dest, needed, keys, read[n], outcomes[n])
  {
    var steps := Fallback(keys, read, outcomes);
    assert LeavesOpen(needed, dest, steps[0], file) <==> exists n :: 0 <= n < |keys| && keys[n] in needed && dest(keys[n]) == file;
    assert LeftBy(needed, dest, steps, file) <==> LeftAt(needed, dest, steps, file, 0);
    if n :| 0 <= n < |read| && dest(read[n]) == file && Reread(disk, dest, needed, keys, read[n], outcomes[n]) {
      assert Places(needed, dest, steps[n + 1], file);
    }
    if Spoilable(disk, needed, dest, steps, file) {
      var m :| 0 <= m < |steps| && Places(needed, dest, steps[m], file);
      assert steps[m] == One(read[m - 1], outcomes[m - 1]);
    }
  }

  /** After a fallback, whatever the abandoned writers still write, everything recorded as verified holds its
      content: exactly if no member comes out of the second reader as recorded that goes to a file the first
      one was left with. */
  lemma FallbackIsSafeExactly(disk: Disk, parts: Path -> bool, dest: Key -> Path, needed: map<Key, Sha>, j: JobState,
                              keys: seq<Key>, read: seq<Key>, outcomes: seq<Option<Sha>>)
    requires Apart(parts, dest, needed) && Between(disk, parts, dest, needed, j) && j.stale == {} && |read| == |outcomes|
    ensures (forall file :: VerifiedOk(dest, needed, HandleAll(j, needed, dest, Fallback(keys, read, outcomes) + [Late(file, true)]))) <==>
            !exists n :: 0 <= n < |read| && Reread(j.disk, dest, needed, keys, read[n], outcomes[n])
  {
    var steps := Fallback(keys, read, outcomes);
    FallbackIsSafe(j.disk, dest, needed, keys, read, outcomes);
    forall file
      ensures VerifiedOk(dest, needed, HandleAll(j, needed, dest, steps + [Late(file, true)])) <==>
              !exists n :: 0 <= n < |read| && dest(read[n]) == file && Reread(j.disk, dest, needed, keys, read[n], outcomes[n])
    {
      LateWriteIsSafeExactly(disk, parts, dest, needed, j, steps, file);
      FallbackSpoils(j.disk, dest, needed, keys, read, outcomes, file);
    }
    if n :| 0 <= n < |read| && Reread(j.disk, dest, needed, keys, read[n], outcomes[n]) {
      assert !VerifiedOk(dest, needed, HandleAll(j, needed, dest, steps + [Late(dest(read[n]), true)]));
    }
  }

  ghost predicate FallbackSafe(dest: Key -> Path, needed: map<Key, Sha>, j: JobState, keys: seq<Key>, read: seq<Key>,
                               outcomes: seq<Option<Sha>>)
    requires |read| == |outcomes|
  {
    forall file :: VerifiedOk(dest, needed, HandleAll(j, needed, dest, Fallback(keys, read, outcomes) + [Late(file, true)]))
  }

  /** And so it is whatever comes out of the second reader, exactly if no needed member it reads goes to a
      file the first one was left with. */
  lemma FallbackAlwaysSafeExactly(disk: Disk, parts: Path -> bool, dest: Key -> Path, needed: map<Key, Sha>, j: JobState,
                                  keys: seq<Key>, read: seq<Key>)
    requires Apart(parts, dest, needed) && Between(disk, parts, dest, needed, j) && j.stale == {}
    ensures (forall outcomes: seq<Option<Sha>> :: |outcomes| == |read| ==> FallbackSafe(dest, needed, j, keys, read, outcomes)) <==>
            forall key :: key in read && key in needed ==> dest(key) !in LeftOpen(j.disk, dest, needed, keys)
  {
    forall outcomes: seq<Option<Sha>> | |outcomes| == |read|
      ensures FallbackSafe(dest, needed, j, keys, read, outcomes) <==>
              !exists n :: 0 <= n < |read| && Reread(j.disk, dest, needed, keys, read[n], outcomes[n])
    {
      FallbackIsSafeExactly(disk, parts, dest, needed, j, keys, read, outcomes);
    }
    if key :| key in read && key in needed && dest(key) in LeftOpen(j.disk, dest, needed, keys) {
      var right := seq(|read|, n requires 0 <= n < |read| => if read[n] in needed then Some(needed[read[n]]) else None);
      var n :| 0 <= n < |read| && read[n] == key;
      assert Reread(j.disk, dest, needed, keys, read[n], right[n]);
      assert !FallbackSafe(dest, needed, j, keys, read, right);
    }
  }

  // ----- one archive, as the script handles it ---------------------------------------------------------

  predicate SameFile(before: Disk, after: Disk, p: Path)
  {
    (p in after <==> p in before) && (p in before ==> after[p] == before[p])
  }

  class FileSystem {
    var disk: Disk

    constructor (disk: Disk)
      ensures this.disk == disk
    {
      this.disk := disk;
    }
  }

  class Job {
    const fs: FileSystem
    const needed: map<Key, Sha>
    const dest: Key -> Path
    var verified: map<Key, Path>
    var errors: nat
    var open: multiset<Key>
    var mixed: set<Path>
    var stale: set<Path>

    function State(): JobState
      reads this, fs
    {
      JobState(fs.disk, verified, errors, open, mixed, stale)
    }

    constructor (fs: FileSystem, needed: map<Key, Sha>, dest: Key -> Path)
      ensures this.fs == fs && this.needed == needed && this.dest == dest
      ensures State() == JobState(fs.disk, map[], 0, multiset{}, {}, {})
    {
      this.fs, this.needed, this.dest := fs, needed, dest;
      verified, errors, open, mixed, stale := map[], 0, multiset{}, {}, {};
    }

    /** An existing file is left alone: it counts as verified if it has the recorded content, and is an error
        otherwise. Only the member's own partial file is written. */
    method Start(key: Key)
      modifies this, fs
      ensures State() == StartMember(old(State()), needed, dest, key)
      ensures forall p: Path :: p != Part(dest(key)) ==> SameFile(old(fs.disk), fs.disk, p)
      ensures verified != old(verified) ==> key in needed && Holds(old(fs.disk), dest(key), needed[key]) && verified == old(verified)[key := dest(key)]
      ensures errors > old(errors) <==> key in needed && dest(key) in old(fs.disk) && !Holds(old(fs.disk), dest(key), needed[key])
    {
      if key !in needed { return; }
      var expected, final := needed[key], dest(key);
      if final in fs.disk {
        if fs.disk[final].content == Some(expected) {
          verified := verified[key := final];
        } else {
          errors := errors + 1;
        }
        return;
      }
      fs.disk := fs.disk[Part(final) := File(None, true)];
      mixed := if Shared(open, dest, key) then mixed + {final} else mixed - {final};
      open := open + multiset{key};
    }

    /** Only a stream with the recorded hash is put in place and noted as verified; no partial file is left. */
    method Finish(key: Key, streamed: Sha)
      modifies this, fs
      ensures State() == FinishMember(old(State()), needed, dest, key, streamed)
      ensures forall p: Path :: p != Part(dest(key)) && p != dest(key) ==> SameFile(old(fs.disk), fs.disk, p)
      ensures !SameFile(old(fs.disk), fs.disk, dest(key)) || verified != old(verified) ==> key in needed && streamed == needed[key]
      ensures key in needed && key in old(open) ==> Part(dest(key)) !in fs.disk
    {
      PartDiffers(dest(key));
      if key !in needed || key !in open { return; }
      var part, final := Part(dest(key)), dest(key);
      open := open - multiset{key};
      if part !in fs.disk { errors := errors + 1; return; }
      if streamed != needed[key] {
        fs.disk := fs.disk - {part};
        errors := errors + 1;
        return;
      }
      fs.disk := (fs.disk - {part})[final := File(if final in mixed then None else Some(streamed), true)];
      verified := verified[key := final];
    }

    /** Opening, reading and finishing one member, as the zip and command-line readers do. A read that
        breaks off puts nothing in place and is one error; either way no partial file of a member that was
        written is left. */
    method Read(key: Key, outcome: Option<Sha>)
      modifies this, fs
      ensures State() == ReadMember(old(State()), needed, dest, key, outcome)
      ensures forall p: Path :: p != Part(dest(key)) && p != dest(key) ==> SameFile(old(fs.disk), fs.disk, p)
      ensures dest(key) in old(fs.disk) || outcome.None? ==> SameFile(old(fs.disk), fs.disk, dest(key))
      ensures key in needed && dest(key) !in old(fs.disk) ==> Part(dest(key)) !in fs.disk
      ensures outcome.None? ==> errors == old(errors) + 1
    {
      PartDiffers(dest(key));
      var writing, errorsBefore, openBefore := key in needed && dest(key) !in fs.disk, errors, open;
      Start(key);
      match outcome {
        case Some(streamed) =>
          if writing { Finish(key, streamed); }
        case None =>
          errors := errorsBefore + 1;
          if writing {
            open := openBefore;
            fs.disk := fs.disk - {Part(dest(key))};
          }
      }
    }

    /** The sinks are created in order while the archive is read, and finished in the same order at the end;
        those that are not stay open. */
    method ReadTogether(keys: seq<Key>, streams: seq<Sha>)
      modifies this, fs
      ensures State() == Handle(old(State()), needed, dest, Together(keys, streams))
    {
      for n := 0 to |keys|
        invariant State() == StartAll(old(State()), needed, dest, keys[..n])
      {
        assert keys[..n + 1][..n] == keys[..n];
        Start(keys[n]);
      }
      assert keys[..|keys|] == keys;
      ghost var started := State();
      var finished := Least(|streams|, |keys|);
      for n := 0 to finished
        invariant State() == FinishAll(started, needed, dest, keys, streams[..n])
      {
        assert streams[..n + 1][..n] == streams[..n];
        Finish(keys[n], streams[n]);
      }
      stale := stale + set key | key in open :: dest(key);
      open := multiset{};
    }

    method WriteBuffered(file: Path)
      modifies this, fs
      ensures State() == WriteLate(old(State()), file)
    {
      if file in stale {
        if file in fs.disk {
          fs.disk := fs.disk[file := File(None, true)];
        } else {
          mixed := mixed + {file};
        }
      }
    }

    /** Everything that happens while the archive is read, nested archives included. */
    method RunLevel(steps: seq<Step>)
      modifies this, fs
      ensures State() == HandleAll(old(State()), needed, dest, steps)
    {
      for n := 0 to |steps|
        invariant State() == HandleAll(old(State()), needed, dest, steps[..n])
      {
        assert steps[..n + 1][..n] == steps[..n];
        match steps[n] {
          case One(key, outcome) => Read(key, outcome);
          case Together(keys, streams) => ReadTogether(keys, streams);
          case Failed => errors := errors + 1;
          case Late(file, changes) => if changes { WriteBuffered(file); }
        }
      }
      assert steps[..|steps|] == steps;
    }
  }
}
