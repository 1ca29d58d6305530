/** When extracting an archive counts as having gone well: which steps are errors, and that members that come out
    as recorded are all verified. */
module CleanReads {
  import opened Collections
  import opened Extraction

  /** Something goes wrong in the step: the reader raises, a needed member is found on disk with other content, or
      what was written to it is not what was recorded. */
  predicate Problem(disk: Disk, needed: map<Key, Sha>, dest: Key -> Path, step: Step)
  {
    match step
    case One(key, outcome) =>
      outcome.None? || (key in needed && if dest(key) in disk then WrongThere(disk, needed, dest, key) else outcome != Some(needed[key]))
    case Together(keys, streams) =>
      (exists n :: 0 <= n < |keys| && keys[n] in needed && WrongThere(disk, needed, dest, keys[n])) ||
      (exists n :: 0 <= n < Least(|streams|, |keys|) && WrongStream(disk, needed, dest, keys[n], streams[n]))
    case Failed => true
    case Late(file, changes) => false
  }

  predicate WrongThere(disk: Disk, needed: map<Key, Sha>, dest: Key -> Path, key: Key)
  {
    key in needed && dest(key) in disk && !Holds(disk, dest(key), needed[key])
  }

  predicate WrongStream(disk: Disk, needed: map<Key, Sha>, dest: Key -> Path, key: Key, streamed: Sha)
  {
    key in needed && dest(key) !in disk && streamed != needed[key]
  }

  lemma {:induction false} StartErrors(j: JobState, needed: map<Key, Sha>, dest: Key -> Path, keys: seq<Key>)
    ensures StartAll(j, needed, dest, keys).errors >= j.errors
    decreases |keys|
  {
    if keys != [] { StartErrors(j, needed, dest, keys[..|keys| - 1]); }
  }

  lemma {:induction false} StartingLeavesFiles(j: JobState, parts: Path -> bool, needed: map<Key, Sha>, dest: Key -> Path,
                                               keys: seq<Key>, p: Path)
    requires Apart(parts, dest, needed) && !parts(p)
    ensures SameFile(j.disk, StartAll(j, needed, dest, keys).disk, p)
    decreases |keys|
  {
    if keys != [] { StartingLeavesFiles(j, parts, needed, dest, keys[..|keys| - 1], p); }
  }

  lemma {:induction false} WrongThereIsError(j: JobState, parts: Path -> bool, needed: map<Key, Sha>, dest: Key -> Path,
                                             keys: seq<Key>, at: nat)
    requires Apart(parts, dest, needed) && at < |keys| && WrongThere(j.disk, needed, dest, keys[at])
    ensures StartAll(j, needed, dest, keys).errors > j.errors
    decreases |keys|
  {
    var n := |keys| - 1;
    StartErrors(j, needed, dest, keys[..n]);
    if at == n {
      StartingLeavesFiles(j, parts, needed, dest, keys[..n], dest(keys[n]));
    } else {
      WrongThereIsError(j, parts, needed, dest, keys[..n], at);
    }
  }

  lemma {:induction false} FinishErrors(j: JobState, needed: map<Key, Sha>, dest: Key -> Path, keys: seq<Key>, streams: seq<Sha>)
    requires |streams| <= |keys|
    ensures FinishAll(j, needed, dest, keys, streams).errors >= j.errors
    decreases |streams|
  {
    if streams != [] { FinishErrors(j, needed, dest, keys, streams[..|streams| - 1]); }
  }

  /** Every member that was opened is still open when its turn to be finished comes. */
  lemma {:induction false} StillOpen(j: JobState, needed: map<Key, Sha>, dest: Key -> Path, keys: seq<Key>, streams: seq<Sha>,
                                     key: Key)
    requires |streams| <= |keys|
    ensures FinishAll(j, needed, dest, keys, streams).open[key] + multiset(keys[..|streams|])[key] >= j.open[key]
    decreases |streams|
  {
    if streams != [] {
      var n := |streams| - 1;
      StillOpen(j, needed, dest, keys, streams[..n], key);
      assert keys[..n + 1] == keys[..n] + [keys[n]];
    }
  }

  lemma {:induction false} AllOpened(j: JobState, parts: Path -> bool, needed: map<Key, Sha>, dest: Key -> Path, keys: seq<Key>,
                                     key: Key)
    requires Apart(parts, dest, needed) && key in needed && dest(key) !in j.disk
    ensures StartAll(j, needed, dest, keys).open[key] >= multiset(keys)[key]
    decreases |keys|
  {
    if keys != [] {
      var n := |keys| - 1;
      AllOpened(j, parts, needed, dest, keys[..n], key);
      StartAllAddsParts(j, parts, dest, needed, keys[..n]);
      assert keys == keys[..n] + [keys[n]];
    }
  }

  lemma FinishingIsError(j: JobState, needed: map<Key, Sha>, dest: Key -> Path, key: Key, streamed: Sha)
    requires key in needed && key in j.open && streamed != needed[key]
    ensures FinishMember(j, needed, dest, key, streamed).errors == j.errors + 1
  {}

  lemma MoreThanBefore(keys: seq<Key>, n: nat)
    requires n < |keys|
    ensures multiset(keys)[keys[n]] > multiset(keys[..n])[keys[n]]
  {
    assert keys == keys[..n] + [keys[n]] + keys[n + 1..];
  }

  lemma TurnComes(j: JobState, parts: Path -> bool, needed: map<Key, Sha>, dest: Key -> Path, keys: seq<Key>,
                  streams: seq<Sha>)
    requires Apart(parts, dest, needed) && |streams| < |keys| && keys[|streams|] in needed && dest(keys[|streams|]) !in j.disk
    ensures keys[|streams|] in FinishAll(StartAll(j, needed, dest, keys), needed, dest, keys, streams).open
  {
    var n := |streams|;
    AllOpened(j, parts, needed, dest, keys, keys[n]);
    StillOpen(StartAll(j, needed, dest, keys), needed, dest, keys, streams, keys[n]);
    MoreThanBefore(keys, n);
  }

  lemma {:induction false} WrongStreamIsError(j: JobState, parts: Path -> bool, needed: map<Key, Sha>, dest: Key -> Path,
                                              keys: seq<Key>, streams: seq<Sha>, at: nat)
    requires Apart(parts, dest, needed) && at < |streams| <= |keys| && WrongStream(j.disk, needed, dest, keys[at], streams[at])
    ensures FinishAll(StartAll(j, needed, dest, keys), needed, dest, keys, streams).errors > j.errors
    decreases |streams|
  {
    var started, n := StartAll(j, needed, dest, keys), |streams| - 1;
    if at == n {
      StartErrors(j, needed, dest, keys);
      FinishErrors(started, needed, dest, keys, streams[..n]);
      TurnComes(j, parts, needed, dest, keys, streams[..n]);
      FinishingIsError(FinishAll(started, needed, dest, keys, streams[..n]), needed, dest, keys[n], streams[n]);
    } else {
      WrongStreamIsError(j, parts, needed, dest, keys, streams[..n], at);
    }
  }

  /** What goes wrong in a step is an error; and, members taken together aside, nothing else is. */
  lemma ProblemIsError(j: JobState, parts: Path -> bool, needed: map<Key, Sha>, dest: Key -> Path, step: Step)
    requires Apart(parts, dest, needed) && j.open == multiset{}
    ensures var errors := Handle(j, needed, dest, step).errors;
            errors >= j.errors && (Problem(j.disk, needed, dest, step) ==> errors > j.errors) &&
            (!step.Together? && errors > j.errors ==> Problem(j.disk, needed, dest, step))
  {
    match step
    case One(key, outcome) =>
      assert key in needed && dest(key) !in j.disk ==> key in StartMember(j, needed, dest, key).open;
    case Together(keys, streams) =>
      var finished := streams[..Least(|streams|, |keys|)];
      StartErrors(j, needed, dest, keys);
      FinishErrors(StartAll(j, needed, dest, keys), needed, dest, keys, finished);
      if n :| 0 <= n < |keys| && WrongThere(j.disk, needed, dest, keys[n]) { WrongThereIsError(j, parts, needed, dest, keys, n); }
      if n :| 0 <= n < |finished| && WrongStream(j.disk, needed, dest, keys[n], streams[n]) {
        WrongStreamIsError(j, parts, needed, dest, keys, finished, n);
      }
    case Failed =>
    case Late(file, changes) =>
  }

  lemma StepClosesAll(j: JobState, needed: map<Key, Sha>, dest: Key -> Path, step: Step)
    requires j.open == multiset{}
    ensures Handle(j, needed, dest, step).open == multiset{}
  {
    if step.One? { ReadingOpensNothing(needed, dest, j, step.key, step.outcome); }
  }

  /** Nothing went wrong in the `n`th step, as things were when its turn came. */
  predicate FineAt(j: JobState, needed: map<Key, Sha>, dest: Key -> Path, steps: seq<Step>, n: nat)
    requires n < |steps|
  {
    !Problem(HandleAll(j, needed, dest, steps[..n]).disk, needed, dest, steps[n])
  }

  predicate OneAtATime(steps: seq<Step>)
  {
    forall n :: 0 <= n < |steps| ==> !steps[n].Together?
  }

  lemma FineBefore(j: JobState, needed: map<Key, Sha>, dest: Key -> Path, steps: seq<Step>, n: nat, m: nat)
    requires n < m <= |steps|
    ensures FineAt(j, needed, dest, steps[..m], n) <==> FineAt(j, needed, dest, steps, n)
  {
    assert steps[..m][..n] == steps[..n];
  }

  /** A whole extraction counts no error only if nothing went wrong in any of its steps, as things were when its
      turn came; and if members are taken one at a time it counts none exactly then. */
  lemma {:induction false} CleanExactly(j: JobState, parts: Path -> bool, needed: map<Key, Sha>, dest: Key -> Path, steps: seq<Step>)
    requires Apart(parts, dest, needed) && j.open == multiset{}
    ensures HandleAll(j, needed, dest, steps).open == multiset{} && HandleAll(j, needed, dest, steps).errors >= j.errors
    ensures HandleAll(j, needed, dest, steps).errors == j.errors ==> forall n :: 0 <= n < |steps| ==> FineAt(j, needed, dest, steps, n)
    ensures OneAtATime(steps) && (forall n :: 0 <= n < |steps| ==> FineAt(j, needed, dest, steps, n)) ==>
              HandleAll(j, needed, dest, steps).errors == j.errors
    decreases |steps|
  {
    if steps != [] {
      var n := |steps| - 1;
      var before := HandleAll(j, needed, dest, steps[..n]);
      CleanExactly(j, parts, needed, dest, steps[..n]);
      ProblemIsError(before, parts, needed, dest, steps[n]);
      StepClosesAll(before, needed, dest, steps[n]);
      forall m | 0 <= m < n ensures FineAt(j, needed, dest, steps[..n], m) <==> FineAt(j, needed, dest, steps, m) {
        FineBefore(j, needed, dest, steps, m, n);
      }
      assert OneAtATime(steps) ==> OneAtATime(steps[..n]);
      assert FineAt(j, needed, dest, steps, n) <==> !Problem(before.disk, needed, dest, steps[n]);
    }
  }

  // ----- reads that go well --------------------------------------------------------------------------------------

  /** One member is read to its end, and if it is needed comes out as recorded. */
  predicate GoodRead(needed: map<Key, Sha>, step: Step)
  {
    step.One? && step.outcome.Some? && (step.key in needed ==> step.outcome.value == needed[step.key])
  }

  /** What is where a needed member goes has its content. */
  predicate GoodFiles(disk: Disk, needed: map<Key, Sha>, dest: Key -> Path)
  {
    forall key :: key in needed && dest(key) in disk ==> Holds(disk, dest(key), needed[key])
  }

  lemma GoodReadVerifies(j: JobState, parts: Path -> bool, needed: map<Key, Sha>, dest: Key -> Path, step: Step)
    requires Apart(parts, dest, needed) && j.open == multiset{} && GoodFiles(j.disk, needed, dest) && GoodRead(needed, step)
    requires forall a, b :: a in needed && b in needed && dest(a) == dest(b) ==> needed[a] == needed[b]
    ensures var j' := Handle(j, needed, dest, step);
            j'.errors == j.errors && GoodFiles(j'.disk, needed, dest) && j.verified.Keys <= j'.verified.Keys &&
            (step.key in needed ==> step.key in j'.verified)
  {
    var key := step.key;
    if key in needed && dest(key) !in j.disk {
      assert key in StartMember(j, needed, dest, key).open;
      assert parts(Part(dest(key)));
      forall other | other in needed && dest(other) in Handle(j, needed, dest, step).disk
        ensures Holds(Handle(j, needed, dest, step).disk, dest(other), needed[other])
      {
        assert dest(other) != Part(dest(key));
      }
    }
  }

  /** An archive whose members are read one at a time and come out as recorded is extracted without any error, and
      every needed member that was read is verified. */
  lemma {:induction false} GoodReadsVerify(j: JobState, parts: Path -> bool, needed: map<Key, Sha>, dest: Key -> Path, steps: seq<Step>)
    requires Apart(parts, dest, needed) && j.open == multiset{} && GoodFiles(j.disk, needed, dest)
    requires forall a, b :: a in needed && b in needed && dest(a) == dest(b) ==> needed[a] == needed[b]
    requires forall n :: 0 <= n < |steps| ==> steps[n].One? && GoodRead(needed, steps[n])
    ensures var j' := HandleAll(j, needed, dest, steps);
            j'.open == multiset{} && j'.errors == j.errors && GoodFiles(j'.disk, needed, dest) &&
            forall n :: 0 <= n < |steps| && steps[n].key in needed ==> steps[n].key in j'.verified
    decreases |steps|
  {
    if steps != [] {
      var n := |steps| - 1;
      GoodReadsVerify(j, parts, needed, dest, steps[..n]);
      GoodReadVerifies(HandleAll(j, needed, dest, steps[..n]), parts, needed, dest, steps[n]);
      StepClosesAll(HandleAll(j, needed, dest, steps[..n]), needed, dest, steps[n]);
      assert forall m :: 0 <= m < n ==> steps[..n][m] == steps[m];
    }
  }
}
