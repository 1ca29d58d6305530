/** Deterministic selection: walk the admitted candidates in path order and stop, never skip, at the
    first that would exceed a limit; and what that makes of successive batches. */
module Selection {
  import opened Collections
  import opened TextOrder

  type Path = string

  /** `group` is the exact-duplicate group an archive was found in. */
  datatype Candidate = Candidate(path: Path, size: nat, archive: bool, group: Option<nat>)

  /** A batch class's admission predicate. */
  type Policy = Candidate -> bool

  datatype Envelope = Envelope(maxInstances: nat, maxBytes: nat)

  // ----- sorting --------------------------------------------------------------------------------------

  function Insert(c: Candidate, sorted: seq<Candidate>): seq<Candidate>
    decreases |sorted|
  {
    if sorted == [] || Before(c.path, sorted[0].path) then [c] + sorted else [sorted[0]] + Insert(c, sorted[1..])
  }

  /** `sorted(..., key=path)`. */
  function Sort(cs: seq<Candidate>): seq<Candidate>
    decreases |cs|
  {
    if cs == [] then [] else Insert(cs[|cs| - 1], Sort(cs[..|cs| - 1]))
  }

  predicate Ascending(cs: seq<Candidate>)
  {
    forall i, j :: 0 <= i < j < |cs| ==> Before(cs[i].path, cs[j].path)
  }

  predicate DistinctPaths(cs: seq<Candidate>)
  {
    forall i, j :: 0 <= i < j < |cs| ==> cs[i].path != cs[j].path
  }

  lemma {:induction false} InsertSame(c: Candidate, sorted: seq<Candidate>)
    ensures multiset(Insert(c, sorted)) == multiset(sorted) + multiset{c}
    decreases |sorted|
  {
    if sorted != [] && !Before(c.path, sorted[0].path) {
      InsertSame(c, sorted[1..]);
      assert sorted == [sorted[0]] + sorted[1..];
    }
  }

  lemma {:induction false} InsertAscends(c: Candidate, sorted: seq<Candidate>)
    requires Ascending(sorted) && forall i :: 0 <= i < |sorted| ==> sorted[i].path != c.path
    ensures Ascending(Insert(c, sorted))
    decreases |sorted|
  {
    if sorted == [] {
    } else if Before(c.path, sorted[0].path) {
      forall j | 0 <= j < |sorted| ensures Before(c.path, sorted[j].path) {
        if j > 0 { BeforeTransitive(c.path, sorted[0].path, sorted[j].path); }
      }
    } else {
      BeforeTotal(c.path, sorted[0].path);
      InsertAscends(c, sorted[1..]);
      InsertSame(c, sorted[1..]);
      var rest := Insert(c, sorted[1..]);
      forall j | 0 <= j < |rest| ensures Before(sorted[0].path, rest[j].path) {
        assert rest[j] in multiset(rest);
        assert rest[j] == c || rest[j] in sorted[1..];
      }
    }
  }

  lemma {:induction false} SortSame(cs: seq<Candidate>)
    ensures multiset(Sort(cs)) == multiset(cs)
    decreases |cs|
  {
    if cs != [] {
      var n := |cs| - 1;
      SortSame(cs[..n]);
      InsertSame(cs[n], Sort(cs[..n]));
      assert cs == cs[..n] + [cs[n]];
    }
  }

  lemma {:induction false} SortAscends(cs: seq<Candidate>)
    requires DistinctPaths(cs)
    ensures Ascending(Sort(cs))
    decreases |cs|
  {
    if cs != [] {
      var n := |cs| - 1;
      SortAscends(cs[..n]);
      SortSame(cs[..n]);
      forall i | 0 <= i < |Sort(cs[..n])| ensures Sort(cs[..n])[i].path != cs[n].path {
        assert Sort(cs[..n])[i] in multiset(cs[..n]);
      }
      InsertAscends(cs[n], Sort(cs[..n]));
    }
  }

  lemma FirstIsFirst(a: seq<Candidate>, b: seq<Candidate>)
    requires Ascending(a) && Ascending(b) && a != [] && b != [] && a[0] in b && b[0] in a
    ensures a[0] == b[0]
  {
    var i :| 0 <= i < |b| && b[i] == a[0];
    var j :| 0 <= j < |a| && a[j] == b[0];
    BeforeTotal(a[0].path, b[0].path);
  }

  lemma TailsSame(a: seq<Candidate>, b: seq<Candidate>)
    requires a != [] && b != [] && a[0] == b[0] && multiset(a) == multiset(b)
    ensures multiset(a[1..]) == multiset(b[1..])
  {
    assert a == [a[0]] + a[1..] && b == [b[0]] + b[1..];
    assert multiset(a[1..]) == multiset(a) - multiset{a[0]};
  }

  /** There is only one way to put distinct paths in order. */
  lemma {:induction false} OrderIsUnique(a: seq<Candidate>, b: seq<Candidate>)
    requires Ascending(a) && Ascending(b) && multiset(a) == multiset(b)
    ensures a == b
    decreases |a|
  {
    assert |a| == |multiset(a)| == |b|;
    if a != [] {
      assert a[0] in multiset(b) && b[0] in multiset(a);
      FirstIsFirst(a, b);
      TailsSame(a, b);
      OrderIsUnique(a[1..], b[1..]);
    }
  }

  // ----- selection -----------------------------------------------------------------------------------

  function Keep(cs: seq<Candidate>, keep: Candidate -> bool): (r: seq<Candidate>)
    ensures |r| <= |cs|
    decreases |cs|
  {
    if cs == [] then [] else
      var n := |cs| - 1;
      Keep(cs[..n], keep) + if keep(cs[n]) then [cs[n]] else []
  }

  function Bytes(cs: seq<Candidate>): nat
    decreases |cs|
  {
    if cs == [] then 0 else Bytes(cs[..|cs| - 1]) + cs[|cs| - 1].size
  }

  predicate Fits(cs: seq<Candidate>, envelope: Envelope)
  {
    |cs| <= envelope.maxInstances && Bytes(cs) <= envelope.maxBytes
  }

  /** `picked` is the longest prefix of the ordered list that fits both limits. */
  ghost predicate LongestFitting(picked: seq<Candidate>, ordered: seq<Candidate>, envelope: Envelope)
  {
    |picked| <= |ordered| && picked == ordered[..|picked|] &&
    forall k :: 0 <= k <= |ordered| ==> (Fits(ordered[..k], envelope) <==> k <= |picked|)
  }

  lemma {:induction false} ShorterFits(ordered: seq<Candidate>, envelope: Envelope, j: nat, k: nat)
    requires j <= k <= |ordered| && Fits(ordered[..k], envelope)
    ensures Fits(ordered[..j], envelope)
    decreases k
  {
    if j < k {
      assert ordered[..k][..k - 1] == ordered[..k - 1];
      ShorterFits(ordered, envelope, j, k - 1);
    }
  }

  datatype SelectionResult = SelectionResult(eligible: nat, policyFiltered: nat, selectable: nat, selected: seq<Candidate>, bytes: nat)

  lemma StoppingIsLongest(ordered: seq<Candidate>, envelope: Envelope, i: nat)
    requires i <= |ordered| && Fits(ordered[..i], envelope) && (i < |ordered| ==> !Fits(ordered[..i + 1], envelope))
    ensures LongestFitting(ordered[..i], ordered, envelope)
  {
    forall k | 0 <= k <= |ordered| ensures Fits(ordered[..k], envelope) <==> k <= i {
      if k <= i {
        ShorterFits(ordered, envelope, k, i);
      } else if Fits(ordered[..k], envelope) {
        ShorterFits(ordered, envelope, i + 1, k);
      }
    }
  }

  /** The walk itself. */
  method TakeUntilFull(ordered: seq<Candidate>, envelope: Envelope)
    returns (selected: seq<Candidate>, runningBytes: nat)
    ensures LongestFitting(selected, ordered, envelope) && runningBytes == Bytes(selected)
  {
    selected, runningBytes := [], 0;
    var i := 0;
    while i < |ordered|
      invariant 0 <= i <= |ordered| && selected == ordered[..i] && runningBytes == Bytes(selected)
      invariant Fits(selected, envelope)
    {
      assert ordered[..i + 1][..i] == ordered[..i];
      if |selected| + 1 > envelope.maxInstances { break; }
      if runningBytes + ordered[i].size > envelope.maxBytes { break; }
      selected := selected + [ordered[i]];
      runningBytes := runningBytes + ordered[i].size;
      i := i + 1;
    }
    StoppingIsLongest(ordered, envelope, i);
  }

  /** The places of the candidates with the property. */
  function Places(cs: seq<Candidate>, keep: Candidate -> bool): set<nat>
  {
    set i: nat | i < |cs| && keep(cs[i])
  }

  function Both(one: Candidate -> bool, two: Candidate -> bool): Candidate -> bool
  {
    (c: Candidate) => one(c) && two(c)
  }

  lemma {:induction false} KeepSize(cs: seq<Candidate>, keep: Candidate -> bool)
    ensures |Keep(cs, keep)| == |Places(cs, keep)|
    decreases |cs|
  {
    if cs == [] {
      assert Places(cs, keep) == {};
    } else {
      var n := |cs| - 1;
      KeepSize(cs[..n], keep);
      assert Places(cs, keep) == Places(cs[..n], keep) + if keep(cs[n]) then {n} else {};
    }
  }

  lemma {:induction false} KeepTwice(cs: seq<Candidate>, one: Candidate -> bool, two: Candidate -> bool)
    ensures Keep(Keep(cs, one), two) == Keep(cs, Both(one, two))
    decreases |cs|
  {
    if cs != [] {
      var n := |cs| - 1;
      KeepTwice(cs[..n], one, two);
      if one(cs[n]) {
        var kept := Keep(cs[..n], one) + [cs[n]];
        assert Keep(cs, one) == kept && kept[..|kept| - 1] == Keep(cs[..n], one);
      } else {
        assert Keep(cs, one) == Keep(cs[..n], one);
      }
    }
  }

  /** A candidate that fits the byte limit by itself. */
  function Small(envelope: Envelope): Candidate -> bool
  {
    (c: Candidate) => c.size <= envelope.maxBytes
  }

  lemma CountsAreExact(cs: seq<Candidate>, policy: Policy, envelope: Envelope)
    ensures |Keep(cs, policy)| == |set i: nat | i < |cs| && policy(cs[i])|
    ensures |Keep(Keep(cs, policy), Small(envelope))| == |set i: nat | i < |cs| && policy(cs[i]) && cs[i].size <= envelope.maxBytes|
  {
    KeepSize(cs, policy);
    KeepTwice(cs, policy, Small(envelope));
    KeepSize(cs, Both(policy, Small(envelope)));
    assert Places(cs, Both(policy, Small(envelope))) == set i: nat | i < |cs| && policy(cs[i]) && cs[i].size <= envelope.maxBytes;
  }

  method Select(cs: seq<Candidate>, policy: Policy, envelope: Envelope) returns (result: SelectionResult)
    ensures LongestFitting(result.selected, Sort(Keep(cs, policy)), envelope) && result.bytes == Bytes(result.selected)
    ensures |result.selected| <= result.selectable <= result.policyFiltered <= result.eligible == |cs|
    ensures result.policyFiltered == |set i: nat | i < |cs| && policy(cs[i])|
    ensures result.selectable == |set i: nat | i < |cs| && policy(cs[i]) && cs[i].size <= envelope.maxBytes|
  {
    var filtered := Keep(cs, policy);
    var selectable := |Keep(filtered, Small(envelope))|;
    var ordered := Sort(filtered);
    var selected, bytes := TakeUntilFull(ordered, envelope);
    SortSame(filtered);
    SelectedAreSelectable(filtered, ordered, envelope, |selected|);
    CountsAreExact(cs, policy, envelope);
    result := SelectionResult(|cs|, |filtered|, selectable, selected, bytes);
  }

  lemma {:induction false} KeepCount(cs: seq<Candidate>, keep: Candidate -> bool, c: Candidate)
    ensures multiset(Keep(cs, keep))[c] == if keep(c) then multiset(cs)[c] else 0
    decreases |cs|
  {
    if cs != [] {
      var n := |cs| - 1;
      KeepCount(cs[..n], keep, c);
      assert cs == cs[..n] + [cs[n]];
    }
  }

  lemma {:induction false} SizeWithinBytes(cs: seq<Candidate>, i: nat)
    requires i < |cs|
    ensures cs[i].size <= Bytes(cs)
    decreases |cs|
  {
    if i < |cs| - 1 { SizeWithinBytes(cs[..|cs| - 1], i); }
  }

  lemma SelectedAreSelectable(filtered: seq<Candidate>, ordered: seq<Candidate>, envelope: Envelope, k: nat)
    requires multiset(ordered) == multiset(filtered) && k <= |ordered| && Fits(ordered[..k], envelope)
    ensures k <= |Keep(filtered, Small(envelope))|
  {
    var small := Small(envelope);
    assert ordered == ordered[..k] + ordered[k..];
    forall c ensures multiset(ordered[..k])[c] <= multiset(Keep(filtered, small))[c] {
      KeepCount(filtered, small, c);
      if c in ordered[..k] {
        var i :| 0 <= i < k && ordered[..k][i] == c;
        SizeWithinBytes(ordered[..k], i);
      }
    }
    assert multiset(ordered[..k]) <= multiset(Keep(filtered, small));
    MultisetSize(multiset(ordered[..k]), multiset(Keep(filtered, small)));
    assert |multiset(ordered[..k])| == k;
  }

  lemma MultisetSize<T>(a: multiset<T>, b: multiset<T>)
    requires a <= b
    ensures |a| <= |b|
  {
    assert b == a + (b - a);
  }

  /** The result does not depend on the order of the candidates. */
  lemma PermutingChangesNothing(a: seq<Candidate>, b: seq<Candidate>, policy: Policy, envelope: Envelope,
                                picked: seq<Candidate>, picked': seq<Candidate>)
    requires multiset(a) == multiset(b) && DistinctPaths(a) && DistinctPaths(b)
    requires LongestFitting(picked, Sort(Keep(a, policy)), envelope)
    requires LongestFitting(picked', Sort(Keep(b, policy)), envelope)
    ensures picked == picked'
  {
    SameOrder(a, b, policy);
    var ordered := Sort(Keep(a, policy));
    assert Fits(ordered[..|picked|], envelope) && Fits(ordered[..|picked'|], envelope);
  }

  lemma SameOrder(a: seq<Candidate>, b: seq<Candidate>, policy: Policy)
    requires multiset(a) == multiset(b) && DistinctPaths(a) && DistinctPaths(b)
    ensures Sort(Keep(a, policy)) == Sort(Keep(b, policy))
  {
    forall c ensures multiset(Keep(a, policy))[c] == multiset(Keep(b, policy))[c] {
      KeepCount(a, policy, c);
      KeepCount(b, policy, c);
    }
    KeepDistinct(a, policy);
    KeepDistinct(b, policy);
    SortAscends(Keep(a, policy));
    SortAscends(Keep(b, policy));
    SortSame(Keep(a, policy));
    SortSame(Keep(b, policy));
    OrderIsUnique(Sort(Keep(a, policy)), Sort(Keep(b, policy)));
  }

  lemma {:induction false} KeepDistinct(cs: seq<Candidate>, keep: Candidate -> bool)
    requires DistinctPaths(cs)
    ensures DistinctPaths(Keep(cs, keep))
    ensures forall c :: c in Keep(cs, keep) <==> c in cs && keep(c)
    decreases |cs|
  {
    if cs != [] {
      var n := |cs| - 1;
      KeepDistinct(cs[..n], keep);
      assert cs == cs[..n] + [cs[n]];
      forall i | 0 <= i < |Keep(cs[..n], keep)| ensures Keep(cs[..n], keep)[i].path != cs[n].path {
        assert Keep(cs[..n], keep)[i] in cs[..n];
      }
    }
  }

  /** Nothing that was passed over comes before anything selected, and the first admitted candidate that was not
      selected would have broken a limit: the walk stops there instead of looking for a smaller one. */
  lemma SelectionStopsAtTheFirst(cs: seq<Candidate>, policy: Policy, envelope: Envelope, picked: seq<Candidate>)
    requires DistinctPaths(cs) && LongestFitting(picked, Sort(Keep(cs, policy)), envelope)
    ensures |picked| <= envelope.maxInstances && Bytes(picked) <= envelope.maxBytes && Ascending(picked)
    ensures forall c :: c in picked ==> c in cs && policy(c)
    ensures forall c, d :: c in picked && d in cs && policy(d) && d !in picked ==> Before(c.path, d.path)
    ensures forall d :: d in cs && policy(d) && d !in picked &&
                        (forall e :: e in cs && policy(e) && e !in picked ==> e == d || Before(d.path, e.path)) ==>
              |picked| == envelope.maxInstances || Bytes(picked) + d.size > envelope.maxBytes
  {
    var ordered := Sort(Keep(cs, policy));
    OrderedAre(cs, policy);
    assert Fits(ordered[..|picked|], envelope);
    forall d | d in ordered && d !in picked ensures forall c :: c in picked ==> Before(c.path, d.path) {
      PassedOverComeLater(ordered, |picked|, d);
    }
    forall d | d in ordered && d !in picked && (forall e :: e in ordered && e !in picked ==> e == d || Before(d.path, e.path))
      ensures |picked| == envelope.maxInstances || Bytes(picked) + d.size > envelope.maxBytes
    {
      FirstDoesNotFit(ordered, envelope, picked, d);
    }
  }

  lemma PassedOverComeLater(ordered: seq<Candidate>, n: nat, d: Candidate)
    requires Ascending(ordered) && n <= |ordered| && d in ordered && d !in ordered[..n]
    ensures exists k :: n <= k < |ordered| && ordered[k] == d
    ensures forall c :: c in ordered[..n] ==> Before(c.path, d.path)
  {
    var k :| 0 <= k < |ordered| && ordered[k] == d;
  }

  lemma FirstDoesNotFit(ordered: seq<Candidate>, envelope: Envelope, picked: seq<Candidate>, d: Candidate)
    requires Ascending(ordered) && LongestFitting(picked, ordered, envelope) && d in ordered && d !in picked
    requires forall e :: e in ordered && e !in picked ==> e == d || Before(d.path, e.path)
    ensures |picked| == envelope.maxInstances || Bytes(picked) + d.size > envelope.maxBytes
  {
    var n := |picked|;
    PassedOverComeLater(ordered, n, d);
    NextIsFirst(ordered, n, d);
    assert ordered[..n + 1][..n] == picked && !Fits(ordered[..n + 1], envelope) && Fits(ordered[..n], envelope);
  }

  lemma OrderedAre(cs: seq<Candidate>, policy: Policy)
    requires DistinctPaths(cs)
    ensures Ascending(Sort(Keep(cs, policy))) && forall c :: c in Sort(Keep(cs, policy)) <==> c in cs && policy(c)
  {
    KeepDistinct(cs, policy);
    SortAscends(Keep(cs, policy));
    SortSame(Keep(cs, policy));
    forall c ensures c in Sort(Keep(cs, policy)) <==> c in Keep(cs, policy) {
      assert c in multiset(Sort(Keep(cs, policy))) <==> c in multiset(Keep(cs, policy));
    }
  }

  lemma NextIsFirst(ordered: seq<Candidate>, n: nat, d: Candidate)
    requires Ascending(ordered) && n < |ordered| && (forall i :: 0 <= i < n ==> ordered[i] != d)
    requires exists k :: n <= k < |ordered| && ordered[k] == d
    requires forall e :: e in ordered && e !in ordered[..n] ==> e == d || Before(d.path, e.path)
    ensures ordered[n] == d
  {
    var k :| n <= k < |ordered| && ordered[k] == d;
    forall i | 0 <= i < n ensures ordered[i] != ordered[n] { BeforeTotal(ordered[i].path, ordered[n].path); }
    if k > n { BeforeTotal(ordered[n].path, d.path); }
  }

  /** A larger envelope extends the selection; it never exchanges anything in it. */
  lemma LargerEnvelopeExtends(ordered: seq<Candidate>, small: Envelope, large: Envelope, picked: seq<Candidate>,
                              picked': seq<Candidate>)
    requires small.maxInstances <= large.maxInstances && small.maxBytes <= large.maxBytes
    requires LongestFitting(picked, ordered, small) && LongestFitting(picked', ordered, large)
    ensures picked <= picked'
  {
    assert Fits(ordered[..|picked|], small);
    assert Fits(ordered[..|picked|], large);
  }

  // ----- duplicate archives ----------------------------------------------------------------------------

  predicate Duplicates(a: Candidate, b: Candidate)
  {
    a.archive && b.archive && a.group.Some? && a.group == b.group
  }

  /** The paths seen so far of archives that have an earlier duplicate. */
  ghost predicate DeferredUpTo(ordered: seq<Candidate>, n: nat, deferred: set<Path>)
    requires n <= |ordered|
  {
    forall p :: p in deferred <==> exists i, j :: 0 <= i < j < n && Duplicates(ordered[i], ordered[j]) && ordered[j].path == p
  }

  /** Of every group of exact duplicates only the archive that comes first in path order is left in. */
  method SelectArchiveDuplicateDeferrals(ordered: seq<Candidate>) returns (deferred: set<Path>)
    ensures DeferredUpTo(ordered, |ordered|, deferred)
  {
    var chosen: map<nat, Path> := map[];
    deferred := {};
    for n := 0 to |ordered|
      invariant DeferredUpTo(ordered, n, deferred)
      invariant forall g :: g in chosen <==> exists i :: 0 <= i < n && ordered[i].archive && ordered[i].group == Some(g)
    {
      var c := ordered[n];
      ghost var before := deferred;
      if c.archive && c.group.Some? {
        if c.group.value !in chosen {
          chosen := chosen[c.group.value := c.path];
        } else {
          deferred := deferred + {c.path};
        }
      }
      forall p ensures p in deferred <==> exists i, j :: 0 <= i < j < n + 1 && Duplicates(ordered[i], ordered[j]) && ordered[j].path == p {
        if p in before {
          var i, j :| 0 <= i < j < n && Duplicates(ordered[i], ordered[j]) && ordered[j].path == p;
        }
        if p in deferred && p !in before {
          var i :| 0 <= i < n && ordered[i].archive && ordered[i].group == c.group;
          assert Duplicates(ordered[i], ordered[n]);
        }
      }
    }
  }

  predicate InGroup(c: Candidate, group: nat)
  {
    c.archive && c.group == Some(group)
  }

  /** Of every group of exact duplicates exactly one archive is left in, the first in the order; and nothing but
      archives of such groups is deferred. */
  lemma OneOfEachGroupStays(ordered: seq<Candidate>, deferred: set<Path>, group: nat)
    requires Ascending(ordered) && DeferredUpTo(ordered, |ordered|, deferred)
    ensures (exists i :: 0 <= i < |ordered| && InGroup(ordered[i], group)) ==>
              exists i :: 0 <= i < |ordered| && InGroup(ordered[i], group) && ordered[i].path !in deferred &&
                forall j :: 0 <= j < |ordered| && j != i && InGroup(ordered[j], group) ==> i < j && ordered[j].path in deferred
    ensures forall c :: c in ordered && c.path in deferred ==> c.archive && c.group.Some?
  {
    if i :| 0 <= i < |ordered| && InGroup(ordered[i], group) {
      var members := set j: nat | j < |ordered| && InGroup(ordered[j], group);
      assert i in members;
      var first := LeastExists(members, (j: nat) => j);
      forall k | 0 <= k < first ensures !InGroup(ordered[k], group) { assert k in members <==> InGroup(ordered[k], group); }
      forall i, j | 0 <= i < j < |ordered| && Duplicates(ordered[i], ordered[j]) ensures ordered[j].path != ordered[first].path {
        assert InGroup(ordered[j], group) ==> InGroup(ordered[i], group);
        BeforeTotal(ordered[j].path, ordered[first].path);
      }
      forall j | 0 <= j < |ordered| && j != first && InGroup(ordered[j], group) ensures first < j && ordered[j].path in deferred {
        assert j in members;
        assert Duplicates(ordered[first], ordered[j]);
      }
    }
    forall c | c in ordered && c.path in deferred ensures c.archive && c.group.Some? {
      var i, j :| 0 <= i < j < |ordered| && Duplicates(ordered[i], ordered[j]) && ordered[j].path == c.path;
      var k :| 0 <= k < |ordered| && ordered[k] == c;
      SamePlace(ordered, j, k);
    }
  }

  lemma SamePlace(ordered: seq<Candidate>, j: nat, k: nat)
    requires Ascending(ordered) && j < |ordered| && k < |ordered| && ordered[j].path == ordered[k].path
    ensures j == k
  {
    BeforeTotal(ordered[j].path, ordered[k].path);
  }

  // ----- successive batches of one discovery run ---------------------------------------------------------

  predicate NoArchives(policy: Policy, cs: seq<Candidate>)
  {
    forall c :: c in cs && policy(c) ==> !c.archive
  }

  function Unused(used: set<Path>): Candidate -> bool
  {
    (c: Candidate) => c.path !in used
  }

  function PathsOf(cs: seq<Candidate>): set<Path>
  {
    set c | c in cs :: c.path
  }

  /** What one call picks: the longest fitting stretch of the admitted candidates in path order, leaving
      out those already used and the deferred duplicates. */
  ghost predicate Picks(all: seq<Candidate>, used: set<Path>, policy: Policy, envelope: Envelope, deferred: set<Path>,
                        picked: seq<Candidate>)
  {
    var eligible := Keep(all, Unused(used));
    DeferredUpTo(Sort(eligible), |Sort(eligible)|, deferred) &&
    LongestFitting(picked, Sort(Keep(Keep(eligible, Unused(deferred)), policy)), envelope)
  }

  class BatchCreationService {
    /** The paths materialized for the discovery run, and the selections that did it. */
    var materialized: set<Path>
    var batches: seq<seq<Candidate>>

    constructor ()
      ensures materialized == {} && batches == []
    {
      materialized, batches := {}, [];
    }

    /** Nothing is written unless something is selected; and whatever was selected before is not
        selected again. */
    method CreateBatch(candidates: seq<Candidate>, policy: Policy, envelope: Envelope)
      returns (picked: seq<Candidate>, ghost deferred: set<Path>)
      requires DistinctPaths(candidates)
      modifies this
      ensures PathsOf(picked) !! old(materialized) && materialized == old(materialized) + PathsOf(picked)
      ensures batches == if picked == [] then old(batches) else old(batches) + [picked]
      ensures Picks(candidates, old(materialized), policy, envelope, deferred, picked)
    {
      var eligible := Keep(candidates, Unused(materialized));
      SortSame(eligible);
      assert |Sort(eligible)| == |multiset(Sort(eligible))| == |multiset(eligible)| == |eligible|;
      var duplicates := SelectArchiveDuplicateDeferrals(Sort(eligible));
      deferred := duplicates;
      var result := Select(Keep(eligible, Unused(duplicates)), policy, envelope);
      picked := result.selected;
      PickedAreEligible(eligible, Unused(deferred), policy, picked, envelope);
      KeepDistinct(candidates, Unused(materialized));
      if picked == [] { return; }
      materialized := materialized + PathsOf(picked);
      batches := batches + [picked];
    }
  }

  lemma PickedAreEligible(eligible: seq<Candidate>, keep: Candidate -> bool, policy: Policy, picked: seq<Candidate>,
                          envelope: Envelope)
    requires LongestFitting(picked, Sort(Keep(Keep(eligible, keep), policy)), envelope)
    ensures forall c :: c in picked ==> c in eligible
  {
    var filtered := Keep(Keep(eligible, keep), policy);
    SortSame(filtered);
    forall c | c in picked ensures c in eligible {
      assert c in multiset(Sort(filtered));
      KeepCount(Keep(eligible, keep), policy, c);
      KeepCount(eligible, keep, c);
    }
  }

  /** The candidates used so far are the first `k` of the ordered list. */
  ghost predicate UsedTo(all: seq<Candidate>, policy: Policy, used: set<Path>, k: nat)
  {
    var ordered := Sort(Keep(all, policy));
    k <= |ordered| && used == PathsOf(ordered[..k])
  }

  /** Under a policy that admits no archives, what a call has to choose from is the ordered list from
      where the calls before it stopped. */
  lemma RestInOrder(all: seq<Candidate>, policy: Policy, used: set<Path>, k: nat, deferred: set<Path>)
    requires DistinctPaths(all) && NoArchives(policy, all) && UsedTo(all, policy, used, k)
    requires DeferredUpTo(Sort(Keep(all, Unused(used))), |Sort(Keep(all, Unused(used)))|, deferred)
    ensures Sort(Keep(Keep(Keep(all, Unused(used)), Unused(deferred)), policy)) == Sort(Keep(all, policy))[k..]
  {
    var rest := Keep(Keep(Keep(all, Unused(used)), Unused(deferred)), policy);
    RestDistinct(all, policy, used, deferred);
    UpperAscends(all, policy, k);
    RestSame(all, policy, used, k, deferred);
    SortsTo(rest, Sort(Keep(all, policy))[k..]);
  }

  lemma RestDistinct(all: seq<Candidate>, policy: Policy, used: set<Path>, deferred: set<Path>)
    requires DistinctPaths(all)
    ensures DistinctPaths(Keep(Keep(Keep(all, Unused(used)), Unused(deferred)), policy))
  {
    KeepDistinct(all, Unused(used));
    KeepDistinct(Keep(all, Unused(used)), Unused(deferred));
    KeepDistinct(Keep(Keep(all, Unused(used)), Unused(deferred)), policy);
  }

  lemma UpperAscends(all: seq<Candidate>, policy: Policy, k: nat)
    requires DistinctPaths(all) && k <= |Sort(Keep(all, policy))|
    ensures Ascending(Sort(Keep(all, policy))[k..])
  {
    KeepDistinct(all, policy);
    SortAscends(Keep(all, policy));
  }

  lemma RestSame(all: seq<Candidate>, policy: Policy, used: set<Path>, k: nat, deferred: set<Path>)
    requires DistinctPaths(all) && NoArchives(policy, all) && UsedTo(all, policy, used, k)
    requires DeferredUpTo(Sort(Keep(all, Unused(used))), |Sort(Keep(all, Unused(used)))|, deferred)
    ensures multiset(Keep(Keep(Keep(all, Unused(used)), Unused(deferred)), policy)) == multiset(Sort(Keep(all, policy))[k..])
  {
    var rest, upper := multiset(Keep(Keep(Keep(all, Unused(used)), Unused(deferred)), policy)), multiset(Sort(Keep(all, policy))[k..]);
    forall c ensures rest[c] == upper[c] { RestCount(all, policy, used, k, deferred, c); }
  }

  lemma SortsTo(cs: seq<Candidate>, ordered: seq<Candidate>)
    requires DistinctPaths(cs) && Ascending(ordered) && multiset(cs) == multiset(ordered)
    ensures Sort(cs) == ordered
  {
    SortAscends(cs);
    SortSame(cs);
    OrderIsUnique(Sort(cs), ordered);
  }

  lemma OnlyArchivesDeferred(eligible: seq<Candidate>, deferred: set<Path>, c: Candidate)
    requires DistinctPaths(eligible) && DeferredUpTo(Sort(eligible), |Sort(eligible)|, deferred) && c in eligible
    requires c.path in deferred
    ensures c.archive
  {
    var ordered := Sort(eligible);
    SortSame(eligible);
    var i, j :| 0 <= i < j < |ordered| && Duplicates(ordered[i], ordered[j]) && ordered[j].path == c.path;
    assert ordered[j] in multiset(eligible) && ordered[j] in eligible;
    var m :| 0 <= m < |eligible| && eligible[m] == ordered[j];
    var n :| 0 <= n < |eligible| && eligible[n] == c;
    assert m == n;
  }

  /** A candidate whose path was used is among the first `k`, and nowhere else. */
  lemma SameHalf(ordered: seq<Candidate>, k: nat, c: Candidate, d: Candidate)
    requires Ascending(ordered) && k <= |ordered| && d in ordered[..k] && d.path == c.path
    ensures c !in ordered[k..]
  {
    var i :| 0 <= i < k && ordered[..k][i] == d;
    forall j | 0 <= j < |ordered[k..]| ensures ordered[k..][j] != c {
      BeforeTotal(ordered[i].path, ordered[k + j].path);
    }
  }

  lemma UpperCount(ordered: seq<Candidate>, k: nat, c: Candidate)
    requires Ascending(ordered) && k <= |ordered|
    ensures multiset(ordered[k..])[c] == if c.path in PathsOf(ordered[..k]) then 0 else multiset(ordered)[c]
  {
    assert ordered == ordered[..k] + ordered[k..];
    assert multiset(ordered)[c] == multiset(ordered[..k])[c] + multiset(ordered[k..])[c];
    if c.path in PathsOf(ordered[..k]) {
      var d :| d in ordered[..k] && d.path == c.path;
      SameHalf(ordered, k, c, d);
    }
  }

  lemma RestCount(all: seq<Candidate>, policy: Policy, used: set<Path>, k: nat, deferred: set<Path>, c: Candidate)
    requires DistinctPaths(all) && NoArchives(policy, all) && UsedTo(all, policy, used, k)
    requires DeferredUpTo(Sort(Keep(all, Unused(used))), |Sort(Keep(all, Unused(used)))|, deferred)
    ensures multiset(Keep(Keep(Keep(all, Unused(used)), Unused(deferred)), policy))[c] == multiset(Sort(Keep(all, policy))[k..])[c]
  {
    var ordered, eligible := Sort(Keep(all, policy)), Keep(all, Unused(used));
    KeepCount(all, Unused(used), c);
    KeepCount(eligible, Unused(deferred), c);
    KeepCount(Keep(eligible, Unused(deferred)), policy, c);
    KeepCount(all, policy, c);
    SortSame(Keep(all, policy));
    KeepDistinct(all, policy);
    SortAscends(Keep(all, policy));
    UpperCount(ordered, k, c);
    NotDeferred(all, policy, used, deferred, c);
  }

  lemma NotDeferred(all: seq<Candidate>, policy: Policy, used: set<Path>, deferred: set<Path>, c: Candidate)
    requires DistinctPaths(all) && NoArchives(policy, all)
    requires DeferredUpTo(Sort(Keep(all, Unused(used))), |Sort(Keep(all, Unused(used)))|, deferred)
    ensures c in Keep(all, Unused(used)) && policy(c) ==> c.path !in deferred
  {
    var eligible := Keep(all, Unused(used));
    KeepDistinct(all, Unused(used));
    if c in eligible && c.path in deferred { OnlyArchivesDeferred(eligible, deferred, c); }
  }

  lemma PathsAppend(a: seq<Candidate>, b: seq<Candidate>)
    ensures PathsOf(a + b) == PathsOf(a) + PathsOf(b)
  {}

  lemma NextStretch(ordered: seq<Candidate>, k: nat, envelope: Envelope, picked: seq<Candidate>)
    requires k <= |ordered| && LongestFitting(picked, ordered[k..], envelope)
    ensures k + |picked| <= |ordered| && picked == ordered[k..k + |picked|]
    ensures PathsOf(ordered[..k + |picked|]) == PathsOf(ordered[..k]) + PathsOf(picked)
  {
    assert ordered[k..][..|picked|] == ordered[k..k + |picked|];
    assert ordered[..k + |picked|] == ordered[..k] + picked;
    PathsAppend(ordered[..k], picked);
  }

  /** The next call picks the longest fitting stretch right after what was picked before. */
  lemma NextSegment(all: seq<Candidate>, policy: Policy, used: set<Path>, k: nat, deferred: set<Path>,
                    envelope: Envelope, picked: seq<Candidate>)
    requires DistinctPaths(all) && NoArchives(policy, all) && UsedTo(all, policy, used, k)
    requires Picks(all, used, policy, envelope, deferred, picked)
    ensures var ordered := Sort(Keep(all, policy));
            k + |picked| <= |ordered| && picked == ordered[k..k + |picked|] &&
            UsedTo(all, policy, used + PathsOf(picked), k + |picked|) && LongestFitting(picked, ordered[k..], envelope)
  {
    RestInOrder(all, policy, used, k, deferred);
    NextStretch(Sort(Keep(all, policy)), k, envelope, picked);
  }

  function Concat(picks: seq<seq<Candidate>>): seq<Candidate>
    decreases |picks|
  {
    if picks == [] then [] else Concat(picks[..|picks| - 1]) + picks[|picks| - 1]
  }

  lemma ConcatMore(picks: seq<seq<Candidate>>, picked: seq<Candidate>, ordered: seq<Candidate>)
    requires Concat(picks) <= ordered && |Concat(picks)| + |picked| <= |ordered|
    requires picked == ordered[|Concat(picks)|..|Concat(picks)| + |picked|]
    ensures Concat(picks + [picked]) <= ordered && |Concat(picks + [picked])| == |Concat(picks)| + |picked|
  {
    assert (picks + [picked])[..|picks|] == picks;
    assert ordered[..|Concat(picks)| + |picked|] == ordered[..|Concat(picks)|] + picked;
  }

  /** Every pick is the longest stretch, from where the ones before it ended, that fits its envelope. */
  ghost predicate Segments(picks: seq<seq<Candidate>>, ordered: seq<Candidate>, envelopes: seq<Envelope>)
    requires |picks| <= |envelopes|
    decreases |picks|
  {
    picks != [] ==>
      var n := |picks| - 1;
      var k := |Concat(picks[..n])|;
      Segments(picks[..n], ordered, envelopes) && k <= |ordered| && LongestFitting(picks[n], ordered[k..], envelopes[n])
  }

  lemma OneMoreSegment(picks: seq<seq<Candidate>>, picked: seq<Candidate>, ordered: seq<Candidate>, envelopes: seq<Envelope>)
    requires |picks| < |envelopes| && Segments(picks, ordered, envelopes) && |Concat(picks)| <= |ordered|
    requires LongestFitting(picked, ordered[|Concat(picks)|..], envelopes[|picks|])
    ensures Segments(picks + [picked], ordered, envelopes)
  {
    assert (picks + [picked])[..|picks|] == picks;
  }

  lemma SegmentStep(all: seq<Candidate>, policy: Policy, used: set<Path>, picks: seq<seq<Candidate>>,
                    deferred: set<Path>,
                    envelope: Envelope, picked: seq<Candidate>)
    requires DistinctPaths(all) && NoArchives(policy, all) && UsedTo(all, policy, used, |Concat(picks)|)
    requires Concat(picks) <= Sort(Keep(all, policy)) && Picks(all, used, policy, envelope, deferred, picked)
    ensures Concat(picks + [picked]) <= Sort(Keep(all, policy))
    ensures UsedTo(all, policy, used + PathsOf(picked), |Concat(picks + [picked])|)
    ensures |Concat(picks)| <= |Sort(Keep(all, policy))| && LongestFitting(picked, Sort(Keep(all, policy))[|Concat(picks)|..], envelope)
  {
    NextSegment(all, policy, used, |Concat(picks)|, deferred, envelope, picked);
    ConcatMore(picks, picked, Sort(Keep(all, policy)));
  }

  /** Successive batches take disjoint, consecutive segments of the one ordered list: after any number of
      calls, with any envelopes, what they picked, one after the other, is a prefix of it, and each picked as much as its envelope
      holds. */
  method CreateBatches(service: BatchCreationService, candidates: seq<Candidate>, policy: Policy,
                       envelopes: seq<Envelope>)
    returns (picks: seq<seq<Candidate>>)
    requires DistinctPaths(candidates) && NoArchives(policy, candidates) && service.materialized == {}
    modifies service
    ensures |picks| == |envelopes| && Concat(picks) <= Sort(Keep(candidates, policy))
    ensures Segments(picks, Sort(Keep(candidates, policy)), envelopes)
    ensures Ascending(Concat(picks)) && service.materialized == PathsOf(Concat(picks))
  {
    picks := [];
    ghost var ordered := Sort(Keep(candidates, policy));
    for i := 0 to |envelopes|
      invariant |picks| == i && Concat(picks) <= ordered && Segments(picks, ordered, envelopes)
      invariant UsedTo(candidates, policy, service.materialized, |Concat(picks)|)
    {
      ghost var used, deferred := service.materialized, {};
      var picked;
      picked, deferred := service.CreateBatch(candidates, policy, envelopes[i]);
      SegmentStep(candidates, policy, used, picks, deferred, envelopes[i], picked);
      OneMoreSegment(picks, picked, ordered, envelopes);
      picks := picks + [picked];
    }
    KeepDistinct(candidates, policy);
    SortAscends(Keep(candidates, policy));
    assert Concat(picks) == ordered[..|Concat(picks)|];
  }
}
