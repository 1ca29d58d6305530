/** Reciprocal rank fusion and the normalised discounted gain, over exact reals. */
module Ranking {
  import opened Collections

  /** Documents in the order in which ties are broken last. */
  type Doc = nat

  predicate NoRepeats(ranking: seq<Doc>)
  {
    forall i, j :: 0 <= i < j < |ranking| ==> ranking[i] != ranking[j]
  }

  // ----- collapsing chunks to documents ----------------------------------------------------------------

  predicate NotYet(chunks: seq<nat>, docOf: nat -> Doc, k: nat, d: Doc)
    requires k < |chunks|
  {
    forall m :: 0 <= m <= k ==> docOf(chunks[m]) != d
  }

  /** Among the first `n` chunks, one of `d` comes before the first of `e`. */
  predicate FoundFirst(chunks: seq<nat>, docOf: nat -> Doc, n: nat, d: Doc, e: Doc)
    requires n <= |chunks|
  {
    exists k :: 0 <= k < n && docOf(chunks[k]) == d && NotYet(chunks, docOf, k, e)
  }

  predicate Found(chunks: seq<nat>, docOf: nat -> Doc, n: nat, d: Doc)
    requires n <= |chunks|
  {
    exists k :: 0 <= k < n && docOf(chunks[k]) == d
  }

  /** Every document once, at the place of its best-ranked chunk. */
  ghost predicate Collapsed(docs: seq<Doc>, chunks: seq<nat>, docOf: nat -> Doc, n: nat)
    requires n <= |chunks|
  {
    NoRepeats(docs) && (forall d :: d in docs <==> Found(chunks, docOf, n, d)) &&
    forall i, j :: 0 <= i < j < |docs| ==> FoundFirst(chunks, docOf, n, docs[i], docs[j])
  }

  lemma CollapseNext(docs: seq<Doc>, chunks: seq<nat>, docOf: nat -> Doc, n: nat)
    requires n < |chunks| && Collapsed(docs, chunks, docOf, n)
    ensures Collapsed(if docOf(chunks[n]) in docs then docs else docs + [docOf(chunks[n])], chunks, docOf, n + 1)
  {
    var e := docOf(chunks[n]);
    var docs' := if e in docs then docs else docs + [e];
    forall d ensures d in docs' <==> Found(chunks, docOf, n + 1, d) { assert d in docs <==> Found(chunks, docOf, n, d); }
    forall i, j | 0 <= i < j < |docs'| ensures FoundFirst(chunks, docOf, n + 1, docs'[i], docs'[j]) {
      assert docs'[i] in docs && Found(chunks, docOf, n, docs'[i]);
      if j < |docs| {
        assert FoundFirst(chunks, docOf, n, docs[i], docs[j]);
      } else {
        var k :| 0 <= k < n && docOf(chunks[k]) == docs'[i];
        assert !Found(chunks, docOf, n, e) && NotYet(chunks, docOf, k, e);
      }
    }
  }

  method CollapseToDocs(chunks: seq<nat>, docOf: nat -> Doc) returns (docs: seq<Doc>)
    ensures Collapsed(docs, chunks, docOf, |chunks|)
  {
    docs := [];
    for n := 0 to |chunks|
      invariant Collapsed(docs, chunks, docOf, n)
    {
      CollapseNext(docs, chunks, docOf, n);
      var d := docOf(chunks[n]);
      if d !in docs { docs := docs + [d]; }
    }
  }

  // ----- discounted gain ---------------------------------------------------------------------------------

  /** Position weights: positive and strictly decreasing, as 1 / log2(i + 2) is. */
  ghost predicate Discount(w: nat -> real)
  {
    (forall i :: w(i) > 0.0) && forall i, j :: i < j ==> w(i) > w(j)
  }

  function Gain(ranked: seq<Doc>, relevant: set<Doc>, w: nat -> real, n: nat): real
    requires n <= |ranked|
  {
    if n == 0 then 0.0 else Gain(ranked, relevant, w, n - 1) + if ranked[n - 1] in relevant then w(n - 1) else 0.0
  }

  function Ideal(w: nat -> real, m: nat): real
  {
    if m == 0 then 0.0 else Ideal(w, m - 1) + w(m - 1)
  }

  function Hits(ranked: seq<Doc>, relevant: set<Doc>, n: nat): nat
    requires n <= |ranked|
  {
    if n == 0 then 0 else Hits(ranked, relevant, n - 1) + if ranked[n - 1] in relevant then 1 else 0
  }

  function NdcgAt(ranked: seq<Doc>, relevant: set<Doc>, w: nat -> real, k: nat): real
    requires Discount(w) && k > 0
  {
    if relevant == {} then 0.0 else
      IdealPositive(w, Least(|relevant|, k));
      Gain(ranked, relevant, w, Least(k, |ranked|)) / Ideal(w, Least(|relevant|, k))
  }

  lemma {:induction false} IdealPositive(w: nat -> real, m: nat)
    requires Discount(w)
    ensures Ideal(w, m) >= 0.0 && (m > 0 ==> Ideal(w, m) > 0.0)
    decreases m
  {
    if m > 0 { IdealPositive(w, m - 1); }
  }

  lemma {:induction false} IdealGrows(w: nat -> real, m: nat, n: nat)
    requires Discount(w) && m <= n
    ensures Ideal(w, m) <= Ideal(w, n) && (m < n ==> Ideal(w, m) < Ideal(w, n))
    decreases n
  {
    if m < n { IdealGrows(w, m, n - 1); }
  }

  /** A duplicate-free list cannot hit more relevant documents than there are. */
  lemma {:induction false} HitsBounded(ranked: seq<Doc>, relevant: set<Doc>, n: nat)
    requires NoRepeats(ranked) && n <= |ranked|
    ensures Hits(ranked, relevant, n) == |set i | 0 <= i < n && ranked[i] in relevant :: ranked[i]|
    ensures Hits(ranked, relevant, n) <= |relevant| && Hits(ranked, relevant, n) <= n
    decreases n
  {
    var found := set i | 0 <= i < n && ranked[i] in relevant :: ranked[i];
    if n > 0 {
      HitsBounded(ranked, relevant, n - 1);
      var earlier := set i | 0 <= i < n - 1 && ranked[i] in relevant :: ranked[i];
      assert found == if ranked[n - 1] in relevant then earlier + {ranked[n - 1]} else earlier;
      assert ranked[n - 1] !in earlier;
    } else {
      assert found == {};
    }
    SubsetCardinality(found, relevant);
  }

  /** Pushing the hits to the front can only gain. */
  lemma {:induction false} GainAtMostIdeal(ranked: seq<Doc>, relevant: set<Doc>, w: nat -> real, n: nat)
    requires Discount(w) && n <= |ranked|
    ensures Hits(ranked, relevant, n) <= n && 0.0 <= Gain(ranked, relevant, w, n) <= Ideal(w, Hits(ranked, relevant, n))
    decreases n
  {
    if n > 0 {
      GainAtMostIdeal(ranked, relevant, w, n - 1);
      var c := Hits(ranked, relevant, n - 1);
      assert c < n - 1 ==> w(n - 1) < w(c);
    }
  }

  lemma {:induction false} FrontHits(ranked: seq<Doc>, relevant: set<Doc>, n: nat, c: nat)
    requires c <= n <= |ranked| && forall i :: 0 <= i < c ==> ranked[i] in relevant
    ensures Hits(ranked, relevant, n) >= c
    decreases n
  {
    if n > 0 { FrontHits(ranked, relevant, n - 1, if c == n then c - 1 else c); }
  }

  predicate FrontRelevant(ranked: seq<Doc>, relevant: set<Doc>, c: nat)
  {
    c <= |ranked| && forall i :: 0 <= i < c ==> ranked[i] in relevant
  }

  /** With a hit in the last place, all hits are in front exactly when there is no miss at all. */
  lemma LastHitInFront(ranked: seq<Doc>, relevant: set<Doc>, n: nat, c: nat)
    requires 0 < n <= |ranked| && ranked[n - 1] in relevant && c == Hits(ranked, relevant, n - 1) <= n - 1
    ensures FrontRelevant(ranked, relevant, c + 1) <==> c == n - 1 && FrontRelevant(ranked, relevant, c)
  {
    if FrontRelevant(ranked, relevant, c + 1) && c < n - 1 { FrontHits(ranked, relevant, n - 1, c + 1); }
  }

  /** A hit in the last place weighs as much as the next ideal one only if every place is a hit. */
  lemma LastHitIsIdeal(w: nat -> real, gain: real, c: nat, n: nat)
    requires Discount(w) && c < n && gain <= Ideal(w, c)
    ensures gain + w(n - 1) == Ideal(w, c + 1) <==> c == n - 1 && gain == Ideal(w, c)
  {
    assert c < n - 1 ==> w(n - 1) < w(c);
  }

  /** It gains nothing exactly when they are in front already. */
  lemma {:induction false} GainIsIdealIff(ranked: seq<Doc>, relevant: set<Doc>, w: nat -> real, n: nat)
    requires Discount(w) && n <= |ranked|
    ensures Gain(ranked, relevant, w, n) == Ideal(w, Hits(ranked, relevant, n)) <==> FrontRelevant(ranked, relevant, Hits(ranked, relevant, n))
    decreases n
  {
    if n > 0 {
      GainAtMostIdeal(ranked, relevant, w, n - 1);
      GainIsIdealIff(ranked, relevant, w, n - 1);
      var c := Hits(ranked, relevant, n - 1);
      if ranked[n - 1] in relevant {
        LastHitInFront(ranked, relevant, n, c);
        LastHitIsIdeal(w, Gain(ranked, relevant, w, n - 1), c, n);
      }
    }
  }

  /** Over a duplicate-free ranking the measure lies between 0 and 1, and is 1, for a non-empty relevant
      set, exactly when the first min(|relevant|, k) results exist and are all relevant. */
  lemma NdcgBounds(ranked: seq<Doc>, relevant: set<Doc>, w: nat -> real, k: nat)
    requires Discount(w) && k > 0 && NoRepeats(ranked)
    ensures 0.0 <= NdcgAt(ranked, relevant, w, k) <= 1.0
    ensures relevant != {} ==>
              (NdcgAt(ranked, relevant, w, k) == 1.0 <==>
                 Least(|relevant|, k) <= |ranked| && forall i :: 0 <= i < Least(|relevant|, k) ==> ranked[i] in relevant)
  {
    if relevant != {} {
      var n, m := Least(k, |ranked|), Least(|relevant|, k);
      var c, gain, ideal := Hits(ranked, relevant, n), Gain(ranked, relevant, w, n), Ideal(w, m);
      HitsBounded(ranked, relevant, n);
      GainAtMostIdeal(ranked, relevant, w, n);
      GainIsIdealIff(ranked, relevant, w, n);
      IdealGrows(w, c, m);
      IdealPositive(w, m);
      assert gain <= ideal && (gain == ideal <==> c == m && forall i :: 0 <= i < c ==> ranked[i] in relevant);
      if m <= |ranked| && (forall i :: 0 <= i < m ==> ranked[i] in relevant) { FrontHits(ranked, relevant, n, m); }
      Quotient(gain, ideal);
    }
  }

  lemma {:induction false} SoleGain(ranked: seq<Doc>, w: nat -> real, n: nat, at: nat)
    requires NoRepeats(ranked) && n <= |ranked| && at < |ranked|
    ensures Gain(ranked, {ranked[at]}, w, n) == if at < n then w(at) else 0.0
    decreases n
  {
    if n > 0 { SoleGain(ranked, w, n - 1, at); }
  }

  /** The gains of different relevant documents add up. */
  lemma {:induction false} GainsAddUp(ranked: seq<Doc>, some: set<Doc>, others: set<Doc>, w: nat -> real, n: nat)
    requires n <= |ranked| && some !! others
    ensures Gain(ranked, some + others, w, n) == Gain(ranked, some, w, n) + Gain(ranked, others, w, n)
    decreases n
  {
    if n > 0 { GainsAddUp(ranked, some, others, w, n - 1); }
  }

  /** With one relevant document the measure is the weight of its place, relative to the first; nothing from the `k`th
      place on. */
  lemma NdcgOfOne(ranked: seq<Doc>, w: nat -> real, k: nat, at: nat)
    requires Discount(w) && k > 0 && NoRepeats(ranked) && at < |ranked|
    ensures NdcgAt(ranked, {ranked[at]}, w, k) == if at < k then w(at) / w(0) else 0.0
  {
    SoleGain(ranked, w, Least(k, |ranked|), at);
    assert Ideal(w, 1) == Ideal(w, 0) + w(0);
  }

  lemma Quotient(a: real, b: real)
    requires 0.0 <= a <= b && b > 0.0
    ensures 0.0 <= a / b <= 1.0 && (a / b == 1.0 <==> a == b)
  {
    var q := a / b;
    assert q * b == a;
    assert q > 1.0 ==> q * b > b;
    assert q < 1.0 ==> q * b < b;
    assert q < 0.0 ==> q * b < 0.0;
  }

  // ----- reciprocal rank fusion ------------------------------------------------------------------------------

  /** 1-based rank of a document in one list; 0 if it is not there. */
  function RankIn(ranking: seq<Doc>, d: Doc): nat
    decreases |ranking|
  {
    if ranking == [] then 0 else if ranking[0] == d then 1
    else if RankIn(ranking[1..], d) == 0 then 0 else 1 + RankIn(ranking[1..], d)
  }

  function Share(k: nat, rank: nat): real
    requires k > 0
  {
    if rank == 0 then 0.0 else 1.0 / (k + rank) as real
  }

  function Score(rankings: seq<seq<Doc>>, k: nat, d: Doc): real
    requires k > 0
    decreases |rankings|
  {
    if rankings == [] then 0.0
    else Score(rankings[..|rankings| - 1], k, d) + Share(k, RankIn(rankings[|rankings| - 1], d))
  }

  function BestRank(rankings: seq<seq<Doc>>, d: Doc): nat
    decreases |rankings|
  {
    if rankings == [] then 0 else
      var before, here := BestRank(rankings[..|rankings| - 1], d), RankIn(rankings[|rankings| - 1], d);
      if before == 0 then here else if here == 0 then before else Least(before, here)
  }

  function Union(rankings: seq<seq<Doc>>): set<Doc>
  {
    set i, j | 0 <= i < |rankings| && 0 <= j < |rankings[i]| :: rankings[i][j]
  }

  /** The sort key: higher score first, then the better single rank, then the document itself. */
  predicate Precedes(rankings: seq<seq<Doc>>, k: nat, x: Doc, y: Doc)
    requires k > 0
  {
    Score(rankings, k, x) > Score(rankings, k, y) ||
    (Score(rankings, k, x) == Score(rankings, k, y) &&
     (BestRank(rankings, x) < BestRank(rankings, y) || (BestRank(rankings, x) == BestRank(rankings, y) && x < y)))
  }

  ghost predicate Fused(fused: seq<Doc>, rankings: seq<seq<Doc>>, k: nat)
    requires k > 0
  {
    NoRepeats(fused) && (forall d :: d in fused <==> d in Union(rankings)) &&
    forall i, j :: 0 <= i < j < |fused| ==> Precedes(rankings, k, fused[i], fused[j])
  }

  lemma {:induction false} RankFound(ranking: seq<Doc>, d: Doc)
    ensures RankIn(ranking, d) <= |ranking| && (RankIn(ranking, d) > 0 <==> d in ranking)
    ensures d in ranking ==> ranking[RankIn(ranking, d) - 1] == d
    decreases |ranking|
  {
    if ranking != [] {
      RankFound(ranking[1..], d);
      assert ranking == [ranking[0]] + ranking[1..];
    }
  }

  lemma SmallerRankLargerShare(k: nat, a: nat, b: nat)
    requires k > 0 && 0 < a < b
    ensures Share(k, a) > Share(k, b) > 0.0
  {
    var x, y := (k + a) as real, (k + b) as real;
    var u, v := 1.0 / x, 1.0 / y;
    assert u * x == 1.0 && v * y == 1.0;
    assert v * x < v * y;
    assert u <= v ==> u * x <= v * x;
  }

  /** `x` stands before `y` in every list that has `y`. */
  predicate Beats(rankings: seq<seq<Doc>>, x: Doc, y: Doc)
  {
    forall i :: 0 <= i < |rankings| && y in rankings[i] ==> 0 < RankIn(rankings[i], x) < RankIn(rankings[i], y)
  }

  lemma {:induction false} BeatingScores(rankings: seq<seq<Doc>>, k: nat, x: Doc, y: Doc)
    requires k > 0 && Beats(rankings, x, y)
    ensures Score(rankings, k, x) >= Score(rankings, k, y)
    ensures (exists i :: 0 <= i < |rankings| && y in rankings[i]) ==> Score(rankings, k, x) > Score(rankings, k, y)
    decreases |rankings|
  {
    if rankings != [] {
      var n := |rankings| - 1;
      assert forall i :: 0 <= i < n ==> rankings[..n][i] == rankings[i];
      BeatingScores(rankings[..n], k, x, y);
      RankFound(rankings[n], y);
      if y in rankings[n] {
        SmallerRankLargerShare(k, RankIn(rankings[n], x), RankIn(rankings[n], y));
      } else {
        assert Share(k, RankIn(rankings[n], x)) >= 0.0;
      }
    }
  }

  /** Whatever beats another document in every list that has it comes before it in the fusion. */
  lemma FusionRespectsDominance(rankings: seq<seq<Doc>>, k: nat, fused: seq<Doc>, i: nat, j: nat)
    requires k > 0 && Fused(fused, rankings, k) && i < |fused| && j < |fused| && Beats(rankings, fused[i], fused[j])
    ensures i < j
  {
    assert fused[j] in Union(rankings);
    var r, c :| 0 <= r < |rankings| && 0 <= c < |rankings[r]| && rankings[r][c] == fused[j];
    assert fused[j] in rankings[r];
    BeatingScores(rankings, k, fused[i], fused[j]);
  }

  // ----- ties ------------------------------------------------------------------------------------------------

  /** The ranks of a document, list by list. */
  function Ranks(rankings: seq<seq<Doc>>, d: Doc): seq<nat>
  {
    seq(|rankings|, i requires 0 <= i < |rankings| => RankIn(rankings[i], d))
  }

  function Shares(k: nat, ranks: seq<nat>): real
    requires k > 0
    decreases |ranks|
  {
    if ranks == [] then 0.0 else Shares(k, ranks[..|ranks| - 1]) + Share(k, ranks[|ranks| - 1])
  }

  function Without(ranks: seq<nat>, i: nat): seq<nat>
    requires i < |ranks|
  {
    ranks[..i] + ranks[i + 1..]
  }

  lemma WithoutOne(ranks: seq<nat>, i: nat)
    requires i < |ranks|
    ensures multiset(Without(ranks, i)) == multiset(ranks) - multiset{ranks[i]}
  {
    assert ranks == ranks[..i] + [ranks[i]] + ranks[i + 1..];
  }

  lemma {:induction false} SharesWithout(k: nat, ranks: seq<nat>, i: nat)
    requires k > 0 && i < |ranks|
    ensures Shares(k, ranks) == Shares(k, Without(ranks, i)) + Share(k, ranks[i])
    decreases |ranks|
  {
    var n := |ranks| - 1;
    if i == n {
      assert Without(ranks, i) == ranks[..n];
    } else {
      SharesWithout(k, ranks[..n], i);
      assert Without(ranks, i)[..n - 1] == Without(ranks[..n], i) && Without(ranks, i)[n - 1] == ranks[n];
    }
  }

  /** The order of the ranks does not matter to their shares. */
  lemma {:induction false} SharesOfPermuted(k: nat, a: seq<nat>, b: seq<nat>)
    requires k > 0 && multiset(a) == multiset(b)
    ensures Shares(k, a) == Shares(k, b)
    decreases |a|
  {
    assert |a| == |multiset(a)| == |multiset(b)| == |b|;
    if a != [] {
      assert a[0] in multiset(b);
      var i :| 0 <= i < |b| && b[i] == a[0];
      WithoutOne(a, 0);
      WithoutOne(b, i);
      SharesOfPermuted(k, Without(a, 0), Without(b, i));
      SharesWithout(k, a, 0);
      SharesWithout(k, b, i);
    }
  }

  lemma {:induction false} ScoreFromRanks(rankings: seq<seq<Doc>>, k: nat, d: Doc)
    requires k > 0
    ensures Score(rankings, k, d) == Shares(k, Ranks(rankings, d))
    decreases |rankings|
  {
    if rankings != [] {
      var n := |rankings| - 1;
      ScoreFromRanks(rankings[..n], k, d);
      assert Ranks(rankings, d)[..n] == Ranks(rankings[..n], d);
    }
  }

  /** The least of the ranks a document has, 0 if it has none. */
  predicate LeastRank(ranks: seq<nat>, best: nat)
  {
    if best == 0 then forall i :: 0 <= i < |ranks| ==> ranks[i] == 0
    else best in ranks && forall i :: 0 <= i < |ranks| ==> ranks[i] == 0 || best <= ranks[i]
  }

  lemma {:induction false} BestIsLeast(rankings: seq<seq<Doc>>, d: Doc)
    ensures LeastRank(Ranks(rankings, d), BestRank(rankings, d))
    decreases |rankings|
  {
    if rankings != [] {
      var n := |rankings| - 1;
      BestIsLeast(rankings[..n], d);
      assert Ranks(rankings, d) == Ranks(rankings[..n], d) + [RankIn(rankings[n], d)];
    }
  }

  /** Of two documents with the same ranks, in whichever lists, the smaller comes first. */
  lemma SameRanksByDocument(rankings: seq<seq<Doc>>, k: nat, fused: seq<Doc>, i: nat, j: nat)
    requires k > 0 && Fused(fused, rankings, k) && i < |fused| && j < |fused|
    requires multiset(Ranks(rankings, fused[i])) == multiset(Ranks(rankings, fused[j]))
    ensures i < j <==> fused[i] < fused[j]
  {
    var a, b := Ranks(rankings, fused[i]), Ranks(rankings, fused[j]);
    ScoreFromRanks(rankings, k, fused[i]);
    ScoreFromRanks(rankings, k, fused[j]);
    SharesOfPermuted(k, a, b);
    BestIsLeast(rankings, fused[i]);
    BestIsLeast(rankings, fused[j]);
    assert forall r :: r in a <==> r in multiset(a);
    assert forall r :: r in b <==> r in multiset(b);
    assert BestRank(rankings, fused[i]) == BestRank(rankings, fused[j]);
  }

  /** Of two documents with the same score the one that stands higher in some list than the other in any comes
      first. */
  lemma SameScoreByBestRank(rankings: seq<seq<Doc>>, k: nat, fused: seq<Doc>, i: nat, j: nat, r: nat)
    requires k > 0 && Fused(fused, rankings, k) && i < |fused| && j < |fused| && r < |rankings|
    requires Score(rankings, k, fused[i]) == Score(rankings, k, fused[j]) && fused[i] in rankings[r]
    requires forall s :: 0 <= s < |rankings| && fused[j] in rankings[s] ==> RankIn(rankings[r], fused[i]) < RankIn(rankings[s], fused[j])
    ensures i < j
  {
    var a, b := Ranks(rankings, fused[i]), Ranks(rankings, fused[j]);
    BestIsLeast(rankings, fused[i]);
    BestIsLeast(rankings, fused[j]);
    BestRankFound(rankings, fused[j]);
    RankFound(rankings[r], fused[i]);
    assert a[r] == RankIn(rankings[r], fused[i]) > 0;
    var s :| 0 <= s < |b| && b[s] == BestRank(rankings, fused[j]);
    RankFound(rankings[s], fused[j]);
    assert BestRank(rankings, fused[i]) < BestRank(rankings, fused[j]);
  }

  lemma {:induction false} RankGrows(ranking: seq<Doc>, c: nat, d: Doc)
    requires c < |ranking| && ranking[c] !in ranking[..c]
    ensures RankIn(ranking[..c + 1], d) == if d == ranking[c] then c + 1 else RankIn(ranking[..c], d)
    decreases c
  {
    if c > 0 {
      assert ranking[..c + 1][1..] == ranking[1..][..c] && ranking[..c][1..] == ranking[1..][..c - 1];
      assert ranking[1..][..c - 1] == ranking[..c][1..];
      RankGrows(ranking[1..], c - 1, d);
    } else {
      assert ranking[..1] == [ranking[0]] && ranking[..1][1..] == [] && ranking[..0] == [];
    }
  }

  function Better(a: nat, b: nat): nat
  {
    if a == 0 then b else if b == 0 then a else Least(a, b)
  }

  /** The running totals after some lists and the first part of the next. */
  ghost predicate Totals(scores: map<Doc, real>, best: map<Doc, nat>, rankings: seq<seq<Doc>>, part: seq<Doc>, k: nat,
                         d: Doc)
    requires k > 0
  {
    (d in scores <==> d in best) && (d in scores <==> BestRank(rankings, d) > 0 || d in part) &&
    (if d in scores then scores[d] else 0.0) == Score(rankings, k, d) + Share(k, RankIn(part, d)) &&
    (if d in best then best[d] else 0) == Better(BestRank(rankings, d), RankIn(part, d))
  }

  lemma TotalsStep(scores: map<Doc, real>, best: map<Doc, nat>, rankings: seq<seq<Doc>>, ranking: seq<Doc>, c: nat,
                   k: nat, d: Doc)
    requires k > 0 && c < |ranking| && ranking[c] !in ranking[..c] && Totals(scores, best, rankings, ranking[..c], k, d)
    ensures var item, position := ranking[c], c + 1;
            var scores' := scores[item := (if item in scores then scores[item] else 0.0) + 1.0 / (k + position) as real];
            var best' := best[item := if item in best then Least(best[item], position) else position];
            Totals(scores', best', rankings, ranking[..c + 1], k, d)
  {
    RankGrows(ranking, c, d);
    RankFound(ranking[..c], d);
    assert ranking[..c + 1] == ranking[..c] + [ranking[c]];
  }

  lemma {:induction false} BestRankFound(rankings: seq<seq<Doc>>, d: Doc)
    ensures BestRank(rankings, d) > 0 <==> d in Union(rankings)
    decreases |rankings|
  {
    if rankings != [] {
      var n := |rankings| - 1;
      BestRankFound(rankings[..n], d);
      RankFound(rankings[n], d);
      if d in Union(rankings[..n]) {
        var i, j :| 0 <= i < n && 0 <= j < |rankings[..n][i]| && rankings[..n][i][j] == d;
        assert rankings[i][j] == d;
      }
      if i, j :| 0 <= i < |rankings| && 0 <= j < |rankings[i]| && rankings[i][j] == d {
        if i < n { assert rankings[..n][i][j] == d; }
      }
    }
  }

  method AddRanking(scores: map<Doc, real>, best: map<Doc, nat>, ghost before: seq<seq<Doc>>, ranking: seq<Doc>, k: nat)
    returns (scores': map<Doc, real>, best': map<Doc, nat>)
    requires k > 0 && NoRepeats(ranking) && forall d :: Totals(scores, best, before, [], k, d)
    ensures forall d :: Totals(scores', best', before + [ranking], [], k, d)
  {
    scores', best' := scores, best;
    for c := 0 to |ranking|
      invariant forall d :: Totals(scores', best', before, ranking[..c], k, d)
    {
      var item, position := ranking[c], c + 1;
      ghost var scores0, best0, part := scores', best', ranking[..c + 1];
      scores' := scores'[item := (if item in scores' then scores'[item] else 0.0) + 1.0 / (k + position) as real];
      best' := best'[item := if item in best' then Least(best'[item], position) else position];
      forall d ensures Totals(scores', best', before, part, k, d) { TotalsStep(scores0, best0, before, ranking, c, k, d); }
    }
    assert ranking[..|ranking|] == ranking;
    ghost var now := before + [ranking];
    assert now[..|now| - 1] == before;
    forall d ensures Totals(scores', best', now, [], k, d) {
      assert Totals(scores', best', before, ranking, k, d);
      RankFound(ranking, d);
    }
  }

  lemma {:induction false} FirstExists(docs: set<Doc>, rankings: seq<seq<Doc>>, k: nat) returns (first: Doc)
    requires docs != {} && k > 0
    ensures first in docs && forall d :: d in docs && d != first ==> Precedes(rankings, k, first, d)
    decreases docs
  {
    first :| first in docs;
    if docs != {first} {
      var other := FirstExists(docs - {first}, rankings, k);
      assert forall d :: d in docs && d != first ==> d in docs - {first};
      if Precedes(rankings, k, other, first) { first := other; }
    }
  }

  /** `sorted` by the key. */
  method SortByKey(docs: set<Doc>, rankings: seq<seq<Doc>>, k: nat) returns (sorted: seq<Doc>)
    requires k > 0
    ensures NoRepeats(sorted) && (forall d :: d in sorted <==> d in docs)
    ensures forall i, j :: 0 <= i < j < |sorted| ==> Precedes(rankings, k, sorted[i], sorted[j])
  {
    sorted := [];
    var todo := docs;
    while todo != {}
      invariant NoRepeats(sorted) && todo <= docs && forall d :: d in sorted <==> d in docs - todo
      invariant forall i, j :: 0 <= i < j < |sorted| ==> Precedes(rankings, k, sorted[i], sorted[j])
      invariant forall i, d :: 0 <= i < |sorted| && d in todo ==> Precedes(rankings, k, sorted[i], d)
      decreases todo
    {
      ghost var least := FirstExists(todo, rankings, k);
      var first :| first in todo && forall d :: d in todo && d != first ==> Precedes(rankings, k, first, d);
      sorted := sorted + [first];
      todo := todo - {first};
    }
  }

  /** The fusion lists every document of the union exactly once, best score first. */
  method RrfFuse(rankings: seq<seq<Doc>>, k: nat) returns (fused: seq<Doc>)
    requires k > 0 && forall i :: 0 <= i < |rankings| ==> NoRepeats(rankings[i])
    ensures Fused(fused, rankings, k)
  {
    var scores: map<Doc, real>, best: map<Doc, nat> := map[], map[];
    for r := 0 to |rankings|
      invariant forall d :: Totals(scores, best, rankings[..r], [], k, d)
    {
      scores, best := AddRanking(scores, best, rankings[..r], rankings[r], k);
      assert rankings[..r + 1] == rankings[..r] + [rankings[r]];
    }
    assert rankings[..|rankings|] == rankings;
    forall d ensures d in scores <==> d in Union(rankings) {
      BestRankFound(rankings, d);
      assert Totals(scores, best, rankings, [], k, d);
    }
    fused := SortByKey(scores.Keys, rankings, k);
  }
}
