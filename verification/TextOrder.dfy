/** The order of texts by code point, character by character. */
module TextOrder {
  predicate Before(a: string, b: string)
    decreases |a|
  {
    |b| > 0 && (|a| == 0 || a[0] < b[0] || (a[0] == b[0] && Before(a[1..], b[1..])))
  }

  lemma {:induction false} BeforeTotal(a: string, b: string)
    ensures Before(a, b) || Before(b, a) || a == b
    ensures !(Before(a, b) && Before(b, a)) && (a == b ==> !Before(a, b))
    decreases |a|
  {
    if |a| > 0 && |b| > 0 && a[0] == b[0] {
      BeforeTotal(a[1..], b[1..]);
      assert a == [a[0]] + a[1..] && b == [b[0]] + b[1..];
    }
  }

  lemma {:induction false} BeforeTransitive(a: string, b: string, c: string)
    requires Before(a, b) && Before(b, c)
    ensures Before(a, c)
    decreases |a|
  {
    if |a| > 0 && a[0] == b[0] && b[0] == c[0] { BeforeTransitive(a[1..], b[1..], c[1..]); }
  }

  lemma {:induction false} LeastTextExists(texts: set<string>) returns (least: string)
    requires texts != {}
    ensures least in texts && forall t :: t in texts && t != least ==> Before(least, t)
    decreases texts
  {
    least :| least in texts;
    if texts != {least} {
      var other := LeastTextExists(texts - {least});
      BeforeTotal(least, other);
      forall t | t in texts && t != other && Before(other, least) ensures Before(other, t) {}
      forall t | t in texts && t != least && Before(least, other) ensures Before(least, t) {
        if t != other { BeforeTransitive(least, other, t); }
      }
      if Before(other, least) { least := other; }
    }
  }

  predicate AscendingTexts(texts: seq<string>)
  {
    forall i, j :: 0 <= i < j < |texts| ==> Before(texts[i], texts[j])
  }

  /** `sorted` of a set of texts. */
  method SortTexts(texts: set<string>) returns (sorted: seq<string>)
    ensures AscendingTexts(sorted) && forall t :: t in sorted <==> t in texts
  {
    sorted := [];
    var left := texts;
    while left != {}
      invariant left <= texts && AscendingTexts(sorted) && forall t :: t in sorted <==> t in texts - left
      invariant forall i, t :: 0 <= i < |sorted| && t in left ==> Before(sorted[i], t)
      decreases left
    {
      var next :| next in left && forall t :: t in left && t != next ==> Before(next, t) by { var _ := LeastTextExists(left); }
      sorted := sorted + [next];
      left := left - {next};
    }
  }
}
