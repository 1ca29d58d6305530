/** Shared helpers: optional values and sums of integer weights over finite sets. */
module Collections {

  datatype Option<+T> = None | Some(value: T)

  /** The total weight of a finite set of keys. */
  ghost function Sum<K(!new)>(keys: set<K>, weight: K -> int): int
  {
    if keys == {} then 0 else
      var k :| k in keys;
      weight(k) + Sum(keys - {k}, weight)
  }

  /** The order in which the keys are added up does not matter. */
  lemma {:induction false} SumRemove<K(!new)>(keys: set<K>, k: K, weight: K -> int)
    requires k in keys
    ensures Sum(keys, weight) == weight(k) + Sum(keys - {k}, weight)
    decreases keys
  {
    var j :| j in keys && Sum(keys, weight) == weight(j) + Sum(keys - {j}, weight);
    if j != k {
      SumRemove(keys - {j}, k, weight);
      SumRemove(keys - {k}, j, weight);
      assert keys - {j} - {k} == keys - {k} - {j};
    }
  }

  lemma SumAdd<K(!new)>(keys: set<K>, k: K, weight: K -> int)
    requires k !in keys
    ensures Sum(keys + {k}, weight) == weight(k) + Sum(keys, weight)
  {
    SumRemove(keys + {k}, k, weight);
    assert keys + {k} - {k} == keys;
  }

  lemma {:induction false} SumSame<K(!new)>(keys: set<K>, weight: K -> int, weight': K -> int)
    requires forall k :: k in keys ==> weight(k) == weight'(k)
    ensures Sum(keys, weight) == Sum(keys, weight')
    decreases keys
  {
    if keys != {} {
      var k :| k in keys;
      SumRemove(keys, k, weight);
      SumRemove(keys, k, weight');
      SumSame(keys - {k}, weight, weight');
    }
  }

  /** Changing the weight of one key moves the sum by exactly that difference. */
  lemma SumChange<K(!new)>(keys: set<K>, k: K, weight: K -> int, weight': K -> int)
    requires k in keys
    requires forall j :: j in keys && j != k ==> weight(j) == weight'(j)
    ensures Sum(keys, weight') == Sum(keys, weight) - weight(k) + weight'(k)
  {
    SumRemove(keys, k, weight);
    SumRemove(keys, k, weight');
    SumSame(keys - {k}, weight, weight');
  }

  lemma {:induction false} SumNonNegative<K(!new)>(keys: set<K>, weight: K -> int)
    requires forall k :: k in keys ==> weight(k) >= 0
    ensures Sum(keys, weight) >= 0
    decreases keys
  {
    if keys != {} {
      var k :| k in keys;
      SumRemove(keys, k, weight);
      SumNonNegative(keys - {k}, weight);
    }
  }

  lemma {:induction false} SumUnion<K(!new)>(a: set<K>, b: set<K>, weight: K -> int)
    requires a !! b
    ensures Sum(a + b, weight) == Sum(a, weight) + Sum(b, weight)
    decreases b
  {
    if b == {} {
      assert a + b == a;
    } else {
      var k :| k in b;
      SumRemove(b, k, weight);
      SumRemove(a + b, k, weight);
      assert a + b - {k} == a + (b - {k});
      SumUnion(a, b - {k}, weight);
    }
  }

  lemma {:induction false} SumOfZeros<K(!new)>(keys: set<K>, weight: K -> int)
    requires forall k :: k in keys ==> weight(k) == 0
    ensures Sum(keys, weight) == 0
    decreases keys
  {
    if keys != {} {
      var k :| k in keys;
      SumRemove(keys, k, weight);
      SumOfZeros(keys - {k}, weight);
    }
  }

  /** Keys without weight make no difference. */
  lemma SumSameSupport<K(!new)>(a: set<K>, b: set<K>, weight: K -> int, weight': K -> int)
    requires forall k :: k in a && k in b ==> weight(k) == weight'(k)
    requires forall k :: k in a && k !in b ==> weight(k) == 0
    requires forall k :: k in b && k !in a ==> weight'(k) == 0
    ensures Sum(a, weight) == Sum(b, weight')
  {
    var both, gone, come := a * b, a - b, b - a;
    assert a == both + gone && b == both + come;
    SumUnion(both, gone, weight);
    SumUnion(both, come, weight');
    SumOfZeros(gone, weight);
    SumOfZeros(come, weight');
    SumSame(both, weight, weight');
  }

  lemma {:induction false} SumMonotone<K(!new)>(keys: set<K>, weight: K -> int, weight': K -> int)
    requires forall k :: k in keys ==> weight(k) <= weight'(k)
    ensures Sum(keys, weight) <= Sum(keys, weight')
    decreases keys
  {
    if keys != {} {
      var k :| k in keys;
      SumRemove(keys, k, weight);
      SumRemove(keys, k, weight');
      SumMonotone(keys - {k}, weight, weight');
    }
  }

  lemma {:induction false} SubsetCardinality<K>(a: set<K>, b: set<K>)
    requires a <= b
    ensures |a| <= |b|
    ensures |a| == |b| ==> a == b
    decreases a
  {
    if a != {} {
      var k :| k in a;
      SubsetCardinality(a - {k}, b - {k});
    }
  }

  /** A non-empty set has an element that comes first. */
  lemma {:induction false} LeastExists<K>(keys: set<K>, measure: K -> int) returns (k: K)
    requires keys != {}
    ensures k in keys && forall j :: j in keys ==> measure(k) <= measure(j)
    decreases keys
  {
    k :| k in keys;
    if keys != {k} {
      var other := LeastExists(keys - {k}, measure);
      assert forall j :: j in keys && j != k ==> j in keys - {k};
      if measure(other) < measure(k) { k := other; }
    }
  }

  // ----- turns of a loop ----------------------------------------------------------------------------

  /** The loop can take that many turns from here. */
  ghost predicate CanTake<S(!new)>(turn: (S, S) -> bool, s: S, turns: nat)
    decreases turns
  {
    turns == 0 || exists s' :: turn(s, s') && CanTake(turn, s', turns - 1)
  }

  /** If every turn uses up fuel, there is fuel for every turn that can be taken. */
  lemma {:induction false} TurnsUseFuel<S(!new)>(turn: (S, S) -> bool, fine: S -> bool, fuel: S -> nat, s: S, turns: nat)
    requires forall a, b :: fine(a) && turn(a, b) ==> fine(b) && fuel(b) < fuel(a)
    requires fine(s) && CanTake(turn, s, turns)
    ensures turns <= fuel(s)
    decreases turns
  {
    if turns > 0 {
      var s' :| turn(s, s') && CanTake(turn, s', turns - 1);
      TurnsUseFuel(turn, fine, fuel, s', turns - 1);
    }
  }

  ghost predicate HasMore<S(!new)>(turn: (S, S) -> bool, stuck: S -> bool, s: S)
  {
    exists s' :: turn(s, s') && stuck(s')
  }

  /** If there is always one more turn, any number of turns can be taken. */
  lemma {:induction false} AlwaysOneMore<S(!new)>(turn: (S, S) -> bool, stuck: S -> bool, s: S, turns: nat)
    requires forall a {:trigger HasMore(turn, stuck, a)} :: stuck(a) ==> HasMore(turn, stuck, a)
    requires stuck(s)
    ensures CanTake(turn, s, turns)
    decreases turns
  {
    if turns > 0 {
      assert HasMore(turn, stuck, s);
      var s' :| turn(s, s') && stuck(s');
      AlwaysOneMore(turn, stuck, s', turns - 1);
    }
  }

  /** That many turns lead from one state to another. */
  ghost predicate CanReach<S(!new)>(turn: (S, S) -> bool, s: S, t: S, turns: nat)
    decreases turns
  {
    if turns == 0 then s == t else exists s' :: turn(s, s') && CanReach(turn, s', t, turns - 1)
  }

  /** Where so many turns lead, if each counts one and none brings fuel. */
  lemma {:induction false} ReachCounts<S(!new)>(turn: (S, S) -> bool, count: S -> nat, fuel: S -> nat, s: S, t: S, turns: nat)
    requires forall a, b :: turn(a, b) ==> count(b) == count(a) + 1 && fuel(b) <= fuel(a)
    requires CanReach(turn, s, t, turns)
    ensures count(t) == count(s) + turns && fuel(t) <= fuel(s)
    decreases turns
  {
    if turns > 0 {
      var s' :| turn(s, s') && CanReach(turn, s', t, turns - 1);
      ReachCounts(turn, count, fuel, s', t, turns - 1);
    }
  }

  /** Turns that can be taken one after the other lead somewhere from where the rest can be taken. */
  lemma {:induction false} TurnsSplit<S(!new)>(turn: (S, S) -> bool, s: S, first: nat, rest: nat) returns (t: S)
    requires CanTake(turn, s, first + rest)
    ensures CanReach(turn, s, t, first) && CanTake(turn, t, rest)
    decreases first
  {
    if first == 0 {
      t := s;
    } else {
      var s' :| turn(s, s') && CanTake(turn, s', first + rest - 1);
      t := TurnsSplit(turn, s', first - 1, rest);
    }
  }

  lemma {:induction false} TurnsJoin<S(!new)>(turn: (S, S) -> bool, s: S, t: S, first: nat, rest: nat)
    requires CanReach(turn, s, t, first) && CanTake(turn, t, rest)
    ensures CanTake(turn, s, first + rest)
    decreases first
  {
    if first > 0 {
      var s' :| turn(s, s') && CanReach(turn, s', t, first - 1);
      TurnsJoin(turn, s', t, first - 1, rest);
    }
  }

  lemma {:induction false} FewerTurns<S(!new)>(turn: (S, S) -> bool, s: S, turns: nat, fewer: nat)
    requires CanTake(turn, s, turns) && fewer <= turns
    ensures CanTake(turn, s, fewer)
    decreases turns
  {
    if fewer > 0 {
      var s' :| turn(s, s') && CanTake(turn, s', turns - 1);
      FewerTurns(turn, s', turns - 1, fewer - 1);
    }
  }

  lemma ReachThenTake<S(!new)>(turn: (S, S) -> bool, s: S, t: S, first: nat, turns: nat)
    requires CanReach(turn, s, t, first) && CanTake(turn, t, turns)
    ensures CanTake(turn, s, turns)
  {
    TurnsJoin(turn, s, t, first, turns);
    FewerTurns(turn, s, first + turns, turns);
  }

  /** If nothing that so many turns lead to can take that many more, then nor can the start take all of them. */
  lemma EndsAfter<S(!new)>(turn: (S, S) -> bool, s: S, first: nat, rest: nat)
    requires forall t :: CanReach(turn, s, t, first) ==> !CanTake(turn, t, rest)
    ensures !CanTake(turn, s, first + rest)
  {
    if CanTake(turn, s, first + rest) {
      var t := TurnsSplit(turn, s, first, rest);
    }
  }

  // ----- small numbers --------------------------------------------------------------------------------

  function Least(a: nat, b: nat): nat
  {
    if a < b then a else b
  }
}
