/** Elite selection shared by population based training and the genetic
    sampler: sort the completed rows by objective with pandas'
    `sort_values` and pick a row among the first third. */
module Ranking {
  import opened Common

  /** In the order of `sort_values(by='Objective', ascending=...)` a row
      with objective `a` may come before one with `b`; NaN goes last. */
  predicate SortsBefore(a: Option<real>, b: Option<real>, ascending: bool)
  {
    match a
    case None => b.None?
    case Some(x) => b.None? || (if ascending then x <= b.value else x >= b.value)
  }

  predicate SortedByObjective(rows: seq<Row>, ascending: bool)
  {
    forall i, j :: 0 <= i < j < |rows| ==> SortsBefore(rows[i].objective, rows[j].objective, ascending)
  }

  /** `order` is one outcome of sorting `rows`.  pandas' default sort is not
      stable, so rows with equal objectives may come in any order: the model
      takes the order as an input constrained by this predicate. */
  predicate SortedPermutation(order: seq<Row>, rows: seq<Row>, ascending: bool)
  {
    multiset(order) == multiset(rows) && SortedByObjective(order, ascending)
  }

  /** Objective `a` is strictly better than `b`; NaN is never better. */
  predicate Better(a: Option<real>, b: Option<real>, lowerIsBetter: bool)
  {
    a.Some? && (b.None? || (if lowerIsBetter then a.value < b.value else a.value > b.value))
  }

  /** How many rows are strictly better than objective `target`. */
  function CountBetter(rows: seq<Row>, target: Option<real>, lowerIsBetter: bool): (n: nat)
    ensures n <= |rows|
  {
    if |rows| == 0 then 0
    else (if Better(rows[0].objective, target, lowerIsBetter) then 1 else 0)
         + CountBetter(rows[1..], target, lowerIsBetter)
  }

  lemma {:induction false} CountBetterAppend(a: seq<Row>, b: seq<Row>, target: Option<real>, lowerIsBetter: bool)
    ensures CountBetter(a + b, target, lowerIsBetter)
            == CountBetter(a, target, lowerIsBetter) + CountBetter(b, target, lowerIsBetter)
  {
    if |a| > 0 {
      assert (a + b)[1..] == a[1..] + b;
      CountBetterAppend(a[1..], b, target, lowerIsBetter);
    } else {
      assert a + b == b;
    }
  }

  /** Taking out the row at position `k` takes it out of the multiset and
      removes its share of the count. */
  lemma RemoveAt(t: seq<Row>, k: nat, target: Option<real>, lowerIsBetter: bool)
    requires k < |t|
    ensures multiset(t[..k] + t[k + 1..]) == multiset(t) - multiset{t[k]}
    ensures CountBetter(t, target, lowerIsBetter)
            == CountBetter(t[..k] + t[k + 1..], target, lowerIsBetter)
               + CountBetter([t[k]], target, lowerIsBetter)
  {
    assert t == t[..k] + [t[k]] + t[k + 1..];
    assert multiset(t) == multiset(t[..k]) + multiset{t[k]} + multiset(t[k + 1..]);
    CountBetterAppend(t[..k] + [t[k]], t[k + 1..], target, lowerIsBetter);
    CountBetterAppend(t[..k], [t[k]], target, lowerIsBetter);
    CountBetterAppend(t[..k], t[k + 1..], target, lowerIsBetter);
  }

  /** The count depends only on the multiset of rows. */
  lemma {:induction false} CountBetterPermutation(s: seq<Row>, t: seq<Row>, target: Option<real>, lowerIsBetter: bool)
    requires multiset(s) == multiset(t)
    ensures CountBetter(s, target, lowerIsBetter) == CountBetter(t, target, lowerIsBetter)
    decreases |s|
  {
    if |s| == 0 {
      assert |t| == |multiset(t)| == 0;
    } else {
      var x := s[0];
      assert x in multiset(t);
      var k :| 0 <= k < |t| && t[k] == x;
      RemoveAt(t, k, target, lowerIsBetter);
      RemoveAt(s, 0, target, lowerIsBetter);
      assert s[..0] + s[1..] == s[1..];
      CountBetterPermutation(s[1..], t[..k] + t[k + 1..], target, lowerIsBetter);
    }
  }

  lemma {:induction false} NoneBetter(rows: seq<Row>, target: Option<real>, lowerIsBetter: bool)
    requires forall i :: 0 <= i < |rows| ==> !Better(rows[i].objective, target, lowerIsBetter)
    ensures CountBetter(rows, target, lowerIsBetter) == 0
  {
    if |rows| > 0 {
      NoneBetter(rows[1..], target, lowerIsBetter);
    }
  }

  /** In a sorted order, at most `idx` rows beat the row at position `idx`. */
  lemma TopRank(order: seq<Row>, idx: nat, lowerIsBetter: bool)
    requires SortedByObjective(order, lowerIsBetter) && idx < |order|
    ensures CountBetter(order, order[idx].objective, lowerIsBetter) <= idx
  {
    var target := order[idx].objective;
    assert order == order[..idx] + order[idx..];
    CountBetterAppend(order[..idx], order[idx..], target, lowerIsBetter);
    forall i | 0 <= i < |order[idx..]|
      ensures !Better(order[idx..][i].objective, target, lowerIsBetter)
    {
      if i > 0 {
        assert SortsBefore(order[idx].objective, order[idx + i].objective, lowerIsBetter);
      }
    }
    NoneBetter(order[idx..], target, lowerIsBetter);
  }

  /** The elite pick: the row at position `idx` of a sorted copy of
      `rows` is one of `rows`, and at most `idx` rows of `rows` beat it. */
  lemma EliteRank(order: seq<Row>, rows: seq<Row>, idx: nat, lowerIsBetter: bool)
    requires SortedPermutation(order, rows, lowerIsBetter) && idx < |order|
    ensures order[idx] in rows
    ensures CountBetter(rows, order[idx].objective, lowerIsBetter) <= idx
  {
    assert order[idx] in multiset(order);
    TopRank(order, idx, lowerIsBetter);
    CountBetterPermutation(order, rows, order[idx].objective, lowerIsBetter);
  }
}
