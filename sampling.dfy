/** The primitive samplers of sherpa/algorithms.py: RandomSearch (a sample
    per parameter under an optional trial budget) and GridSearch (the
    Cartesian product of the Choice ranges, one point per call). */
module Sampling {
  import opened Common

  /* ---------------------------------------------------------------------
     RandomSearch
     --------------------------------------------------------------------- */

  /** The counter after one call of a budgeted sampler: it grows by one
      exactly when the call returns a suggestion. */
  function BudgetStep(maxNumTrials: Option<int>, count: nat): (next: nat)
    ensures count <= next <= count + 1
    ensures maxNumTrials.Some? && maxNumTrials.value > 0 && count <= maxNumTrials.value ==> next <= maxNumTrials.value
    ensures maxNumTrials.None? ==> next == count + 1
  {
    if Exhausted(maxNumTrials, count) then count else count + 1
  }

  /** Whether each of `k` successive calls, starting from counter `count`,
      returns a suggestion (true) or None (false). */
  function Outcomes(maxNumTrials: Option<int>, count: nat, k: nat): (s: seq<bool>)
    ensures |s| == k
    decreases k
  {
    if k == 0 then []
    else [!Exhausted(maxNumTrials, count)] + Outcomes(maxNumTrials, BudgetStep(maxNumTrials, count), k - 1)
  }

  /** The counter after `k` successive calls. */
  function CountAfter(maxNumTrials: Option<int>, count: nat, k: nat): nat
    decreases k
  {
    if k == 0 then count else CountAfter(maxNumTrials, BudgetStep(maxNumTrials, count), k - 1)
  }

  function Min(a: int, b: int): int { if a <= b then a else b }

  /** With a budget of `n > 0` trials, calls return suggestions until the
      counter reaches `n`, then None forever, and the counter stops at `n`. */
  lemma {:induction false} BudgetedRun(n: nat, count: nat, k: nat)
    requires n > 0 && count <= n
    ensures forall i :: 0 <= i < k ==> (Outcomes(Some(n), count, k)[i] <==> count + i < n)
    ensures CountAfter(Some(n), count, k) == Min(count + k, n)
    decreases k
  {
    if k > 0 {
      var next := BudgetStep(Some(n), count);
      BudgetedRun(n, next, k - 1);
      var rest := Outcomes(Some(n), next, k - 1);
      assert Outcomes(Some(n), count, k) == [count < n] + rest;
      forall i | 0 < i < k
        ensures Outcomes(Some(n), count, k)[i] <==> count + i < n
      {
        assert Outcomes(Some(n), count, k)[i] == rest[i - 1];
      }
    }
  }

  /** Without a budget (None or 0) every call returns a suggestion. */
  lemma {:induction false} UnlimitedRun(maxNumTrials: Option<int>, count: nat, k: nat)
    requires maxNumTrials.None? || maxNumTrials == Some(0)
    ensures forall i :: 0 <= i < k ==> Outcomes(maxNumTrials, count, k)[i]
    ensures CountAfter(maxNumTrials, count, k) == count + k
    decreases k
  {
    if k > 0 {
      UnlimitedRun(maxNumTrials, count + 1, k - 1);
      var rest := Outcomes(maxNumTrials, count + 1, k - 1);
      assert Outcomes(maxNumTrials, count, k) == [true] + rest;
    }
  }

  class RandomSearch {
    const maxNumTrials: Option<int>
    var count: nat

    constructor (maxNumTrials: Option<int>)
      ensures this.maxNumTrials == maxNumTrials && count == 0
    {
      this.maxNumTrials := maxNumTrials;
      count := 0;
    }

    /** One draw per parameter, `draws[i]` being what `parameters[i].sample()`
        returned, unless the budget is spent. */
    method GetSuggestion(parameters: seq<Param>, draws: seq<Value>) returns (r: Option<Config>)
      requires LegalDraws(parameters, draws)
      modifies this
      ensures count == BudgetStep(maxNumTrials, old(count))
      ensures r == if Exhausted(maxNumTrials, old(count)) then None else Some(Bind(parameters, draws))
    {
      if Exhausted(maxNumTrials, count) {
        r := None;
      } else {
        count := count + 1;
        r := Some(Bind(parameters, draws));
      }
    }
  }

  /* ---------------------------------------------------------------------
     GridSearch
     --------------------------------------------------------------------- */

  /** `c` is a point of the grid: one value of each parameter's range. */
  predicate InGrid(ps: seq<Param>, c: Config)
  {
    c.Keys == NameSet(ps) && forall p :: p in ps ==> c[p.name] in p.range
  }

  predicate AllChoice(ps: seq<Param>)
  {
    forall p :: p in ps ==> p.kind == Choice
  }

  /** Number of grid points: the product of the range sizes. */
  function GridSize(ps: seq<Param>): nat
  {
    if |ps| == 0 then 1 else |ps[0].range| * GridSize(ps[1..])
  }

  /** Every configuration of `rest` with `name` set to `v`. */
  function Extend(rest: seq<Config>, name: string, v: Value): (r: seq<Config>)
    ensures |r| == |rest|
    ensures forall i :: 0 <= i < |rest| ==> r[i] == rest[i][name := v]
  {
    seq(|rest|, i requires 0 <= i < |rest| => rest[i][name := v])
  }

  /** Each value of `values`, in order, combined with every configuration
      of `rest`: the first parameter varies slowest. */
  function Expand(name: string, values: seq<Value>, rest: seq<Config>): (g: seq<Config>)
    ensures |g| == |values| * |rest|
  {
    if |values| == 0 then []
    else Extend(rest, name, values[0]) + Expand(name, values[1..], rest)
  }

  /** The points of `sklearn.model_selection.ParameterGrid` for the
      parameters in the order given. */
  function Product(ps: seq<Param>): (g: seq<Config>)
    ensures |g| == GridSize(ps)
  {
    if |ps| == 0 then [map[]] else Expand(ps[0].name, ps[0].range, Product(ps[1..]))
  }

  lemma {:induction false} ExpandMembers(name: string, values: seq<Value>, rest: seq<Config>, c: Config)
    requires forall j :: 0 <= j < |rest| ==> name !in rest[j]
    ensures c in Expand(name, values, rest)
            <==> name in c && c[name] in values && c - {name} in rest
  {
    if |values| > 0 {
      ExpandMembers(name, values[1..], rest, c);
      if c in Extend(rest, name, values[0]) {
        var j :| 0 <= j < |rest| && c == rest[j][name := values[0]];
        assert c - {name} == rest[j];
      }
      if name in c && c[name] == values[0] && c - {name} in rest {
        var j :| 0 <= j < |rest| && c - {name} == rest[j];
        assert c == rest[j][name := values[0]];
      }
    }
  }

  lemma {:induction false} ProductKeys(ps: seq<Param>)
    ensures forall c :: c in Product(ps) ==> c.Keys == NameSet(ps)
  {
    if |ps| > 0 {
      ProductKeys(ps[1..]);
      var rest := Product(ps[1..]);
      assert NameSet(ps) == {ps[0].name} + NameSet(ps[1..]) by {
        assert ps == [ps[0]] + ps[1..];
      }
      forall c | c in Product(ps) ensures c.Keys == NameSet(ps) {
        ExpandKeysWeak(ps[0].name, ps[0].range, rest, NameSet(ps[1..]), c);
      }
    }
  }

  lemma {:induction false} ExpandKeysWeak(name: string, values: seq<Value>, rest: seq<Config>, keys: set<string>, c: Config)
    requires forall j :: 0 <= j < |rest| ==> rest[j].Keys == keys
    requires c in Expand(name, values, rest)
    ensures c.Keys == keys + {name}
  {
    if c !in Extend(rest, name, values[0]) {
      ExpandKeysWeak(name, values[1..], rest, keys, c);
    }
  }

  /** The first parameter's name is not reused by the others. */
  lemma HeadNameFresh(ps: seq<Param>)
    requires DistinctNames(ps) && |ps| > 0
    ensures ps[0].name !in NameSet(ps[1..])
    ensures DistinctNames(ps[1..])
  {
    forall q | q in ps[1..] ensures q.name != ps[0].name {
      var j :| 0 <= j < |ps| - 1 && ps[1..][j] == q;
      assert ps[j + 1] == q;
    }
  }

  /** The grid holds exactly the points of the Cartesian product. */
  lemma {:induction false} ProductMembers(ps: seq<Param>, c: Config)
    requires DistinctNames(ps)
    ensures c in Product(ps) <==> InGrid(ps, c)
  {
    if |ps| == 0 {
      assert NameSet(ps) == {};
    } else {
      var p := ps[0];
      var tail := ps[1..];
      HeadNameFresh(ps);
      ProductKeys(tail);
      ExpandMembers(p.name, p.range, Product(tail), c);
      ProductMembers(tail, c - {p.name});
      if InGrid(ps, c) {
        InGridTail(ps, c);
      }
      if c in Product(ps) {
        InGridCons(ps, c);
      }
    }
  }

  lemma InGridTail(ps: seq<Param>, c: Config)
    requires DistinctNames(ps) && |ps| > 0 && InGrid(ps, c)
    ensures InGrid(ps[1..], c - {ps[0].name})
  {
    HeadNameFresh(ps);
    assert ps == [ps[0]] + ps[1..];
    assert NameSet(ps) == {ps[0].name} + NameSet(ps[1..]);
    forall q | q in ps[1..] ensures (c - {ps[0].name})[q.name] in q.range {
      assert q.name != ps[0].name;
    }
  }

  lemma InGridCons(ps: seq<Param>, c: Config)
    requires DistinctNames(ps) && |ps| > 0
    requires ps[0].name in c && c[ps[0].name] in ps[0].range
    requires InGrid(ps[1..], c - {ps[0].name})
    ensures InGrid(ps, c)
  {
    HeadNameFresh(ps);
    assert ps == [ps[0]] + ps[1..];
    assert NameSet(ps) == {ps[0].name} + NameSet(ps[1..]);
    assert c.Keys == (c - {ps[0].name}).Keys + {ps[0].name};
    forall q | q in ps ensures c[q.name] in q.range {
      if q != ps[0] {
        assert q in ps[1..];
        assert q.name != ps[0].name;
      }
    }
  }

  /** With distinct values in each range, no grid point occurs twice. */
  lemma {:induction false} ProductDistinct(ps: seq<Param>)
    requires DistinctNames(ps)
    requires forall p :: p in ps ==> Distinct(p.range)
    ensures Distinct(Product(ps))
  {
    if |ps| > 0 {
      HeadNameFresh(ps);
      ProductKeys(ps[1..]);
      ProductDistinct(ps[1..]);
      ExpandDistinct(ps[0].name, ps[0].range, Product(ps[1..]));
    }
  }

  lemma {:induction false} ExpandDistinct(name: string, values: seq<Value>, rest: seq<Config>)
    requires forall j :: 0 <= j < |rest| ==> name !in rest[j]
    requires Distinct(values) && Distinct(rest)
    ensures Distinct(Expand(name, values, rest))
  {
    if |values| > 0 {
      var head := Extend(rest, name, values[0]);
      var more := Expand(name, values[1..], rest);
      ExpandDistinct(name, values[1..], rest);
      forall i, j | 0 <= i < j < |head| ensures head[i] != head[j] {
        assert head[i] - {name} == rest[i];
        assert head[j] - {name} == rest[j];
      }
      forall i, j | 0 <= i < |head| && 0 <= j < |more| ensures head[i] != more[j] {
        ExpandMembers(name, values[1..], rest, more[j]);
        assert more[j][name] in values[1..];
        assert head[i][name] == values[0];
      }
      DistinctAppend(head, more);
    }
  }

  lemma DistinctAppend<T>(a: seq<T>, b: seq<T>)
    requires Distinct(a) && Distinct(b)
    requires forall i, j :: 0 <= i < |a| && 0 <= j < |b| ==> a[i] != b[j]
    ensures Distinct(a + b)
  {
    forall i, j | 0 <= i < j < |a + b| ensures (a + b)[i] != (a + b)[j] {
      if j < |a| {
      } else if i >= |a| {
        assert (a + b)[i] == b[i - |a|] && (a + b)[j] == b[j - |a|];
      } else {
        assert (a + b)[j] == b[j - |a|];
      }
    }
  }

  /** ParameterGrid sorts the parameter names; whatever the order, the
      grid has the same points as the declared parameters' product. */
  lemma GridOfKeyOrder(parameters: seq<Param>, keyOrder: seq<Param>, c: Config)
    requires multiset(keyOrder) == multiset(parameters) && DistinctNames(keyOrder)
    ensures c in Product(keyOrder) <==> InGrid(parameters, c)
  {
    ProductMembers(keyOrder, c);
    assert forall p :: p in keyOrder <==> p in parameters by {
      forall p ensures p in keyOrder <==> p in parameters {
        assert p in keyOrder <==> p in multiset(keyOrder);
        assert p in parameters <==> p in multiset(parameters);
      }
    }
    assert NameSet(keyOrder) == NameSet(parameters);
  }

  class GridSearch {
    var count: nat
    var grid: Option<seq<Config>>

    /** The grid exists from the first call on, and the counter never
        passes its end. */
    ghost predicate Valid()
      reads this
    {
      (count > 0 ==> grid.Some?) && (grid.Some? ==> count <= |grid.value|)
    }

    constructor ()
      ensures Valid() && count == 0 && grid == None
    {
      count := 0;
      grid := None;
    }

    /** `keyOrder` is the parameters in the order ParameterGrid visits them
        (sorted by name); it is used on the call that builds the grid.
        A non-Choice parameter fails the assertion of the source. */
    method GetSuggestion(parameters: seq<Param>, keyOrder: seq<Param>) returns (r: Result<Option<Config>>)
      requires Valid()
      requires multiset(keyOrder) == multiset(parameters) && DistinctNames(keyOrder)
      modifies this
      ensures Valid()
      ensures !AllChoice(parameters) ==> r == Err(AssertionError) && count == old(count) && grid == old(grid)
      ensures AllChoice(parameters) ==>
        && grid == (if old(count) == 0 then Some(Product(keyOrder)) else old(grid))
        && r == Ok(if old(count) < |grid.value| then Some(grid.value[old(count)]) else None)
        && count == (if old(count) < |grid.value| then old(count) + 1 else old(count))
    {
      if !AllChoice(parameters) {
        return Err(AssertionError);
      }
      if count == 0 {
        grid := Some(Product(keyOrder));
      }
      if count == |grid.value| {
        r := Ok(None);
      } else {
        r := Ok(Some(grid.value[count]));
        count := count + 1;
      }
    }
  }
}
