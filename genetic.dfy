/** The Genetic algorithm of sherpa/algorithms.py: each suggestion mixes
    two parents drawn from the best third of the finished trials, value by
    value, with an occasional fresh sample (a mutation). */
module Evolution {
  import opened Common
  import opened Ranking
  import opened Sampling

  /** `min_candidates`: below this many finished trials a parent is a fresh
      random sample. */
  const MinCandidates: nat := 10

  /* ---------------------------------------------------------------------
     Parent selection
     --------------------------------------------------------------------- */

  /** `_get_candidate`.  `draws` are the samples the random fallback takes,
      one per parameter; `order` is the finished trials as pandas sorts
      them by objective; `idx` is the `randint` draw among the top third. */
  function Candidate(ps: seq<Param>, results: seq<Row>, lowerIsBetter: bool, draws: seq<Value>,
                     order: seq<Row>, idx: int): (r: Result<Config>)
    requires |draws| == |ps|
    requires SortedPermutation(order, CompletedRows(results), lowerIsBetter)
    requires |CompletedRows(results)| >= MinCandidates ==> 0 <= idx < |CompletedRows(results)| / 3
    ensures r.Ok? ==> r.value.Keys == NameSet(ps)
    ensures r.Err? ==> r.error == KeyError
  {
    var population := CompletedRows(results);
    if |population| < MinCandidates then Ok(Bind(ps, draws))
    else
      assert |order| == |multiset(order)| == |multiset(population)| == |population|;
      if NameSet(ps) <= order[idx].params.Keys then Ok(Project(order[idx].params, ps))
      else Err(KeyError)
  }

  /** With fewer than ten finished trials a parent is a legal random sample
      of every parameter, and selection cannot fail. */
  lemma CandidateRandom(ps: seq<Param>, results: seq<Row>, lowerIsBetter: bool, draws: seq<Value>,
                        order: seq<Row>, idx: int)
    requires DistinctNames(ps) && LegalDraws(ps, draws)
    requires SortedPermutation(order, CompletedRows(results), lowerIsBetter)
    requires |CompletedRows(results)| < MinCandidates
    ensures var r := Candidate(ps, results, lowerIsBetter, draws, order, idx);
            r.Ok? && LegalConfig(ps, r.value)
  {
    BindLegal(ps, draws);
  }

  /** With ten or more finished trials a parent is a finished trial fewer
      than a third of which are better, its parameter columns copied; it
      fails with KeyError exactly when that trial lacks a parameter column. */
  lemma CandidateIsElite(ps: seq<Param>, results: seq<Row>, lowerIsBetter: bool, draws: seq<Value>,
                         order: seq<Row>, idx: int)
    requires |draws| == |ps|
    requires SortedPermutation(order, CompletedRows(results), lowerIsBetter)
    requires |CompletedRows(results)| >= MinCandidates
    requires 0 <= idx < |CompletedRows(results)| / 3
    ensures var population := CompletedRows(results);
            var r := Candidate(ps, results, lowerIsBetter, draws, order, idx);
            exists row :: row in results && row.status != Intermediate
              && CountBetter(population, row.objective, lowerIsBetter) < |population| / 3
              && (r.Ok? <==> NameSet(ps) <= row.params.Keys)
              && (r.Ok? ==> r.value == Project(row.params, ps))
  {
    var population := CompletedRows(results);
    assert |order| == |multiset(order)| == |multiset(population)| == |population|;
    EliteRank(order, population, idx, lowerIsBetter);
    var row := order[idx];
    var r := Candidate(ps, results, lowerIsBetter, draws, order, idx);
    assert row in results && row.status != Intermediate
      && CountBetter(population, row.objective, lowerIsBetter) < |population| / 3
      && (r.Ok? <==> NameSet(ps) <= row.params.Keys)
      && (r.Ok? ==> r.value == Project(row.params, ps));
  }

  /* ---------------------------------------------------------------------
     Crossover
     --------------------------------------------------------------------- */

  /** Where one value of the child comes from. */
  datatype Origin = Mutation | FirstParent | SecondParent

  /** The three-way split of `numpy.random.random()` by the mutation rate. */
  function OriginOf(u: real, rate: real): (o: Origin)
    ensures o == Mutation <==> u < rate
    ensures o == FirstParent <==> rate <= u < rate + (1.0 - rate) / 2.0
    ensures o == SecondParent <==> rate <= u && rate + (1.0 - rate) / 2.0 <= u
  {
    if u < rate then Mutation
    else if rate <= u && u < rate + (1.0 - rate) / 2.0 then FirstParent
    else SecondParent
  }

  /** The arguments of the crossover: every key is a key of both parents,
      and each key has its origin draw and one sample per parameter. */
  predicate CrossArgs(keys: seq<string>, ps: seq<Param>, p1: Config, p2: Config,
                      origins: seq<real>, mutants: seq<seq<Value>>)
  {
    && |origins| == |keys| && |mutants| == |keys|
    && (forall i :: 0 <= i < |keys| ==> keys[i] in p1 && keys[i] in p2)
    && (forall i :: 0 <= i < |mutants| ==> |mutants[i]| == |ps|)
  }

  /** The child after the first `n` keys of the loop in `get_suggestion`.
      A mutated key takes the sample of the last parameter of its name and
      is left out when no parameter has that name. */
  function Cross(keys: seq<string>, ps: seq<Param>, p1: Config, p2: Config, rate: real,
                 origins: seq<real>, mutants: seq<seq<Value>>, n: nat): (c: Config)
    requires CrossArgs(keys, ps, p1, p2, origins, mutants) && n <= |keys|
    ensures forall k :: k in c ==> k in keys[..n]
  {
    if n == 0 then map[]
    else
      var c := Cross(keys, ps, p1, p2, rate, origins, mutants, n - 1);
      var k := keys[n - 1];
      assert keys[..n] == keys[..n - 1] + [k];
      match OriginOf(origins[n - 1], rate)
      case Mutation =>
        if k in NameSet(ps) then c[k := Bind(ps, mutants[n - 1])[k]] else c
      case FirstParent => c[k := p1[k]]
      case SecondParent => c[k := p2[k]]
  }

  /** The dictionary comprehension keeps the draw of some parameter of the
      given name. */
  lemma {:induction false} BindFrom(ps: seq<Param>, draws: seq<Value>, name: string)
    requires |draws| == |ps| && name in NameSet(ps)
    ensures exists j :: 0 <= j < |ps| && ps[j].name == name && Bind(ps, draws)[name] == draws[j]
    decreases |ps|
  {
    var n := |ps| - 1;
    if ps[n].name != name {
      assert ps == ps[..n] + [ps[n]];
      assert NameSet(ps) == NameSet(ps[..n]) + {ps[n].name};
      BindFrom(ps[..n], draws[..n], name);
      var j :| 0 <= j < n && ps[..n][j].name == name && Bind(ps[..n], draws[..n])[name] == draws[..n][j];
      assert ps[j].name == name && Bind(ps, draws)[name] == draws[j];
    }
  }

  /** The value of `k` in `c` comes from where the draw `o` says: the
      first parent, the second parent, or one of the samples `draws` of a
      parameter of that name; a mutated key without such a parameter is
      absent. */
  predicate FromOrigin(c: Config, k: string, o: Origin, ps: seq<Param>, p1: Config, p2: Config,
                       draws: seq<Value>)
    requires k in p1 && k in p2
  {
    match o
    case FirstParent => k in c && c[k] == p1[k]
    case SecondParent => k in c && c[k] == p2[k]
    case Mutation =>
      && (k in c <==> k in NameSet(ps))
      && (k in c ==> exists j :: 0 <= j < |ps| && j < |draws| && ps[j].name == k && c[k] == draws[j])
  }

  /** Handling a later key leaves an earlier key's entry as it was. */
  lemma CrossKeeps(keys: seq<string>, ps: seq<Param>, p1: Config, p2: Config, rate: real,
                   origins: seq<real>, mutants: seq<seq<Value>>, n: nat, k: string)
    requires CrossArgs(keys, ps, p1, p2, origins, mutants) && 0 < n <= |keys| && k != keys[n - 1]
    ensures var before := Cross(keys, ps, p1, p2, rate, origins, mutants, n - 1);
            var after := Cross(keys, ps, p1, p2, rate, origins, mutants, n);
            (k in after <==> k in before) && (k in before ==> after[k] == before[k])
  {
  }

  /** Every value of the child comes from where its draw says; a key is
      kept unless it is mutated without a matching parameter. */
  lemma {:induction false} CrossOrigin(keys: seq<string>, ps: seq<Param>, p1: Config, p2: Config, rate: real,
                                       origins: seq<real>, mutants: seq<seq<Value>>, n: nat, i: nat)
    requires CrossArgs(keys, ps, p1, p2, origins, mutants) && Distinct(keys) && i < n <= |keys|
    ensures FromOrigin(Cross(keys, ps, p1, p2, rate, origins, mutants, n), keys[i],
                       OriginOf(origins[i], rate), ps, p1, p2, mutants[i])
    decreases n
  {
    var k := keys[i];
    var o := OriginOf(origins[i], rate);
    var after := Cross(keys, ps, p1, p2, rate, origins, mutants, n);
    if i < n - 1 {
      var before := Cross(keys, ps, p1, p2, rate, origins, mutants, n - 1);
      CrossOrigin(keys, ps, p1, p2, rate, origins, mutants, n - 1, i);
      assert keys[n - 1] != k;
      CrossKeeps(keys, ps, p1, p2, rate, origins, mutants, n, k);
      assert FromOrigin(before, k, o, ps, p1, p2, mutants[i]);
      if o == Mutation && k in after {
        var j :| 0 <= j < |ps| && j < |mutants[i]| && ps[j].name == k && before[k] == mutants[i][j];
        assert after[k] == mutants[i][j];
      }
    } else if o == Mutation {
      if k in NameSet(ps) {
        BindFrom(ps, mutants[i], k);
      } else {
        assert forall m :: 0 <= m < n - 1 ==> keys[m] != k;
        assert k !in keys[..n - 1];
      }
    }
  }

  /** Two legal parents and legal mutation samples give a legal child that
      names every parameter. */
  lemma ChildLegal(keys: seq<string>, ps: seq<Param>, p1: Config, p2: Config, rate: real,
                   origins: seq<real>, mutants: seq<seq<Value>>)
    requires CrossArgs(keys, ps, p1, p2, origins, mutants) && Distinct(keys)
    requires forall k :: k in keys <==> k in NameSet(ps)
    requires DistinctNames(ps) && LegalConfig(ps, p1) && LegalConfig(ps, p2)
    requires forall i :: 0 <= i < |mutants| ==> LegalDraws(ps, mutants[i])
    ensures var c := Cross(keys, ps, p1, p2, rate, origins, mutants, |keys|);
            c.Keys == NameSet(ps) && LegalConfig(ps, c)
  {
    var c := Cross(keys, ps, p1, p2, rate, origins, mutants, |keys|);
    forall p | p in ps ensures p.name in c && Legal(p, c[p.name]) {
      assert p.name in NameSet(ps);
      var i :| 0 <= i < |keys| && keys[i] == p.name;
      CrossOrigin(keys, ps, p1, p2, rate, origins, mutants, |keys|, i);
      if OriginOf(origins[i], rate) == Mutation {
        var j :| 0 <= j < |ps| && j < |mutants[i]| && ps[j].name == p.name && c[p.name] == mutants[i][j];
        var m :| 0 <= m < |ps| && ps[m] == p;
        assert ps[j] == p;
      }
    }
    forall k | k in c ensures k in NameSet(ps) {
      assert k in keys[..|keys|];
    }
  }

  /* ---------------------------------------------------------------------
     The algorithm object
     --------------------------------------------------------------------- */

  class Genetic {
    const mutationRate: real
    const maxNumTrials: Option<int>
    var count: nat

    constructor (mutationRate: real, maxNumTrials: Option<int>)
      ensures this.mutationRate == mutationRate && this.maxNumTrials == maxNumTrials && count == 0
    {
      this.mutationRate := mutationRate;
      this.maxNumTrials := maxNumTrials;
      count := 0;
    }

    /** The loop of the random fallback of `_get_candidate`: one sample per
        parameter, a later parameter of a repeated name overwriting. */
    method SampleAll(ps: seq<Param>, draws: seq<Value>) returns (c: Config)
      requires |draws| == |ps|
      ensures c == Bind(ps, draws)
    {
      c := map[];
      for i := 0 to |ps|
        invariant c == Bind(ps[..i], draws[..i])
      {
        PrefixStep(ps, i);
        PrefixStep(draws, i);
        assert ps[..i + 1][..i] == ps[..i] && draws[..i + 1][..i] == draws[..i];
        c := c[ps[i].name := draws[i]];
      }
      assert ps[..|ps|] == ps && draws[..|ps|] == draws;
    }

    /** `_get_candidate`. */
    method GetCandidate(ps: seq<Param>, results: seq<Row>, lowerIsBetter: bool, draws: seq<Value>,
                        order: seq<Row>, idx: int) returns (r: Result<Config>)
      requires |draws| == |ps|
      requires SortedPermutation(order, CompletedRows(results), lowerIsBetter)
      requires |CompletedRows(results)| >= MinCandidates ==> 0 <= idx < |CompletedRows(results)| / 3
      ensures r == Candidate(ps, results, lowerIsBetter, draws, order, idx)
    {
      var population := CompletedRows(results);
      if |population| < MinCandidates {
        var c := SampleAll(ps, draws);
        return Ok(c);
      }
      assert |order| == |multiset(order)| == |multiset(population)| == |population|;
      var row := order[idx];
      if !(NameSet(ps) <= row.params.Keys) {
        return Err(KeyError);
      }
      r := Ok(Project(row.params, ps));
    }

    /** The inner loop of a mutation: every parameter of the key's name is
        sampled, and the last sample stays. */
    method Mutate(ps: seq<Param>, name: string, draws: seq<Value>) returns (v: Option<Value>)
      requires |draws| == |ps|
      ensures v.Some? <==> name in NameSet(ps)
      ensures v.Some? ==> v.value == Bind(ps, draws)[name]
    {
      v := None;
      for j := 0 to |ps|
        invariant v.Some? <==> name in NameSet(ps[..j])
        invariant v.Some? ==> v.value == Bind(ps[..j], draws[..j])[name]
      {
        PrefixStep(ps, j);
        PrefixStep(draws, j);
        assert ps[..j + 1][..j] == ps[..j] && draws[..j + 1][..j] == draws[..j];
        assert NameSet(ps[..j + 1]) == NameSet(ps[..j]) + {ps[j].name};
        if ps[j].name == name {
          v := Some(draws[j]);
        }
      }
      assert ps[..|ps|] == ps && draws[..|ps|] == draws;
    }

    /** The crossover loop of `get_suggestion`, over the keys of the first
        parent in `keys` order. */
    method Crossover(keys: seq<string>, ps: seq<Param>, p1: Config, p2: Config,
                     origins: seq<real>, mutants: seq<seq<Value>>) returns (child: Config)
      requires CrossArgs(keys, ps, p1, p2, origins, mutants)
      ensures child == Cross(keys, ps, p1, p2, mutationRate, origins, mutants, |keys|)
    {
      child := map[];
      for i := 0 to |keys|
        invariant child == Cross(keys, ps, p1, p2, mutationRate, origins, mutants, i)
      {
        var k := keys[i];
        var u := origins[i];
        if u < mutationRate {
          var v := Mutate(ps, k, mutants[i]);
          if v.Some? {
            child := child[k := v.value];
          }
        } else if mutationRate <= u && u < mutationRate + (1.0 - mutationRate) / 2.0 {
          child := child[k := p1[k]];
        } else {
          child := child[k := p2[k]];
        }
      }
    }

    /** `get_suggestion`.  `draws1` and `draws2` are the samples of the two
        random fallbacks, `idx1` and `idx2` the two `randint` draws, `keys`
        the order of the first parent's keys, `origins[i]` and `mutants[i]`
        the draws the loop takes for `keys[i]`. */
    method GetSuggestion(ps: seq<Param>, results: seq<Row>, lowerIsBetter: bool,
                         draws1: seq<Value>, draws2: seq<Value>, order: seq<Row>, idx1: int, idx2: int,
                         keys: seq<string>, origins: seq<real>, mutants: seq<seq<Value>>)
      returns (r: Result<Option<Config>>)
      requires |draws1| == |ps| && |draws2| == |ps|
      requires SortedPermutation(order, CompletedRows(results), lowerIsBetter)
      requires |CompletedRows(results)| >= MinCandidates ==>
                 0 <= idx1 < |CompletedRows(results)| / 3 && 0 <= idx2 < |CompletedRows(results)| / 3
      requires Distinct(keys) && forall k :: k in keys <==> k in NameSet(ps)
      requires |origins| == |keys| && |mutants| == |keys|
      requires forall i :: 0 <= i < |mutants| ==> |mutants[i]| == |ps|
      modifies this
      ensures Exhausted(maxNumTrials, old(count)) ==> r == Ok(None)
      ensures r.Err? ==> count == old(count)
      ensures r.Ok? ==> count == BudgetStep(maxNumTrials, old(count))
      ensures !Exhausted(maxNumTrials, old(count)) ==>
                var c1 := Candidate(ps, results, lowerIsBetter, draws1, order, idx1);
                var c2 := Candidate(ps, results, lowerIsBetter, draws2, order, idx2);
                if c1.Err? then r == Err(c1.error)
                else if c2.Err? then r == Err(c2.error)
                else
                  CrossArgs(keys, ps, c1.value, c2.value, origins, mutants)
                  && r == Ok(Some(Cross(keys, ps, c1.value, c2.value, mutationRate, origins, mutants, |keys|)))
    {
      if Exhausted(maxNumTrials, count) {
        return Ok(None);
      }
      var t1 := GetCandidate(ps, results, lowerIsBetter, draws1, order, idx1);
      if t1.Err? {
        return Err(t1.error);
      }
      var t2 := GetCandidate(ps, results, lowerIsBetter, draws2, order, idx2);
      if t2.Err? {
        return Err(t2.error);
      }
      var child := Crossover(keys, ps, t1.value, t2.value, origins, mutants);
      count := count + 1;
      r := Ok(Some(child));
    }
  }
}
