/** LocalSearch of sherpa/algorithms.py: explicit seed configurations, then
    random seeds, then hill climbing from the best row of the results by
    changing one parameter at a time until the configuration is new. */
module Local {
  import opened Common
  import opened Ranking
  import opened Sampling

  /* ---------------------------------------------------------------------
     The best row: `Series.argmin()` / `Series.argmax()` of the objectives
     --------------------------------------------------------------------- */

  /** The position of the first best non-NaN objective, None when every
      objective is NaN. */
  function ArgBest(rows: seq<Row>, lowerIsBetter: bool): (i: Option<nat>)
    ensures i.None? <==> forall j :: 0 <= j < |rows| ==> rows[j].objective.None?
    ensures i.Some? ==>
      && i.value < |rows| && rows[i.value].objective.Some?
      && (forall j :: 0 <= j < |rows| ==> !Better(rows[j].objective, rows[i.value].objective, lowerIsBetter))
      && (forall j :: 0 <= j < i.value ==> Better(rows[i.value].objective, rows[j].objective, lowerIsBetter))
    decreases |rows|
  {
    if |rows| == 0 then None
    else
      var n := |rows| - 1;
      var front := ArgBest(rows[..n], lowerIsBetter);
      if front.Some? && !Better(rows[n].objective, rows[front.value].objective, lowerIsBetter) then front
      else if front.None? && rows[n].objective.Some? then Some(n)
      else if front.None? then None
      else Some(n)
  }

  /** The `try` of lines 114-119: an empty column raises ValueError (caught
      by the caller); an all-NaN column yields the label NaN, which the
      `.loc` lookup that follows rejects with KeyError. */
  function BestIndex(rows: seq<Row>, lowerIsBetter: bool): (r: Result<nat>)
    ensures r == Err(ValueError) <==> |rows| == 0
    ensures r == Err(KeyError) <==> |rows| > 0 && forall j :: 0 <= j < |rows| ==> rows[j].objective.None?
    ensures r.Ok? ==> r.value < |rows| && rows[r.value].objective.Some?
                      && forall j :: 0 <= j < |rows| ==> !Better(rows[j].objective, rows[r.value].objective, lowerIsBetter)
  {
    if |rows| == 0 then Err(ValueError)
    else match ArgBest(rows, lowerIsBetter)
      case None => Err(KeyError)
      case Some(i) => Ok(i)
  }

  /* ---------------------------------------------------------------------
     The perturb-until-unseen loop of lines 129-133
     --------------------------------------------------------------------- */

  /** One retry of the loop: the parameter `numpy.random.choice` picked
      (by position) and the value its `sample()` returned. */
  datatype Move = Move(index: nat, draw: Value)

  predicate LegalMoves(ps: seq<Param>, moves: seq<Move>)
  {
    forall k :: 0 <= k < |moves| ==> moves[k].index < |ps| && Legal(ps[moves[k].index], moves[k].draw)
  }

  /** Row `row` holds configuration `c` in every parameter column. */
  predicate Matches(row: Row, ps: seq<Param>, c: Config)
  {
    forall p :: p in ps ==> p.name in row.params && p.name in c && row.params[p.name] == c[p.name]
  }

  /** Some row of the results already tried `c` (the `isin ... any()` test). */
  predicate Seen(results: seq<Row>, ps: seq<Param>, c: Config)
  {
    exists i :: 0 <= i < |results| && Matches(results[i], ps, c)
  }

  /** The best configuration with the parameter of `m` resampled. */
  function Perturbed(best: Config, ps: seq<Param>, m: Move): (c: Config)
    requires m.index < |ps|
    ensures c.Keys == best.Keys + {ps[m.index].name}
    ensures forall k :: k in best && k != ps[m.index].name ==> c[k] == best[k]
  {
    best[ps[m.index].name := m.draw]
  }

  /** The first retry whose configuration is unseen; DrawsExhausted when
      every supplied retry hits a tried configuration. */
  function FirstUnseen(ps: seq<Param>, results: seq<Row>, best: Config, moves: seq<Move>): (r: Result<Config>)
    requires LegalMoves(ps, moves)
    ensures r.Ok? ==> !Seen(results, ps, r.value)
    ensures r.Err? ==> r.error == DrawsExhausted
                       && forall k :: 0 <= k < |moves| ==> Seen(results, ps, Perturbed(best, ps, moves[k]))
    decreases |moves|
  {
    if |moves| == 0 then Err(DrawsExhausted)
    else
      var c := Perturbed(best, ps, moves[0]);
      if !Seen(results, ps, c) then Ok(c) else FirstUnseen(ps, results, best, moves[1..])
  }

  /** The outcome of the loop started from `best`: `best` itself if it is
      new, ValueError from `numpy.random.choice` on an empty parameter
      list, otherwise the first unseen retry. */
  function ClimbResult(ps: seq<Param>, results: seq<Row>, best: Config, moves: seq<Move>): (r: Result<Config>)
    requires LegalMoves(ps, moves)
    ensures r.Ok? ==> !Seen(results, ps, r.value)
    ensures !Seen(results, ps, best) ==> r == Ok(best)
    ensures r.Err? ==> Seen(results, ps, best)
  {
    if !Seen(results, ps, best) then Ok(best)
    else if |ps| == 0 then Err(ValueError)
    else FirstUnseen(ps, results, best, moves)
  }

  lemma {:induction false} FirstUnseenSkip(ps: seq<Param>, results: seq<Row>, best: Config, moves: seq<Move>, k: nat)
    requires LegalMoves(ps, moves) && k < |moves|
    requires Seen(results, ps, Perturbed(best, ps, moves[k]))
    ensures FirstUnseen(ps, results, best, moves[k..]) == FirstUnseen(ps, results, best, moves[k + 1..])
  {
    assert moves[k..][0] == moves[k];
    assert moves[k..][1..] == moves[k + 1..];
  }

  /** The loop itself; it changes nothing and returns what the loop would. */
  method Climb(ps: seq<Param>, results: seq<Row>, best: Config, moves: seq<Move>) returns (r: Result<Config>)
    requires LegalMoves(ps, moves)
    ensures r == ClimbResult(ps, results, best, moves)
  {
    var newParams := best;
    var k := 0;
    while Seen(results, ps, newParams)
      invariant 0 <= k <= |moves|
      invariant k == 0 ==> newParams == best
      invariant k > 0 ==> Seen(results, ps, best)
      invariant Seen(results, ps, newParams) && Seen(results, ps, best) && |ps| > 0 ==>
        ClimbResult(ps, results, best, moves) == FirstUnseen(ps, results, best, moves[k..])
      invariant !Seen(results, ps, newParams) ==>
        ClimbResult(ps, results, best, moves) == Ok(newParams)
      decreases |moves| - k
    {
      if |ps| == 0 {
        return Err(ValueError);
      }
      if k == |moves| {
        return Err(DrawsExhausted);
      }
      if k == 0 {
        assert moves[0..] == moves;
      }
      newParams := Perturbed(best, ps, moves[k]);
      if Seen(results, ps, newParams) {
        FirstUnseenSkip(ps, results, best, moves, k);
      } else {
        assert moves[k..][0] == moves[k];
      }
      k := k + 1;
    }
    r := Ok(newParams);
  }

  /** What the loop returns is a configuration no row has tried, that
      differs from `best` in at most the one resampled parameter and keeps
      every other parameter's value.  When `best` comes from a row of the
      results (as in the algorithm), the one parameter really changed. */
  lemma ClimbNew(ps: seq<Param>, results: seq<Row>, best: Config, moves: seq<Move>)
    requires LegalMoves(ps, moves)
    requires ClimbResult(ps, results, best, moves).Ok?
    ensures var c := ClimbResult(ps, results, best, moves).value;
            && !Seen(results, ps, c)
            && (c == best || exists k :: 0 <= k < |moves| && c == Perturbed(best, ps, moves[k]))
            && (Seen(results, ps, best) ==> c != best)
  {
    if Seen(results, ps, best) && |ps| > 0 {
      FirstUnseenIsMove(ps, results, best, moves);
    }
  }

  lemma {:induction false} FirstUnseenIsMove(ps: seq<Param>, results: seq<Row>, best: Config, moves: seq<Move>)
    requires LegalMoves(ps, moves)
    requires FirstUnseen(ps, results, best, moves).Ok?
    ensures var c := FirstUnseen(ps, results, best, moves).value;
            && !Seen(results, ps, c)
            && exists k :: 0 <= k < |moves| && c == Perturbed(best, ps, moves[k])
                           && forall j :: 0 <= j < k ==> Seen(results, ps, Perturbed(best, ps, moves[j]))
    decreases |moves|
  {
    var c := Perturbed(best, ps, moves[0]);
    if Seen(results, ps, c) {
      var tail := moves[1..];
      FirstUnseenIsMove(ps, results, best, tail);
      var k :| 0 <= k < |tail| && FirstUnseen(ps, results, best, tail).value == Perturbed(best, ps, tail[k])
               && forall j :: 0 <= j < k ==> Seen(results, ps, Perturbed(best, ps, tail[j]));
      assert moves[k + 1] == tail[k];
      forall j | 0 <= j < k + 1
        ensures Seen(results, ps, Perturbed(best, ps, moves[j]))
      {
        if j > 0 {
          assert moves[j] == tail[j - 1];
        }
      }
    }
  }

  /** The loop gives up (in the model) only when every supplied retry was a
      configuration some row already tried. */
  lemma {:induction false} FirstUnseenExhausted(ps: seq<Param>, results: seq<Row>, best: Config, moves: seq<Move>)
    requires LegalMoves(ps, moves)
    ensures FirstUnseen(ps, results, best, moves) == Err(DrawsExhausted)
            <==> forall k :: 0 <= k < |moves| ==> Seen(results, ps, Perturbed(best, ps, moves[k]))
    decreases |moves|
  {
    if |moves| > 0 {
      FirstUnseenExhausted(ps, results, best, moves[1..]);
      if Seen(results, ps, Perturbed(best, ps, moves[0])) {
        forall k | 0 < k < |moves|
          ensures moves[k] == moves[1..][k - 1]
        {
        }
      }
    }
  }

  /** The configuration of the best row is among the tried ones. */
  lemma BestIsSeen(ps: seq<Param>, results: seq<Row>, i: nat)
    requires i < |results| && NameSet(ps) <= results[i].params.Keys
    ensures Seen(results, ps, Project(results[i].params, ps))
  {
    assert Matches(results[i], ps, Project(results[i].params, ps));
  }

  /* ---------------------------------------------------------------------
     The algorithm
     --------------------------------------------------------------------- */

  class LocalSearch {
    const numRandomSeeds: nat
    const seedConfigurations: seq<Config>
    var count: nat
    const randomSampler: RandomSearch

    /** The random sampler has a budget of `num_random_seeds`, and its
        counter follows the phases: untouched while the seeds are replayed,
        one per call during the random phase, spent afterwards. */
    ghost predicate Valid()
      reads this, randomSampler
    {
      && randomSampler.maxNumTrials == Some(numRandomSeeds as int)
      && (count <= |seedConfigurations| ==> randomSampler.count == 0)
      && (|seedConfigurations| <= count <= |seedConfigurations| + numRandomSeeds ==>
            randomSampler.count == count - |seedConfigurations|)
      && (count >= |seedConfigurations| + numRandomSeeds && numRandomSeeds > 0 ==>
            randomSampler.count == numRandomSeeds)
    }

    constructor (numRandomSeeds: nat, seedConfigurations: seq<Config>)
      ensures Valid() && fresh(randomSampler)
      ensures this.numRandomSeeds == numRandomSeeds && this.seedConfigurations == seedConfigurations
      ensures count == 0
    {
      this.numRandomSeeds := numRandomSeeds;
      this.seedConfigurations := seedConfigurations;
      count := 0;
      randomSampler := new RandomSearch(Some(numRandomSeeds as int));
    }

    /** One call of `get_suggestion`.  `draws` are the samples a call of
        the random sampler would use, `moves` the retries of the loop. */
    method GetSuggestion(parameters: seq<Param>, results: seq<Row>, lowerIsBetter: bool,
                         draws: seq<Value>, moves: seq<Move>) returns (r: Result<Option<Config>>)
      requires Valid()
      requires LegalDraws(parameters, draws) && LegalMoves(parameters, moves)
      requires HasColumns(results, parameters)
      modifies this, randomSampler
      ensures Valid()
      ensures count == old(count) + 1
      // first the seed configurations, verbatim and in order
      ensures count <= |seedConfigurations| ==> r == Ok(Some(seedConfigurations[count - 1]))
      // then `num_random_seeds` random samples
      ensures |seedConfigurations| < count <= |seedConfigurations| + numRandomSeeds ==>
                r == Ok(Some(Bind(parameters, draws)))
      // then hill climbing from the best row
      ensures count > |seedConfigurations| + numRandomSeeds ==>
                r == match BestIndex(results, lowerIsBetter)
                     case Err(ValueError) =>
                       Ok(if numRandomSeeds == 0 then Some(Bind(parameters, draws)) else None)
                     case Err(e) => Err(e)
                     case Ok(i) =>
                       match ClimbResult(parameters, results, Project(results[i].params, parameters), moves)
                       case Ok(c) => Ok(Some(c))
                       case Err(e) => Err(e)
    {
      count := count + 1;
      if count <= |seedConfigurations| + numRandomSeeds {
        if |seedConfigurations| >= count {
          return Ok(Some(seedConfigurations[count - 1]));
        } else {
          var s := randomSampler.GetSuggestion(parameters, draws);
          return Ok(s);
        }
      }
      var bestIdx := BestIndex(results, lowerIsBetter);
      if bestIdx == Err(ValueError) {
        var s := randomSampler.GetSuggestion(parameters, draws);
        return Ok(s);
      }
      if bestIdx.Err? {
        return Err(bestIdx.error);
      }
      var bestParams := Project(results[bestIdx.value].params, parameters);
      var newParams := Climb(parameters, results, bestParams, moves);
      if newParams.Err? {
        return Err(newParams.error);
      }
      r := Ok(Some(newParams.value));
    }
  }

  /** In the climbing phase a suggestion is new and is the best row's
      configuration with exactly one parameter changed. */
  lemma ClimbingSuggestion(ps: seq<Param>, results: seq<Row>, lowerIsBetter: bool, moves: seq<Move>)
    requires LegalMoves(ps, moves) && HasColumns(results, ps)
    requires BestIndex(results, lowerIsBetter).Ok?
    requires var best := Project(results[BestIndex(results, lowerIsBetter).value].params, ps);
             ClimbResult(ps, results, best, moves).Ok?
    ensures var best := Project(results[BestIndex(results, lowerIsBetter).value].params, ps);
            var c := ClimbResult(ps, results, best, moves).value;
            && !Seen(results, ps, c)
            && c != best
            && exists k :: 0 <= k < |moves| && c == Perturbed(best, ps, moves[k])
  {
    var i := BestIndex(results, lowerIsBetter).value;
    var best := Project(results[i].params, ps);
    BestIsSeen(ps, results, i);
    ClimbNew(ps, results, best, moves);
  }
}
