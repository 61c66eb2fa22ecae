/** The bookkeeping of BayesianOptimization in sherpa/algorithms.py: the
    trial counter and its budget, the seed configurations (Choice grid
    extended by random draws, padded with random draws), the fallback to
    random sampling, the completed-row filter and the design matrix. */
module Bayesian {
  import opened Common
  import opened Sampling
  import opened Design

  /* ---------------------------------------------------------------------
     Filling the design matrix
     --------------------------------------------------------------------- */

  /** The entries of column `c` for the rows, top to bottom. */
  function ColumnValues(c: Column, rows: seq<Config>, log10: real -> real): (v: seq<real>)
    requires forall i :: 0 <= i < |rows| ==> Source(c) in rows[i] && Cell(c, rows[i], log10).Ok?
    ensures |v| == |rows|
    ensures forall i :: 0 <= i < |rows| ==> Cell(c, rows[i], log10) == Ok(v[i])
  {
    seq(|rows|, i requires 0 <= i < |rows| => Cell(c, rows[i], log10).value)
  }

  /** `x[:, col] = values`. */
  method FillColumn(x: array2<real>, col: nat, values: seq<real>)
    requires col < x.Length1 && |values| == x.Length0
    modifies x
    ensures forall i, j :: 0 <= i < x.Length0 && 0 <= j < x.Length1 ==>
              x[i, j] == if j == col then values[i] else old(x[i, j])
  {
    for i := 0 to x.Length0
      invariant forall r, j :: 0 <= r < x.Length0 && 0 <= j < x.Length1 ==>
                  x[r, j] == if j == col && r < i then values[r] else old(x[r, j])
    {
      x[i, col] := values[i];
    }
  }

  /** The first `n` columns of `x` hold the cells of the first `n` columns
      of `cols`. */
  ghost predicate Filled(x: array2<real>, cols: seq<Column>, rows: seq<Config>, n: nat, log10: real -> real)
    reads x
  {
    && n <= |cols| && x.Length0 == |rows| && n <= x.Length1
    && forall i, j :: 0 <= i < |rows| && 0 <= j < n ==>
         Source(cols[j]) in rows[i] && Cell(cols[j], rows[i], log10) == Ok(x[i, j])
  }

  /** The columns `pc` sit in `cols` from column `col` on. */
  ghost predicate Placed(cols: seq<Column>, col: nat, pc: seq<Column>)
  {
    col + |pc| <= |cols| && forall j :: col <= j < col + |pc| ==> cols[j] == pc[j - col]
  }

  /** Fills column `col` with the cells of `cols[col]`. */
  method FillNext(x: array2<real>, ghost cols: seq<Column>, rows: seq<Config>, c: Column, col: nat, log10: real -> real)
    requires Filled(x, cols, rows, col, log10) && col < |cols| && col < x.Length1 && cols[col] == c
    requires forall i :: 0 <= i < |rows| ==> Source(c) in rows[i] && Cell(c, rows[i], log10).Ok?
    modifies x
    ensures Filled(x, cols, rows, col + 1, log10)
  {
    FillColumn(x, col, ColumnValues(c, rows, log10));
  }

  /** `x[:, :width]`, as a new array. */
  method LeadingColumns(x: array2<real>, width: nat) returns (y: array2<real>)
    requires width <= x.Length1
    ensures fresh(y) && y.Length0 == x.Length0 && y.Length1 == width
    ensures forall i, j :: 0 <= i < x.Length0 && 0 <= j < width ==> y[i, j] == x[i, j]
  {
    y := new real[x.Length0, width];
    for i := 0 to x.Length0
      invariant forall r, j :: 0 <= r < i && 0 <= j < width ==> y[r, j] == x[r, j]
    {
      for j := 0 to width
        invariant forall r, c :: 0 <= r < i && 0 <= c < width ==> y[r, c] == x[r, c]
        invariant forall c :: 0 <= c < j ==> y[i, c] == x[i, c]
      {
        y[i, j] := x[i, j];
      }
    }
  }

  /** `x` is the design matrix of `rows`: one row per input row, one
      column per entry of `Columns(ps)`, each entry the column's cell. */
  ghost predicate Encodes(x: array2<real>, ps: seq<Param>, rows: seq<Config>, log10: real -> real)
    reads x
    requires RowsCover(Columns(ps), rows)
  {
    && x.Length0 == |rows| && x.Length1 == |Columns(ps)|
    && forall i, j :: 0 <= i < |rows| && 0 <= j < |Columns(ps)| ==>
         Cell(Columns(ps)[j], rows[i], log10) == Ok(x[i, j])
  }

  /** The parameter columns of the rows of the results table. */
  function ParamRows(rows: seq<Row>, ps: seq<Param>): (r: seq<Config>)
    requires HasColumns(rows, ps)
    ensures |r| == |rows|
    ensures forall i :: 0 <= i < |rows| ==> r[i] == Project(rows[i].params, ps)
  {
    seq(|rows|, i requires 0 <= i < |rows| => Project(rows[i].params, ps))
  }

  /** `numpy.array(completed.loc[:, 'Objective'])`. */
  function Objectives(rows: seq<Row>): (y: seq<Option<real>>)
    ensures |y| == |rows|
    ensures forall i :: 0 <= i < |rows| ==> y[i] == rows[i].objective
  {
    seq(|rows|, i requires 0 <= i < |rows| => rows[i].objective)
  }

  lemma CompletedHasColumns(rows: seq<Row>, ps: seq<Param>)
    requires HasColumns(rows, ps)
    ensures HasColumns(CompletedRows(rows), ps)
  {
    var c := CompletedRows(rows);
    forall i | 0 <= i < |c| ensures NameSet(ps) <= c[i].params.Keys {
      assert c[i] in c;
      var k :| 0 <= k < |rows| && rows[k] == c[i];
    }
  }

  lemma ParamRowsCover(rows: seq<Row>, ps: seq<Param>)
    requires HasColumns(rows, ps)
    ensures RowsCover(Columns(ps), ParamRows(rows, ps))
  {
    ColumnSources(ps);
  }

  /** The error raised while filling the columns of `ps[k]`, given that the
      columns before them filled without error. */
  lemma FirstErrorAt(ps: seq<Param>, k: nat, rows: seq<Config>)
    requires k < |ps| && RowsCover(Columns(ps), rows)
    ensures RowsCover(Columns(ps[..k]), rows) && RowsCover(ParamColumns(ps[k]), rows)
    ensures RowsCover(Columns(ps[..k + 1]), rows)
    ensures FirstError(Columns(ps[..k]), rows).None? ==>
              FirstError(Columns(ps[..k + 1]), rows) == FirstError(ParamColumns(ps[k]), rows)
    ensures FirstError(Columns(ps[..k + 1]), rows).Some? ==>
              FirstError(Columns(ps), rows) == FirstError(Columns(ps[..k + 1]), rows)
  {
    ColumnsPrefix(ps, k);
    ColumnsMonotone(ps, k + 1);
    var front := Columns(ps[..k + 1]);
    assert Columns(ps) == front + Columns(ps)[|front|..];
    FirstErrorAppend(front, Columns(ps)[|front|..], rows);
    FirstErrorAppend(Columns(ps[..k]), ParamColumns(ps[k]), rows);
  }

  /** Where the columns of `ps[k]` sit among all the columns, and what
      the metadata gains from them. */
  lemma ParamBlock(ps: seq<Param>, k: nat, rows: seq<Config>)
    requires k < |ps| && RowsCover(Columns(ps), rows)
    ensures |Columns(ps[..k + 1])| == |Columns(ps[..k])| + |ParamColumns(ps[k])|
    ensures Placed(Columns(ps), |Columns(ps[..k])|, ParamColumns(ps[k]))
    ensures RowsCover(ParamColumns(ps[k]), rows)
    ensures XBounds(ps[..k + 1]) == XBounds(ps[..k]) + ParamBounds(ps[k])
  {
    ParamOffsets(ps, k);
    PlacedCovered(Columns(ps), |Columns(ps[..k])|, ParamColumns(ps[k]), rows);
    XBoundsPrefix(ps, k);
  }

  /** Rows that hold the source of every column hold those of a block. */
  lemma PlacedCovered(cols: seq<Column>, col: nat, pc: seq<Column>, rows: seq<Config>)
    requires Placed(cols, col, pc) && RowsCover(cols, rows)
    ensures RowsCover(pc, rows)
  {
    forall r, i | 0 <= r < |rows| && 0 <= i < |pc| ensures Source(pc[i]) in rows[r] {
      assert cols[col + i] == pc[col + i - col];
    }
  }

  /** The columns of `ps[k]` sit at offset `|Columns(ps[..k])|`. */
  lemma ParamOffsets(ps: seq<Param>, k: nat)
    requires k < |ps|
    ensures |Columns(ps[..k + 1])| == |Columns(ps[..k])| + |ParamColumns(ps[k])|
    ensures Placed(Columns(ps), |Columns(ps[..k])|, ParamColumns(ps[k]))
  {
    ColumnsLengths(ps, k);
    forall j | |Columns(ps[..k])| <= j < |Columns(ps[..k])| + |ParamColumns(ps[k])|
      ensures Columns(ps)[j] == ParamColumns(ps[k])[j - |Columns(ps[..k])|]
    {
      ParamColumnAt(ps, k, j);
    }
  }

  lemma ColumnsLengths(ps: seq<Param>, k: nat)
    requires k < |ps|
    ensures |Columns(ps[..k + 1])| == |Columns(ps[..k])| + |ParamColumns(ps[k])| <= |Columns(ps)|
  {
    ColumnsPrefix(ps, k);
    ColumnsMonotone(ps, k + 1);
  }

  lemma ParamColumnAt(ps: seq<Param>, k: nat, j: nat)
    requires k < |ps|
    requires |Columns(ps[..k])| <= j < |Columns(ps[..k])| + |ParamColumns(ps[k])|
    ensures j < |Columns(ps)| && Columns(ps)[j] == ParamColumns(ps[k])[j - |Columns(ps[..k])|]
  {
    ColumnsPrefix(ps, k);
    ColumnsKeep(ps, k + 1, j);
  }

  /* ---------------------------------------------------------------------
     Seeds
     --------------------------------------------------------------------- */

  /** The parameters that are (`choice`) or are not (`!choice`) Choice
      parameters, in declaration order. */
  function Split(ps: seq<Param>, choice: bool): (r: seq<Param>)
    ensures forall p :: p in r <==> p in ps && (p.kind == Choice) == choice
  {
    if |ps| == 0 then []
    else (if (ps[0].kind == Choice) == choice then [ps[0]] else []) + Split(ps[1..], choice)
  }

  /** `[p for p in parameters if isinstance(p, Choice)]`. */
  function ChoiceParams(ps: seq<Param>): (r: seq<Param>)
    ensures forall p :: p in r <==> p in ps && p.kind == Choice
  {
    Split(ps, true)
  }

  /** `[p for p in parameters if not isinstance(p, Choice)]`. */
  function OtherParams(ps: seq<Param>): (r: seq<Param>)
    ensures forall p :: p in r <==> p in ps && p.kind != Choice
  {
    Split(ps, false)
  }

  lemma {:induction false} SplitDistinct(ps: seq<Param>, choice: bool)
    requires DistinctNames(ps)
    ensures DistinctNames(Split(ps, choice))
    decreases |ps|
  {
    if |ps| > 0 {
      var t := Split(ps[1..], choice);
      SplitDistinct(ps[1..], choice);
      if (ps[0].kind == Choice) == choice {
        forall j | 0 <= j < |t| ensures ps[0].name != t[j].name {
          assert t[j] in ps[1..];
          var m :| 0 <= m < |ps[1..]| && ps[1..][m] == t[j];
          assert ps[m + 1] == t[j];
        }
        var r := [ps[0]] + t;
        forall i, j | 0 <= i < j < |r| ensures r[i].name != r[j].name {
          assert r[j] == t[j - 1];
          if i > 0 {
            assert r[i] == t[i - 1];
          }
        }
      } else {
        assert Split(ps, choice) == t;
      }
    }
  }

  lemma {:induction false} SplitNone(ps: seq<Param>, choice: bool)
    requires forall p :: p in ps ==> (p.kind == Choice) != choice
    ensures Split(ps, choice) == []
    decreases |ps|
  {
    if |ps| > 0 {
      assert forall p :: p in ps[1..] ==> p in ps;
      SplitNone(ps[1..], choice);
    }
  }

  /** With unique names, no Choice parameter shares its name with another
      parameter, so the two halves of a seed never overwrite each other. */
  lemma SplitNames(ps: seq<Param>)
    requires DistinctNames(ps)
    ensures DistinctNames(ChoiceParams(ps)) && DistinctNames(OtherParams(ps))
    ensures NameSet(ChoiceParams(ps)) !! NameSet(OtherParams(ps))
  {
    SplitDistinct(ps, true);
    SplitDistinct(ps, false);
    forall p, q | p in ChoiceParams(ps) && q in OtherParams(ps) ensures p.name != q.name {
      var i :| 0 <= i < |ps| && ps[i] == p;
      var j :| 0 <= j < |ps| && ps[j] == q;
    }
  }

  /** The random draws the seeding consumes: one draw of the non-Choice
      parameters per grid point, one draw of all parameters per padding
      seed. */
  predicate SeedDraws(ps: seq<Param>, keyOrder: seq<Param>, gridDraws: seq<seq<Value>>,
                      padDraws: seq<seq<Value>>, numRandomSeeds: int)
  {
    && |gridDraws| >= |Product(keyOrder)|
    && (forall i :: 0 <= i < |gridDraws| ==> LegalDraws(OtherParams(ps), gridDraws[i]))
    && |padDraws| >= numRandomSeeds
    && (forall j :: 0 <= j < |padDraws| ==> LegalDraws(ps, padDraws[j]))
  }

  /** One seed per point of the Choice grid, in grid order, extended with
      the non-Choice draws.  With no Choice parameter the grid is the
      single empty point, which is falsy: no grid seeds at all. */
  function GridSeeds(ps: seq<Param>, keyOrder: seq<Param>, gridDraws: seq<seq<Value>>): (s: seq<Config>)
    requires |gridDraws| >= |Product(keyOrder)|
    requires forall i :: 0 <= i < |gridDraws| ==> LegalDraws(OtherParams(ps), gridDraws[i])
    ensures |s| == if |keyOrder| == 0 then 0 else |Product(keyOrder)|
  {
    if |keyOrder| == 0 then []
    else
      var grid := Product(keyOrder);
      seq(|grid|, i requires 0 <= i < |grid| && LegalDraws(OtherParams(ps), gridDraws[i]) => grid[i] + Bind(OtherParams(ps), gridDraws[i]))
  }

  lemma GridSeedsIndex(ps: seq<Param>, keyOrder: seq<Param>, gridDraws: seq<seq<Value>>, i: nat)
    requires |gridDraws| >= |Product(keyOrder)|
    requires forall i :: 0 <= i < |gridDraws| ==> LegalDraws(OtherParams(ps), gridDraws[i])
    requires |keyOrder| > 0 && i < |Product(keyOrder)|
    ensures GridSeeds(ps, keyOrder, gridDraws)[i] == Product(keyOrder)[i] + Bind(OtherParams(ps), gridDraws[i])
  {
  }

  /** The padding: random configurations until there are `numRandomSeeds`. */
  function PadSeeds(ps: seq<Param>, padDraws: seq<seq<Value>>, n: int): (s: seq<Config>)
    requires n <= |padDraws|
    requires forall j :: 0 <= j < |padDraws| ==> LegalDraws(ps, padDraws[j])
    ensures |s| == if n <= 0 then 0 else n
    ensures forall j :: 0 <= j < |s| ==> LegalDraws(ps, padDraws[j]) && s[j] == Bind(ps, padDraws[j])
  {
    if n <= 0 then []
    else seq(n, j requires 0 <= j < n && LegalDraws(ps, padDraws[j]) => Bind(ps, padDraws[j]))
  }

  /** `seed_configurations` after `_generate_seeds`. */
  function Seeds(ps: seq<Param>, keyOrder: seq<Param>, gridDraws: seq<seq<Value>>,
                 padDraws: seq<seq<Value>>, numRandomSeeds: int): (s: seq<Config>)
    requires SeedDraws(ps, keyOrder, gridDraws, padDraws, numRandomSeeds)
    ensures |s| == |GridSeeds(ps, keyOrder, gridDraws)|
                   + (if numRandomSeeds > |GridSeeds(ps, keyOrder, gridDraws)|
                      then numRandomSeeds - |GridSeeds(ps, keyOrder, gridDraws)| else 0)
  {
    var g := GridSeeds(ps, keyOrder, gridDraws);
    g + PadSeeds(ps, padDraws, numRandomSeeds - |g|)
  }

  /** The grid seeds come first. */
  lemma SeedAt(ps: seq<Param>, keyOrder: seq<Param>, gridDraws: seq<seq<Value>>,
               padDraws: seq<seq<Value>>, numRandomSeeds: int, i: nat)
    requires SeedDraws(ps, keyOrder, gridDraws, padDraws, numRandomSeeds)
    requires i < |GridSeeds(ps, keyOrder, gridDraws)|
    ensures Seeds(ps, keyOrder, gridDraws, padDraws, numRandomSeeds)[i] == GridSeeds(ps, keyOrder, gridDraws)[i]
  {
  }

  /** Grid seed `i`: the `i`-th grid point of the Choice parameters,
      unchanged, with a legal draw of every other parameter. */
  lemma GridSeedAt(ps: seq<Param>, keyOrder: seq<Param>, gridDraws: seq<seq<Value>>, i: nat)
    requires DistinctNames(ps) && multiset(keyOrder) == multiset(ChoiceParams(ps)) && DistinctNames(keyOrder)
    requires |gridDraws| >= |Product(keyOrder)|
    requires forall i :: 0 <= i < |gridDraws| ==> LegalDraws(OtherParams(ps), gridDraws[i])
    requires |keyOrder| > 0 && i < |Product(keyOrder)|
    ensures |GridSeeds(ps, keyOrder, gridDraws)| == |Product(keyOrder)|
    ensures var s := GridSeeds(ps, keyOrder, gridDraws)[i];
            && LegalConfig(ps, s)
            && forall k :: k in Product(keyOrder)[i] ==> k in s && s[k] == Product(keyOrder)[i][k]
  {
    var c := Product(keyOrder)[i];
    var o := OtherParams(ps);
    var b := Bind(o, gridDraws[i]);
    var s := GridSeeds(ps, keyOrder, gridDraws)[i];
    assert s == c + b;
    ProductKeys(keyOrder);
    assert c in Product(keyOrder);
    GridOfKeyOrder(ChoiceParams(ps), keyOrder, c);
    SplitNames(ps);
    BindLegal(o, gridDraws[i]);
    assert NameSet(keyOrder) == NameSet(ChoiceParams(ps)) by {
      assert forall p :: p in keyOrder <==> p in multiset(keyOrder);
    }
    forall p | p in ps ensures p.name in s && Legal(p, s[p.name]) {
      if p.kind == Choice {
        assert p in ChoiceParams(ps);
        assert p.name !in b;
      } else {
        assert p in o;
      }
    }
  }

  /** Every seed is a legal configuration of the parameters. */
  lemma SeedsLegal(ps: seq<Param>, keyOrder: seq<Param>, gridDraws: seq<seq<Value>>,
                   padDraws: seq<seq<Value>>, numRandomSeeds: int)
    requires DistinctNames(ps) && multiset(keyOrder) == multiset(ChoiceParams(ps)) && DistinctNames(keyOrder)
    requires SeedDraws(ps, keyOrder, gridDraws, padDraws, numRandomSeeds)
    ensures forall s :: s in Seeds(ps, keyOrder, gridDraws, padDraws, numRandomSeeds) ==> LegalConfig(ps, s)
  {
    var seeds := Seeds(ps, keyOrder, gridDraws, padDraws, numRandomSeeds);
    forall i | 0 <= i < |seeds| ensures LegalConfig(ps, seeds[i]) {
      SeedLegalAt(ps, keyOrder, gridDraws, padDraws, numRandomSeeds, i);
    }
  }

  lemma SeedLegalAt(ps: seq<Param>, keyOrder: seq<Param>, gridDraws: seq<seq<Value>>,
                    padDraws: seq<seq<Value>>, numRandomSeeds: int, i: nat)
    requires DistinctNames(ps) && multiset(keyOrder) == multiset(ChoiceParams(ps)) && DistinctNames(keyOrder)
    requires SeedDraws(ps, keyOrder, gridDraws, padDraws, numRandomSeeds)
    requires i < |Seeds(ps, keyOrder, gridDraws, padDraws, numRandomSeeds)|
    ensures LegalConfig(ps, Seeds(ps, keyOrder, gridDraws, padDraws, numRandomSeeds)[i])
  {
    var g := GridSeeds(ps, keyOrder, gridDraws);
    if i < |g| {
      GridSeedAt(ps, keyOrder, gridDraws, i);
      SeedAt(ps, keyOrder, gridDraws, padDraws, numRandomSeeds, i);
    } else {
      PaddedAt(g, ps, padDraws, numRandomSeeds, i);
      BindLegal(ps, padDraws[i - |g|]);
    }
  }

  /** After the grid seeds come the padding draws, in order. */
  lemma PaddedAt(g: seq<Config>, ps: seq<Param>, padDraws: seq<seq<Value>>, n: int, i: nat)
    requires n - |g| <= |padDraws| && forall j :: 0 <= j < |padDraws| ==> LegalDraws(ps, padDraws[j])
    requires |g| <= i < |g + PadSeeds(ps, padDraws, n - |g|)|
    ensures i - |g| < |padDraws| && LegalDraws(ps, padDraws[i - |g|])
    ensures (g + PadSeeds(ps, padDraws, n - |g|))[i] == Bind(ps, padDraws[i - |g|])
  {
  }

  /** Every point of the Choice grid is tried: some seed takes its values. */
  lemma SeedsCoverGrid(ps: seq<Param>, keyOrder: seq<Param>, gridDraws: seq<seq<Value>>,
                       padDraws: seq<seq<Value>>, numRandomSeeds: int, c: Config)
    requires DistinctNames(ps) && multiset(keyOrder) == multiset(ChoiceParams(ps)) && DistinctNames(keyOrder)
    requires SeedDraws(ps, keyOrder, gridDraws, padDraws, numRandomSeeds)
    requires |ChoiceParams(ps)| > 0 && InGrid(ChoiceParams(ps), c)
    ensures var seeds := Seeds(ps, keyOrder, gridDraws, padDraws, numRandomSeeds);
            exists i :: 0 <= i < |seeds| && Extends(seeds[i], c)
  {
    GridOfKeyOrder(ChoiceParams(ps), keyOrder, c);
    var i :| 0 <= i < |Product(keyOrder)| && Product(keyOrder)[i] == c;
    KeyOrderNonEmpty(ChoiceParams(ps), keyOrder);
    GridSeedAt(ps, keyOrder, gridDraws, i);
    SeedAt(ps, keyOrder, gridDraws, padDraws, numRandomSeeds, i);
    assert Extends(Seeds(ps, keyOrder, gridDraws, padDraws, numRandomSeeds)[i], c);
  }

  /** `s` takes every value of `c`. */
  predicate Extends(s: Config, c: Config)
  {
    forall k :: k in c ==> k in s && s[k] == c[k]
  }

  lemma KeyOrderNonEmpty(choice: seq<Param>, keyOrder: seq<Param>)
    requires multiset(keyOrder) == multiset(choice) && |choice| > 0
    ensures |keyOrder| > 0
  {
    assert |multiset(keyOrder)| == |multiset(choice)| == |choice|;
  }

  /** Without a Choice parameter every seed is a random configuration. */
  lemma NoChoiceSeeds(ps: seq<Param>, keyOrder: seq<Param>, gridDraws: seq<seq<Value>>,
                      padDraws: seq<seq<Value>>, numRandomSeeds: int)
    requires multiset(keyOrder) == multiset(ChoiceParams(ps))
    requires SeedDraws(ps, keyOrder, gridDraws, padDraws, numRandomSeeds)
    requires forall p :: p in ps ==> p.kind != Choice
    ensures var seeds := Seeds(ps, keyOrder, gridDraws, padDraws, numRandomSeeds);
            && |seeds| == (if numRandomSeeds > 0 then numRandomSeeds else 0)
            && forall j :: 0 <= j < |seeds| ==> seeds[j] == Bind(ps, padDraws[j])
  {
    SplitNone(ps, true);
    assert |keyOrder| == |multiset(keyOrder)| == 0;
    assert |GridSeeds(ps, keyOrder, gridDraws)| == 0;
  }

  /* ---------------------------------------------------------------------
     The budget
     --------------------------------------------------------------------- */

  /** `self.max_num_trials and self.max_num_trials == self.count`, evaluated
      after the increment. */
  predicate BudgetHit(maxNumTrials: Option<int>, count: int)
    ensures BudgetHit(maxNumTrials, count) <==> Exhausted(maxNumTrials, count) && !Exhausted(maxNumTrials, count - 1)
  {
    maxNumTrials.Some? && maxNumTrials.value != 0 && maxNumTrials.value == count
  }

  /** For `k` successive calls starting from counter `count`: whether each
      call gets past the budget test. */
  function CallOutcomes(maxNumTrials: Option<int>, count: nat, k: nat): (s: seq<bool>)
    ensures |s| == k
    decreases k
  {
    if k == 0 then [] else [!BudgetHit(maxNumTrials, count + 1)] + CallOutcomes(maxNumTrials, count + 1, k - 1)
  }

  /** As written: with a budget of `n`, the `n`-th call is refused and
      every other call, including those after it, passes. */
  lemma {:induction false} BudgetAsWritten(n: nat, count: nat, k: nat)
    requires n > 0
    ensures forall i :: 0 <= i < k ==> (CallOutcomes(Some(n), count, k)[i] <==> count + i + 1 != n)
    decreases k
  {
    if k > 0 {
      BudgetAsWritten(n, count + 1, k - 1);
      var rest := CallOutcomes(Some(n), count + 1, k - 1);
      assert CallOutcomes(Some(n), count, k) == [count + 1 != n] + rest;
      forall i | 0 < i < k
        ensures CallOutcomes(Some(n), count, k)[i] <==> count + i + 1 != n
      {
        assert CallOutcomes(Some(n), count, k)[i] == rest[i - 1];
      }
    }
  }

  /** A fresh run with a budget of `n` makes only `n - 1` suggestions
      before its first refusal, and resumes after it. */
  lemma BudgetCounterexample()
    ensures CallOutcomes(Some(2), 0, 3) == [true, false, true]
  {
    BudgetAsWritten(2, 0, 3);
  }

  /* ---------------------------------------------------------------------
     Input/output pairs
     --------------------------------------------------------------------- */

  /** The error `_get_input_output_pairs` raises: a missing parameter
      column, or the first failing column of the design matrix. */
  function PairsError(results: seq<Row>, ps: seq<Param>): (e: Option<Error>)
    ensures !HasColumns(CompletedRows(results), ps) ==> e == Some(KeyError)
    ensures HasColumns(CompletedRows(results), ps) ==>
              RowsCover(Columns(ps), ParamRows(CompletedRows(results), ps))
              && e == FirstError(Columns(ps), ParamRows(CompletedRows(results), ps))
  {
    var completed := CompletedRows(results);
    if !HasColumns(completed, ps) then Some(KeyError)
    else
      ParamRowsCover(completed, ps);
      FirstError(Columns(ps), ParamRows(completed, ps))
  }

  /* ---------------------------------------------------------------------
     Filling the design matrix
     --------------------------------------------------------------------- */

  /** The one-hot block of the Choice parameter whose columns start at
      `col`: one indicator column per level, named `<name>_<i>`. */
  method FillOneHot(x: array2<real>, ghost cols: seq<Column>, rows: seq<Config>, p: Param, col: nat, log10: real -> real,
                    m: Meta) returns (m': Meta)
    requires Filled(x, cols, rows, col, log10) && col + |p.range| <= x.Length1 && col + |p.range| <= |cols|
    requires forall i :: 0 <= i < |p.range| ==> cols[col + i] == OneHot(p.name, i, p.range[i])
    requires |p.range| > 0 ==> forall i :: 0 <= i < |rows| ==> p.name in rows[i]
    requires Metadata(cols, col, m)
    modifies x
    ensures Filled(x, cols, rows, col + |p.range|, log10)
    ensures Metadata(cols, col + |p.range|, m') && m'.bounds == m.bounds
  {
    var types, names := m.types, m.names;
    for at := col to col + |p.range|
      invariant Filled(x, cols, rows, at, log10)
      invariant types == TypesUpTo(cols, at) && names == NamesUpTo(cols, at)
    {
      types, names := FillIndicator(x, cols, rows, p, at, at - col, log10, types, names);
    }
    ScalesSkipIndicators(cols, col, p.name, p.range, |p.range|);
    m' := m.(types := types, names := names);
  }

  /** The indicator column of level `i` of Choice parameter `p`, at `at`,
      with its type and name added to `types` and `names`. */
  method FillIndicator(x: array2<real>, ghost cols: seq<Column>, rows: seq<Config>, p: Param, at: nat, i: nat,
                       log10: real -> real, types: map<nat, XType>, names: map<nat, string>)
      returns (types': map<nat, XType>, names': map<nat, string>)
    requires Filled(x, cols, rows, at, log10) && at < x.Length1 && at < |cols|
    requires i < |p.range| && cols[at] == OneHot(p.name, i, p.range[i])
    requires forall r :: 0 <= r < |rows| ==> p.name in rows[r]
    requires types == TypesUpTo(cols, at) && names == NamesUpTo(cols, at)
    modifies x
    ensures Filled(x, cols, rows, at + 1, log10)
    ensures types' == TypesUpTo(cols, at + 1) && names' == NamesUpTo(cols, at + 1)
  {
    FillNext(x, cols, rows, OneHot(p.name, i, p.range[i]), at, log10);
    types' := types[at := DiscreteCol];
    names' := names[at := p.name + "_" + NatToString(i)];
  }

  /** The column of a non-Choice parameter at `col`: a string value
      cannot be converted to a float, and a Continuous parameter records
      its two bounds after its type, scale and name. */
  method FillNumeric(x: array2<real>, ghost cols: seq<Column>, rows: seq<Config>, p: Param, col: nat, log10: real -> real,
                     m: Meta) returns (err: Option<Error>, next: nat, m': Meta)
    requires p.kind != Choice && Filled(x, cols, rows, col, log10)
    requires col + |ParamColumns(p)| <= x.Length1 && Placed(cols, col, ParamColumns(p))
    requires RowsCover(ParamColumns(p), rows)
    requires Metadata(cols, col, m)
    modifies x
    ensures err == FirstError(ParamColumns(p), rows)
    ensures next == col + |ParamColumns(p)|
    ensures err.None? ==>
              && Filled(x, cols, rows, next, log10)
              && Metadata(cols, next, m') && m'.bounds == m.bounds + ParamBounds(p)
  {
    assert cols[col] == Numeric(p) by {
      assert cols[col] == ParamColumns(p)[col - col];
    }
    assert Source(ParamColumns(p)[0]) == p.name;
    assert FirstError(ParamColumns(p), rows) == ColumnError(Numeric(p), rows);
    if exists i :: 0 <= i < |rows| && rows[i][p.name].Str? {
      return Some(ValueError), col + 1, m;
    }
    FillNext(x, cols, rows, Numeric(p), col, log10);
    next := col + 1;
    m' := m.(types := m.types[col := if p.kind == Continuous then ContinuousCol else DiscreteCol]);
    m' := m'.(scales := m'.scales[col := p.scale]);
    m' := m'.(names := m'.names[col := p.name]);
    if p.kind == Continuous {
      if |p.range| < 2 {
        return Some(IndexError), col + 1, m';
      }
      m' := m'.(bounds := m'.bounds + [(p.range[0], p.range[1])]);
    }
    err := None;
  }

  /** The columns of Choice parameter `p`, which start at `col`: none for a
      single-level Choice. */
  method FillChoice(x: array2<real>, ghost cols: seq<Column>, rows: seq<Config>, p: Param, col: nat, log10: real -> real,
                    m: Meta) returns (err: Option<Error>, next: nat, m': Meta)
    requires p.kind == Choice && Filled(x, cols, rows, col, log10)
    requires col + |ParamColumns(p)| <= x.Length1 && Placed(cols, col, ParamColumns(p))
    requires RowsCover(ParamColumns(p), rows)
    requires Metadata(cols, col, m)
    modifies x
    ensures err == FirstError(ParamColumns(p), rows)
    ensures next == col + |ParamColumns(p)|
    ensures err.None? ==>
              && Filled(x, cols, rows, next, log10)
              && Metadata(cols, next, m') && m'.bounds == m.bounds + ParamBounds(p)
  {
    next := col + |ParamColumns(p)|;
    if |p.range| == 1 {
      return None, next, m;
    }
    if |p.range| > 0 {
      assert Source(ParamColumns(p)[0]) == p.name;
    }
    forall i | 0 <= i < |p.range| ensures cols[col + i] == OneHot(p.name, i, p.range[i]) {
      assert cols[col + i] == ParamColumns(p)[col + i - col];
    }
    m' := FillOneHot(x, cols, rows, p, col, log10, m);
    err := None;
  }

  /** The columns of `ps[k]`, which start at `col`. */
  method FillParam(x: array2<real>, ps: seq<Param>, k: nat, rows: seq<Config>, col: nat, log10: real -> real,
                   m: Meta) returns (err: Option<Error>, next: nat, m': Meta)
    requires k < |ps| && RowsCover(Columns(ps), rows) && |Columns(ps)| <= x.Length1
    requires col == |Columns(ps[..k])| && Filled(x, Columns(ps), rows, col, log10)
    requires Metadata(Columns(ps), col, m) && m.bounds == XBounds(ps[..k])
    modifies x
    ensures RowsCover(ParamColumns(ps[k]), rows) && err == FirstError(ParamColumns(ps[k]), rows)
    ensures next == |Columns(ps[..k + 1])|
    ensures err.None? ==>
              && Filled(x, Columns(ps), rows, next, log10)
              && Metadata(Columns(ps), next, m') && m'.bounds == XBounds(ps[..k + 1])
  {
    ParamBlock(ps, k, rows);
    if ps[k].kind == Choice {
      err, next, m' := FillChoice(x, Columns(ps), rows, ps[k], col, log10, m);
    } else {
      err, next, m' := FillNumeric(x, Columns(ps), rows, ps[k], col, log10, m);
    }
  }

  /** One round of `_get_design_matrix`'s loop over the parameters: the
      columns of `ps[k]`, and the column counter moved past them. */
  method FillStep(x: array2<real>, ps: seq<Param>, k: nat, rows: seq<Config>, col: nat, log10: real -> real,
                  m: Meta) returns (err: Option<Error>, next: nat, m': Meta)
    requires k < |ps| && RowsCover(Columns(ps), rows) && |Columns(ps)| <= x.Length1
    requires col == |Columns(ps[..k])| && RowsCover(Columns(ps[..k]), rows)
    requires FirstError(Columns(ps[..k]), rows).None?
    requires Filled(x, Columns(ps), rows, col, log10)
    requires Metadata(Columns(ps), col, m) && m.bounds == XBounds(ps[..k])
    modifies x
    ensures err.Some? ==> err == FirstError(Columns(ps), rows)
    ensures err.None? ==>
              && next == |Columns(ps[..k + 1])| && Columns(ps[..k + 1]) <= Columns(ps)
              && RowsCover(Columns(ps[..k + 1]), rows) && FirstError(Columns(ps[..k + 1]), rows).None?
              && Filled(x, Columns(ps), rows, next, log10)
              && Metadata(Columns(ps), next, m') && m'.bounds == XBounds(ps[..k + 1])
  {
    FirstErrorAt(ps, k, rows);
    ColumnsOfParam(ps, k);
    ColumnsPrefix(ps, k);
    err, next, m' := FillParam(x, ps, k, rows, col, log10, m);
  }

  /** The loop of `_get_design_matrix` over the parameters, filling `x`
      from its first column; the metadata recorded so far comes back even
      when a column fails. */
  method FillColumns(x: array2<real>, ps: seq<Param>, rows: seq<Config>, log10: real -> real)
      returns (err: Option<Error>, col: nat, m: Meta)
    requires RowsCover(Columns(ps), rows) && x.Length0 == |rows| && |Columns(ps)| <= x.Length1
    modifies x
    ensures err == FirstError(Columns(ps), rows)
    ensures err.None? ==>
              && col == |Columns(ps)| && Filled(x, Columns(ps), rows, col, log10)
              && Metadata(Columns(ps), col, m) && m.bounds == XBounds(ps)
  {
    ghost var cols := Columns(ps);
    m := Meta(map[], map[], map[], []);
    col := 0;
    for k := 0 to |ps|
      invariant col == |Columns(ps[..k])| && Columns(ps[..k]) <= cols
      invariant RowsCover(Columns(ps[..k]), rows) && FirstError(Columns(ps[..k]), rows).None?
      invariant Filled(x, cols, rows, col, log10)
      invariant Metadata(cols, col, m) && m.bounds == XBounds(ps[..k])
    {
      err, col, m := FillStep(x, ps, k, rows, col, log10, m);
      if err.Some? {
        return;
      }
    }
    assert ps[..|ps|] == ps;
    err := None;
  }

  /** Every cell of the first `|Columns(ps)|` columns is filled: the
      leading columns of `x` encode the rows. */
  lemma FilledEncodes(x: array2<real>, y: array2<real>, ps: seq<Param>, rows: seq<Config>, log10: real -> real)
    requires RowsCover(Columns(ps), rows)
    requires Filled(x, Columns(ps), rows, |Columns(ps)|, log10)
    requires y.Length0 == x.Length0 && y.Length1 == |Columns(ps)|
    requires forall i, j :: 0 <= i < x.Length0 && 0 <= j < |Columns(ps)| ==> y[i, j] == x[i, j]
    ensures Encodes(y, ps, rows, log10)
  {
  }

  /** `_get_design_matrix` without the fields it writes: the matrix, or the
      first failing cell, and the metadata recorded before it. */
  method DesignMatrix(ps: seq<Param>, rows: seq<Config>, log10: real -> real)
      returns (err: Option<Error>, y: array2<real>, m: Meta)
    requires RowsCover(Columns(ps), rows)
    ensures err == FirstError(Columns(ps), rows)
    ensures err.None? ==> fresh(y) && Encodes(y, ps, rows, log10)
    ensures err.None? ==>
              m.types == XTypes(ps) && m.names == XNames(ps) && m.scales == XScales(ps)
              && m.bounds == XBounds(ps)
  {
    ColumnCount(ps);
    var x := new real[|rows|, NumFeatures(ps)];
    var col;
    err, col, m := FillColumns(x, ps, rows, log10);
    if err.Some? {
      y := x;
      return;
    }
    y := LeadingColumns(x, col);
    FilledEncodes(x, y, ps, rows, log10);
  }

  /** The walk over the Choice grid stops only after its last point: no
      point of a non-empty grid is the empty configuration. */
  lemma GridExhausted(keyOrder: seq<Param>, i: nat, p: Result<Option<Config>>)
    requires i <= |Product(keyOrder)|
    requires p == Ok(if i < |Product(keyOrder)| then Some(Product(keyOrder)[i]) else None)
    requires |keyOrder| == 0 ==> i == 0
    requires !(p.Ok? && p.value.Some? && p.value.value != map[])
    ensures i == if |keyOrder| == 0 then 0 else |Product(keyOrder)|
  {
    if |keyOrder| > 0 && i < |Product(keyOrder)| {
      NonEmptyPoint(keyOrder, i);
      assert false;
    }
  }

  /** Every point of a grid over at least one parameter is non-empty. */
  lemma NonEmptyPoint(keyOrder: seq<Param>, i: nat)
    requires |keyOrder| > 0 && i < |Product(keyOrder)|
    ensures Product(keyOrder)[i] != map[]
  {
    ProductKeys(keyOrder);
    assert Product(keyOrder)[i] in Product(keyOrder);
    assert keyOrder[0].name in NameSet(keyOrder);
  }

  /** What `get_suggestion` answers on call number `count` once the seeds
      exist: the seed due, a random configuration while no trial has
      completed, the error of the design matrix, or the model's pick. */
  function Response(seeds: seq<Config>, count: nat, ps: seq<Param>, results: seq<Row>, draws: seq<Value>,
                    modelPick: Config): (r: Result<Option<Config>>)
    requires count > 0 && |draws| == |ps|
    ensures r.Ok? ==> r.value.Some?
    ensures count <= |seeds| ==> r.Ok? && r.value.value in seeds
    ensures r.Err? ==> count > |seeds| && |CompletedRows(results)| > 0 && PairsError(results, ps) == Some(r.error)
  {
    if count <= |seeds| then Ok(Some(seeds[count - 1]))
    else if |CompletedRows(results)| == 0 then Ok(Some(Bind(ps, draws)))
    else if PairsError(results, ps).Some? then Err(PairsError(results, ps).value)
    else Ok(Some(modelPick))
  }

  /** Where the grid walk stands after `i` points have been used: the
      searcher has handed out point `i` unless the grid is exhausted. */
  ghost predicate GridAt(count: nat, p: Result<Option<Config>>, grid: seq<Config>, i: nat)
  {
    if i < |grid| then count == i + 1 && p == Ok(Some(grid[i]))
    else i == |grid| && count == i && p == Ok(None)
  }

  /** One more call of the choice grid searcher during seeding. */
  method NextPoint(gs: GridSearch, choice: seq<Param>, keyOrder: seq<Param>, ghost grid: seq<Config>, ghost i: nat)
    returns (p: Result<Option<Config>>)
    requires gs.Valid() && AllChoice(choice) && gs.grid == Some(grid)
    requires multiset(keyOrder) == multiset(choice) && DistinctNames(keyOrder)
    requires 0 < i <= |grid| && gs.count == i
    modifies gs
    ensures gs.Valid() && gs.grid == Some(grid) && GridAt(gs.count, p, grid, i)
  {
    p := gs.GetSuggestion(choice, keyOrder);
  }

  class BayesianOptimization {
    const numRandomSeeds: int
    const maxNumTrials: Option<int>
    const fineTune: bool
    var count: nat
    var seedConfigurations: seq<Config>
    const randomSampler: RandomSearch
    var xtypes: map<nat, XType>
    var xnames: map<nat, string>
    var xscales: map<nat, Scale>
    var xbounds: seq<(Value, Value)>
    var lowerIsBetter: Option<bool>

    /** The random sampler has no budget. */
    ghost predicate Valid()
      reads this, randomSampler
    {
      randomSampler.maxNumTrials.None?
    }

    /** The column metadata is that of the design matrix of `ps`. */
    ghost predicate HasMeta(ps: seq<Param>)
      reads this
    {
      xtypes == XTypes(ps) && xnames == XNames(ps) && xscales == XScales(ps) && xbounds == XBounds(ps)
    }

    /** The column metadata is as it was before the call. */
    twostate predicate MetaKept()
      reads this
    {
      xtypes == old(xtypes) && xnames == old(xnames) && xscales == old(xscales) && xbounds == old(xbounds)
    }

    /** The assertion of the constructor admits only the acquisition
        function "ei". */
    constructor (numRandomSeeds: int, maxNumTrials: Option<int>, fineTune: bool, acquisitionFunction: string)
      requires acquisitionFunction == "ei"
      ensures Valid() && fresh(randomSampler)
      ensures this.numRandomSeeds == numRandomSeeds && this.maxNumTrials == maxNumTrials
      ensures this.fineTune == fineTune
      ensures count == 0 && seedConfigurations == [] && lowerIsBetter == None
      ensures xtypes == map[] && xnames == map[] && xscales == map[] && xbounds == []
    {
      this.numRandomSeeds := numRandomSeeds;
      this.maxNumTrials := maxNumTrials;
      this.fineTune := fineTune;
      count := 0;
      seedConfigurations := [];
      randomSampler := new RandomSearch(None);
      xtypes, xnames, xscales, xbounds := map[], map[], map[], [];
      lowerIsBetter := None;
    }

    /** `load(num_trials)`: the counter resumes at the trial count. */
    method Load(numTrials: nat)
      modifies this
      ensures count == numTrials
      ensures seedConfigurations == old(seedConfigurations) && lowerIsBetter == old(lowerIsBetter)
      ensures xtypes == old(xtypes) && xnames == old(xnames) && xscales == old(xscales) && xbounds == old(xbounds)
    {
      count := numTrials;
    }

    /** `_get_design_matrix`: fills the columns of `Columns(ps)` one by one
        and records their metadata; a failing column raises its error. */
    method GetDesignMatrix(rows: seq<Config>, ps: seq<Param>, log10: real -> real) returns (r: Result<array2<real>>)
      requires RowsCover(Columns(ps), rows)
      modifies this
      ensures count == old(count) && seedConfigurations == old(seedConfigurations)
      ensures lowerIsBetter == old(lowerIsBetter)
      ensures r.Err? <==> FirstError(Columns(ps), rows).Some?
      ensures r.Err? ==> Some(r.error) == FirstError(Columns(ps), rows)
      ensures r.Ok? ==> fresh(r.value) && Encodes(r.value, ps, rows, log10)
      ensures r.Ok? ==> HasMeta(ps)
    {
      var err, y, m := DesignMatrix(ps, rows, log10);
      xtypes, xscales, xnames, xbounds := m.types, m.scales, m.names, m.bounds;
      if err.Some? {
        return Err(err.value);
      }
      r := Ok(y);
    }

    /** The first loop of `_generate_seeds`: walks a GridSearch over the
        Choice parameters until it hands back an empty (falsy) point or
        nothing, completing each point with a random draw of the other
        parameters. */
    method GridPhase(ps: seq<Param>, keyOrder: seq<Param>, gridDraws: seq<seq<Value>>)
      requires Valid() && seedConfigurations == []
      requires multiset(keyOrder) == multiset(ChoiceParams(ps)) && DistinctNames(keyOrder)
      requires |gridDraws| >= |Product(keyOrder)|
      requires forall i :: 0 <= i < |gridDraws| ==> LegalDraws(OtherParams(ps), gridDraws[i])
      modifies this, randomSampler
      ensures Valid() && seedConfigurations == GridSeeds(ps, keyOrder, gridDraws)
      ensures count == old(count) && lowerIsBetter == old(lowerIsBetter) && MetaKept()
    {
      ghost var grid := Product(keyOrder);
      ghost var g := GridSeeds(ps, keyOrder, gridDraws);
      var choice := ChoiceParams(ps);
      assert AllChoice(choice);
      var choiceGridSearch := new GridSearch();
      var p := choiceGridSearch.GetSuggestion(choice, keyOrder);
      var seeds: seq<Config> := [];
      var i := 0;
      while p.Ok? && p.value.Some? && p.value.value != map[]
        modifies randomSampler, choiceGridSearch
        invariant choiceGridSearch.Valid() && choiceGridSearch.grid == Some(grid)
        invariant GridAt(choiceGridSearch.count, p, grid, i)
        invariant |keyOrder| == 0 ==> i == 0 && grid == [map[]]
        invariant seeds == g[..i]
        decreases |grid| - i
      {
        assert |keyOrder| > 0;
        var seed := GridSeed(ps, keyOrder, gridDraws, p.value.value, i);
        PrefixStep(g, i);
        seeds := seeds + [seed];
        i := i + 1;
        p := NextPoint(choiceGridSearch, choice, keyOrder, grid, i);
      }
      assert i <= |grid| && p == Ok(if i < |grid| then Some(grid[i]) else None);
      GridExhausted(keyOrder, i, p);
      assert g[..i] == g;
      seedConfigurations := seeds;
    }

    /** The grid point `point`, number `i` of the grid, completed by the
        random sampler on the remaining parameters. */
    method GridSeed(ps: seq<Param>, keyOrder: seq<Param>, gridDraws: seq<seq<Value>>, point: Config, i: nat)
      returns (seed: Config)
      requires Valid()
      requires |gridDraws| >= |Product(keyOrder)|
      requires forall i :: 0 <= i < |gridDraws| ==> LegalDraws(OtherParams(ps), gridDraws[i])
      requires |keyOrder| > 0 && i < |Product(keyOrder)| && point == Product(keyOrder)[i]
      modifies randomSampler
      ensures Valid() && seed == GridSeeds(ps, keyOrder, gridDraws)[i]
    {
      var rest := randomSampler.GetSuggestion(OtherParams(ps), gridDraws[i]);
      GridSeedsIndex(ps, keyOrder, gridDraws, i);
      seed := point + rest.value;
    }

    /** The second loop of `_generate_seeds`: random configurations until
        there are `numRandomSeeds` seeds. */
    method PadPhase(ps: seq<Param>, padDraws: seq<seq<Value>>)
      requires Valid() && numRandomSeeds - |seedConfigurations| <= |padDraws|
      requires forall j :: 0 <= j < |padDraws| ==> LegalDraws(ps, padDraws[j])
      modifies this, randomSampler
      ensures Valid()
      ensures seedConfigurations
              == old(seedConfigurations) + PadSeeds(ps, padDraws, numRandomSeeds - |old(seedConfigurations)|)
      ensures count == old(count) && lowerIsBetter == old(lowerIsBetter) && MetaKept()
    {
      ghost var g := seedConfigurations;
      ghost var pad := PadSeeds(ps, padDraws, numRandomSeeds - |g|);
      var seeds := seedConfigurations;
      var j := 0;
      while |seeds| < numRandomSeeds
        modifies randomSampler
        invariant j <= |pad| && |seeds| == |g| + j && seeds == g + pad[..j]
        decreases numRandomSeeds - |seeds|
      {
        var q := randomSampler.GetSuggestion(ps, padDraws[j]);
        PrefixStep(pad, j);
        seeds := seeds + [q.value];
        j := j + 1;
      }
      assert pad[..j] == pad;
      seedConfigurations := seeds;
    }

    /** `_generate_seeds`. */
    method GenerateSeeds(ps: seq<Param>, keyOrder: seq<Param>, gridDraws: seq<seq<Value>>,
                         padDraws: seq<seq<Value>>)
      requires Valid() && seedConfigurations == []
      requires multiset(keyOrder) == multiset(ChoiceParams(ps)) && DistinctNames(keyOrder)
      requires SeedDraws(ps, keyOrder, gridDraws, padDraws, numRandomSeeds)
      modifies this, randomSampler
      ensures Valid()
      ensures seedConfigurations == Seeds(ps, keyOrder, gridDraws, padDraws, numRandomSeeds)
      ensures count == old(count) && lowerIsBetter == old(lowerIsBetter) && MetaKept()
    {
      GridPhase(ps, keyOrder, gridDraws);
      PadPhase(ps, padDraws);
    }

    /** `_get_input_output_pairs`: the design matrix of the parameter
        columns of the completed rows, and their objectives. */
    method GetInputOutputPairs(results: seq<Row>, ps: seq<Param>, log10: real -> real)
        returns (r: Result<(array2<real>, seq<Option<real>>)>)
      modifies this
      ensures count == old(count) && seedConfigurations == old(seedConfigurations)
      ensures lowerIsBetter == old(lowerIsBetter)
      ensures r.Err? <==> PairsError(results, ps).Some?
      ensures r.Err? ==> Some(r.error) == PairsError(results, ps)
      ensures r.Ok? ==>
                var completed := CompletedRows(results);
                && HasColumns(completed, ps)
                && RowsCover(Columns(ps), ParamRows(completed, ps))
                && fresh(r.value.0) && Encodes(r.value.0, ps, ParamRows(completed, ps), log10)
                && r.value.1 == Objectives(completed)
                && HasMeta(ps)
      // a missing parameter column raises before the metadata is reset
      ensures !HasColumns(CompletedRows(results), ps) ==> MetaKept()
    {
      var completed := CompletedRows(results);
      if !HasColumns(completed, ps) {
        return Err(KeyError);
      }
      ParamRowsCover(completed, ps);
      var x := GetDesignMatrix(ParamRows(completed, ps), ps, log10);
      if x.Err? {
        return Err(x.error);
      }
      r := Ok((x.value, Objectives(completed)));
    }

    /** `get_suggestion`.  The counter moves first and the budget is checked
        against it; then the seeds (generated on the first call that finds
        none), then a random configuration while no trial has completed,
        then the model-based suggestion, which is the input `modelPick`. */
    method GetSuggestion(ps: seq<Param>, results: seq<Row>, lowerIsBetter: bool,
                         keyOrder: seq<Param>, gridDraws: seq<seq<Value>>, padDraws: seq<seq<Value>>,
                         draws: seq<Value>, log10: real -> real, modelPick: Config)
        returns (r: Result<Option<Config>>)
      requires Valid()
      requires multiset(keyOrder) == multiset(ChoiceParams(ps)) && DistinctNames(keyOrder)
      requires SeedDraws(ps, keyOrder, gridDraws, padDraws, numRandomSeeds)
      requires LegalDraws(ps, draws)
      modifies this, randomSampler
      ensures Valid()
      ensures count == old(count) + 1
      ensures BudgetHit(maxNumTrials, count) ==>
                r == Ok(None) && seedConfigurations == old(seedConfigurations)
                && this.lowerIsBetter == old(this.lowerIsBetter) && MetaKept()
      ensures !BudgetHit(maxNumTrials, count) ==>
                && this.lowerIsBetter == Some(lowerIsBetter)
                && seedConfigurations == (if old(seedConfigurations) == []
                                          then Seeds(ps, keyOrder, gridDraws, padDraws, numRandomSeeds)
                                          else old(seedConfigurations))
                && r == Response(seedConfigurations, count, ps, results, draws, modelPick)
                && ((count <= |seedConfigurations| || |CompletedRows(results)| == 0
                     || !HasColumns(CompletedRows(results), ps)) ==> MetaKept())
                && (count > |seedConfigurations| && r.Ok? && |CompletedRows(results)| > 0 ==> HasMeta(ps))
    {
      count := count + 1;
      if BudgetHit(maxNumTrials, count) {
        return Ok(None);
      }
      this.lowerIsBetter := Some(lowerIsBetter);
      if seedConfigurations == [] {
        GenerateSeeds(ps, keyOrder, gridDraws, padDraws);
      }
      r := Respond(ps, results, draws, log10, modelPick);
    }

    /** The rest of `get_suggestion` once the counter has moved and the
        seeds exist. */
    method Respond(ps: seq<Param>, results: seq<Row>, draws: seq<Value>, log10: real -> real, modelPick: Config)
        returns (r: Result<Option<Config>>)
      requires Valid() && count > 0 && LegalDraws(ps, draws)
      modifies this, randomSampler
      ensures Valid()
      ensures count == old(count) && seedConfigurations == old(seedConfigurations)
      ensures lowerIsBetter == old(lowerIsBetter)
      ensures r == Response(seedConfigurations, count, ps, results, draws, modelPick)
      // the seed, the random fallback and a missing column leave the metadata alone
      ensures (count <= |seedConfigurations| || |CompletedRows(results)| == 0
               || !HasColumns(CompletedRows(results), ps)) ==> MetaKept()
      // the model-based answer records the metadata of the design matrix
      ensures count > |seedConfigurations| && r.Ok? && |CompletedRows(results)| > 0 ==> HasMeta(ps)
    {
      if count <= |seedConfigurations| {
        return Ok(Some(seedConfigurations[count - 1]));
      }
      if |CompletedRows(results)| == 0 {
        var q := randomSampler.GetSuggestion(ps, draws);
        return Ok(q);
      }
      var pairs := GetInputOutputPairs(results, ps, log10);
      if pairs.Err? {
        return Err(pairs.error);
      }
      r := Ok(Some(modelPick));
    }
  }
}
