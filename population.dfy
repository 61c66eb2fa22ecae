/** PopulationBasedTraining in sherpa/algorithms.py: the generation
    counter, the choice of a parent among the best third of the previous
    generation, the clamped perturbation of its parameters, and the
    checkpoint bookkeeping (`load_from`, `save_to`, `lineage`). */
module Population {
  import opened Common
  import opened Ranking
  import opened Sampling

  /** A suggestion of population based training: the parameter values and
      the three bookkeeping entries of the trial dictionary. */
  datatype Trial = Trial(params: Config, loadFrom: string, saveTo: string, lineage: string)

  /* ---------------------------------------------------------------------
     The generation counter
     --------------------------------------------------------------------- */

  /** `generation` after `k` calls of `get_suggestion` from counter `count`:
      each call moves the counter first, and a counter that is 1 modulo the
      population size opens a new generation. */
  function GenerationAfter(size: nat, count: nat, generation: int, k: nat): (g: int)
    requires size > 0
    ensures generation <= g <= generation + k
    decreases k
  {
    if k == 0 then generation
    else GenerationAfter(size, count + 1, if (count + 1) % size == 1 then generation + 1 else generation, k - 1)
  }

  /** The generation trial number `n` belongs to: the first `size` trials
      form generation 1, the next `size` generation 2, and so on (0 before
      any trial). */
  function GenerationOf(size: nat, n: nat): int
    requires size > 0
  {
    (n - 1) / size + 1
  }

  lemma MulPos(k: int, s: int)
    requires k >= 1 && s > 0
    ensures k * s >= s
  {
    var m := k - 1;
    assert k * s == m * s + s;
    assert m * s >= 0;
  }

  lemma MulNeg(k: int, s: int)
    requires k <= -1 && s > 0
    ensures k * s <= -s
  {
    MulPos(-k, s);
    assert k * s == -((-k) * s);
  }

  /** Quotient and remainder are determined by `n == q * size + r` with
      `0 <= r < size`. */
  lemma DivUnique(n: int, size: nat, q: int, r: int)
    requires size > 0 && n == q * size + r && 0 <= r < size
    ensures n / size == q && n % size == r
  {
    var k := n / size - q;
    assert n / size * size + n % size == n;
    assert k * size == r - n % size;
    if k >= 1 {
      MulPos(k, size);
    } else if k <= -1 {
      MulNeg(k, size);
    }
  }

  /** One call moves the generation exactly when the new counter starts a
      block of `size` trials. */
  lemma GenerationStep(size: nat, n: nat)
    requires size >= 2
    ensures GenerationOf(size, n + 1)
            == GenerationOf(size, n) + (if (n + 1) % size == 1 then 1 else 0)
  {
    var q := (n - 1) / size;
    var r := (n - 1) % size;
    assert n - 1 == q * size + r && 0 <= r < size;
    if r == size - 1 {
      DivUnique(n, size, q + 1, 0);
      DivUnique(n + 1, size, q + 1, 1);
    } else {
      DivUnique(n, size, q, r + 1);
      if r + 2 == size {
        DivUnique(n + 1, size, q + 1, 0);
      } else {
        DivUnique(n + 1, size, q, r + 2);
      }
    }
  }

  /** From a counter whose generation is right, every later call keeps it
      right. */
  lemma {:induction false} GenerationTracks(size: nat, n: nat, k: nat)
    requires size >= 2
    ensures GenerationAfter(size, n, GenerationOf(size, n), k) == GenerationOf(size, n + k)
    decreases k
  {
    if k > 0 {
      GenerationStep(size, n);
      GenerationTracks(size, n + 1, k - 1);
    }
  }

  /** A fresh instance (`count == generation == 0`) with a population of at
      least two is in generation `(k - 1) // size + 1` after `k` calls. */
  lemma FreshGenerations(size: nat, k: nat)
    requires size >= 2
    ensures GenerationAfter(size, 0, 0, k) == GenerationOf(size, k)
  {
    assert GenerationOf(size, 0) == 0;
    GenerationTracks(size, 0, k);
  }

  /** `load(n)` as written: `n // population_size + 1`. */
  function LoadGeneration(size: nat, n: nat): (g: int)
    requires size > 0
    ensures g >= 1 && (g - 1) * size <= n < g * size
  {
    n / size + 1
  }

  /** As written, `load(n)` agrees with a fresh run of `n` trials exactly
      when `n` is not a multiple of the population size. */
  lemma LoadAgreesUnlessMultiple(size: nat, n: nat)
    requires size >= 2
    ensures LoadGeneration(size, n) == GenerationOf(size, n) <==> n % size != 0
  {
    var q := n / size;
    var r := n % size;
    if r == 0 {
      if n == 0 {
        assert GenerationOf(size, n) == 0;
      } else {
        DivUnique(n - 1, size, q - 1, size - 1);
      }
    } else {
      DivUnique(n - 1, size, q, r - 1);
    }
  }

  /** The discrepancy on a concrete run: with a population of 2, loading 2
      trials and asking once more puts trial 3 in generation 3, where a
      fresh run puts it in generation 2. */
  lemma LoadCounterexample()
    ensures GenerationAfter(2, 2, LoadGeneration(2, 2), 1) == 3
    ensures GenerationAfter(2, 0, 0, 3) == 2
  {
    FreshGenerations(2, 3);
  }

  /** Corrected `load(n)`: the generation of the last trial,
      `(n - 1) // population_size + 1`, resumes exactly as a fresh run. */
  lemma LoadCorrected(size: nat, n: nat, k: nat)
    requires size >= 2
    ensures GenerationAfter(size, n, GenerationOf(size, n), k) == GenerationAfter(size, 0, 0, n + k)
  {
    GenerationTracks(size, n, k);
    FreshGenerations(size, n + k);
  }

  /* ---------------------------------------------------------------------
     The parent: best third of the previous generation
     --------------------------------------------------------------------- */

  /** The completed rows whose Trial-ID lies in `[lo, hi]`, order kept. */
  function Window(rows: seq<Row>, lo: int, hi: int): (w: seq<Row>)
    ensures forall r :: r in w <==> r in rows && lo <= r.trialId <= hi
  {
    if |rows| == 0 then []
    else (if lo <= rows[0].trialId <= hi then [rows[0]] else []) + Window(rows[1..], lo, hi)
  }

  /** The completed trials of generation `generation - 1`: Trial-IDs
      `(g - 2) * size + 1` to `(g - 1) * size`. */
  function PreviousGeneration(results: seq<Row>, generation: int, size: nat): seq<Row>
  {
    Window(CompletedRows(results), (generation - 2) * size + 1, (generation - 1) * size)
  }

  /** `_get_candidate`.  `order` is the sorted population and `idx` the
      draw of `randint(0, size // 3)`, which fails when `size // 3 == 0`. */
  function GetCandidate(ps: seq<Param>, results: seq<Row>, generation: int, size: nat,
                        lowerIsBetter: bool, order: seq<Row>, idx: int): (r: Result<Trial>)
    requires SortedPermutation(order, PreviousGeneration(results, generation, size), lowerIsBetter)
    requires size / 3 > 0 ==> 0 <= idx < size / 3
    ensures r.Ok? ==> r.value.params.Keys == NameSet(ps) && 0 <= idx < |order|
    ensures r.Err? ==> r.error == ValueError || r.error == IndexError || r.error == KeyError
  {
    if size / 3 == 0 then Err(ValueError)
    else if idx >= |order| then Err(IndexError)
    else if !(NameSet(ps) <= order[idx].params.Keys) then Err(KeyError)
    else
      var d := order[idx];
      Ok(Trial(Project(d.params, ps), d.loadFrom, d.saveTo, d.lineage))
  }

  /** `_get_candidate` fails with ValueError exactly for a population below
      3 (`randint(0, 0)`), and with IndexError exactly when the drawn
      position is past the completed trials of the previous generation. */
  lemma CandidateErrors(ps: seq<Param>, results: seq<Row>, generation: int, size: nat,
                        lowerIsBetter: bool, order: seq<Row>, idx: int)
    requires SortedPermutation(order, PreviousGeneration(results, generation, size), lowerIsBetter)
    requires size / 3 > 0 ==> 0 <= idx < size / 3
    ensures var r := GetCandidate(ps, results, generation, size, lowerIsBetter, order, idx);
            && (r == Err(ValueError) <==> size < 3)
            && (r == Err(IndexError) <==> size >= 3 && idx >= |PreviousGeneration(results, generation, size)|)
  {
    var window := PreviousGeneration(results, generation, size);
    assert |order| == |multiset(order)| == |multiset(window)| == |window|;
  }

  /** The parent is a completed trial of the previous generation, fewer
      than `size // 3` trials of which are better; its parameter values and
      bookkeeping are copied. */
  lemma CandidateIsElite(ps: seq<Param>, results: seq<Row>, generation: int, size: nat,
                         lowerIsBetter: bool, order: seq<Row>, idx: int)
    requires SortedPermutation(order, PreviousGeneration(results, generation, size), lowerIsBetter)
    requires size / 3 > 0 ==> 0 <= idx < size / 3
    requires GetCandidate(ps, results, generation, size, lowerIsBetter, order, idx).Ok?
    ensures var window := PreviousGeneration(results, generation, size);
            var t := GetCandidate(ps, results, generation, size, lowerIsBetter, order, idx).value;
            exists row :: row in results && row.status != Intermediate
              && (generation - 2) * size + 1 <= row.trialId <= (generation - 1) * size
              && CountBetter(window, row.objective, lowerIsBetter) < size / 3
              && NameSet(ps) <= row.params.Keys
              && t == Trial(Project(row.params, ps), row.loadFrom, row.saveTo, row.lineage)
  {
    var window := PreviousGeneration(results, generation, size);
    var lo, hi := (generation - 2) * size + 1, (generation - 1) * size;
    EliteRank(order, window, idx, lowerIsBetter);
    var row := order[idx];
    assert row in Window(CompletedRows(results), lo, hi);
    assert row in CompletedRows(results) && lo <= row.trialId <= hi;
    assert row in results && row.status != Intermediate;
    assert CountBetter(window, row.objective, lowerIsBetter) < size / 3;
    var t := GetCandidate(ps, results, generation, size, lowerIsBetter, order, idx).value;
    assert row in results && row.status != Intermediate
      && (generation - 2) * size + 1 <= row.trialId <= (generation - 1) * size
      && CountBetter(window, row.objective, lowerIsBetter) < size / 3
      && NameSet(ps) <= row.params.Keys
      && t == Trial(Project(row.params, ps), row.loadFrom, row.saveTo, row.lineage);
  }

  /* ---------------------------------------------------------------------
     Perturbation
     --------------------------------------------------------------------- */

  /** The random choices of `_perturb` for one parameter: the factor drawn
      from `perturbation_factors` and the shift drawn from `[-1, 0, +1]`. */
  datatype PerturbDraw = PerturbDraw(factor: real, shift: int)

  predicate LegalPerturbDraws(ds: seq<PerturbDraw>, ps: seq<Param>, factors: seq<real>)
  {
    && |ds| == |ps|
    && forall i :: 0 <= i < |ds| ==>
         (|factors| > 0 ==> ds[i].factor in factors) && -1 <= ds[i].shift <= 1
  }

  predicate ShiftsOk(ds: seq<PerturbDraw>)
  {
    forall i :: 0 <= i < |ds| ==> -1 <= ds[i].shift <= 1
  }

  /** `self.parameter_range.get(name) or param.range`: an absent or empty
      override falls back to the declared range. */
  function Bounds(p: Param, parameterRange: map<string, seq<Value>>): (r: seq<Value>)
    ensures |r| > 0 <==> |p.range| > 0 || (p.name in parameterRange && |parameterRange[p.name]| > 0)
    ensures r != p.range ==> p.name in parameterRange && r == parameterRange[p.name]
  {
    if p.name in parameterRange && |parameterRange[p.name]| > 0 then parameterRange[p.name] else p.range
  }

  predicate AllNum(s: seq<Value>)
  {
    forall i :: 0 <= i < |s| ==> s[i].Num?
  }

  /** `min(s)` of a list of numbers. */
  function MinOf(s: seq<Value>): (m: real)
    requires |s| > 0 && AllNum(s)
    ensures forall i :: 0 <= i < |s| ==> m <= s[i].x
  {
    if |s| == 1 then s[0].x
    else var rest := MinOf(s[1..]); if s[0].x <= rest then s[0].x else rest
  }

  /** `max(s)` of a list of numbers. */
  function MaxOf(s: seq<Value>): (m: real)
    requires |s| > 0 && AllNum(s)
    ensures forall i :: 0 <= i < |s| ==> s[i].x <= m
  {
    if |s| == 1 then s[0].x
    else var rest := MaxOf(s[1..]); if s[0].x >= rest then s[0].x else rest
  }

  function RMax(a: real, b: real): real { if a >= b then a else b }
  function RMin(a: real, b: real): real { if a <= b then a else b }
  function IMax(a: int, b: int): int { if a >= b then a else b }
  function IMin(a: int, b: int): int { if a <= b then a else b }

  /** Python's `int(x)`: truncation toward zero. */
  function Trunc(x: real): int
  {
    if x >= 0.0 then x.Floor else -((-x).Floor)
  }

  /** `int(x)` drops the fractional part: it rounds toward zero. */
  lemma TruncTowardZero(x: real)
    ensures x >= 0.0 ==> 0.0 <= Trunc(x) as real <= x < Trunc(x) as real + 1.0
    ensures x < 0.0 ==> Trunc(x) as real - 1.0 < x <= Trunc(x) as real <= 0.0
  {
  }

  /** `values.index(v)`: the first position of `v`. */
  function IndexOf(values: seq<Value>, v: Value): (i: nat)
    requires v in values
    ensures i < |values| && values[i] == v
    ensures forall j :: 0 <= j < i ==> values[j] != v
  {
    if values[0] == v then 0 else 1 + IndexOf(values[1..], v)
  }

  /** The value times the factor, truncated with `int` for a Discrete parameter. */
  function Scaled(v: real, factor: real, kind: Kind): real
  {
    if kind == Discrete then Trunc(v * factor) as real else v * factor
  }

  /** `min(max(x, min(rng)), max(rng))`. */
  function Clamp(x: real, rng: seq<Value>): (y: real)
    requires |rng| > 0 && AllNum(rng)
    ensures MinOf(rng) <= y <= MaxOf(rng)
    ensures MinOf(rng) <= x <= MaxOf(rng) ==> y == x
  {
    assert MinOf(rng) <= rng[0].x <= MaxOf(rng);
    RMin(RMax(x, MinOf(rng)), MaxOf(rng))
  }

  /** What `_perturb` does to one parameter. */
  function PerturbParam(c: Config, p: Param, d: PerturbDraw, factors: seq<real>,
                        parameterRange: map<string, seq<Value>>): (r: Result<Config>)
    requires -1 <= d.shift <= 1
    ensures r.Ok? ==> r.value.Keys == c.Keys
    ensures r.Ok? ==> forall n :: n in c && n != p.name ==> r.value[n] == c[n]
    ensures p.kind == Unrecognized ==> r == Err(ValueError)
    ensures p.kind == Choice ==> r == Ok(c)
    ensures r.Ok? && (p.kind == Continuous || p.kind == Discrete) ==>
              var rng := Bounds(p, parameterRange);
              && |rng| > 0 && AllNum(rng) && p.name in c && r.value[p.name].Num?
              && MinOf(rng) <= r.value[p.name].x <= MaxOf(rng)
    ensures r.Ok? && p.kind == Ordinal ==>
              var values := Bounds(p, parameterRange);
              && p.name in c && c[p.name] in values
              && exists j :: 0 <= j < |values| && r.value[p.name] == values[j]
                   && IndexOf(values, c[p.name]) - 1 <= j <= IndexOf(values, c[p.name]) + 1
  {
    match p.kind
    case Continuous | Discrete =>
      if |factors| == 0 then Err(ValueError)
      else if p.name !in c then Err(KeyError)
      else if c[p.name].Str? then Err(TypeError)
      else
        var rng := Bounds(p, parameterRange);
        if |rng| == 0 then Err(ValueError)
        else if !AllNum(rng) then Err(TypeError)
        else Ok(c[p.name := Num(Clamp(Scaled(c[p.name].x, d.factor, p.kind), rng))])
    case Ordinal =>
      var values := Bounds(p, parameterRange);
      if p.name !in c then Err(KeyError)
      else if c[p.name] !in values then Err(ValueError)
      else
        var j := IMax(IMin(IndexOf(values, c[p.name]) + d.shift, |values| - 1), 0);
        var r := c[p.name := values[j]];
        assert r[p.name] == values[j];
        Ok(r)
    case Choice => Ok(c)
    case Unrecognized => Err(ValueError)
  }

  /** `_perturb` over the first `k` parameters. */
  function PerturbPrefix(c: Config, ps: seq<Param>, ds: seq<PerturbDraw>, k: nat, factors: seq<real>,
                         parameterRange: map<string, seq<Value>>): (r: Result<Config>)
    requires k <= |ps| && |ds| == |ps| && ShiftsOk(ds)
    ensures r.Ok? ==> r.value.Keys == c.Keys
    ensures (forall i :: 0 <= i < k ==> ps[i].kind == Choice) ==> r == Ok(c)
  {
    if k == 0 then Ok(c)
    else match PerturbPrefix(c, ps, ds, k - 1, factors, parameterRange)
      case Err(e) => Err(e)
      case Ok(m) => PerturbParam(m, ps[k - 1], ds[k - 1], factors, parameterRange)
  }

  /** A successful run succeeded on every shorter prefix. */
  lemma {:induction false} PrefixOk(c: Config, ps: seq<Param>, ds: seq<PerturbDraw>, j: nat, k: nat,
                                    factors: seq<real>, parameterRange: map<string, seq<Value>>)
    requires j <= k <= |ps| && |ds| == |ps| && ShiftsOk(ds)
    requires PerturbPrefix(c, ps, ds, k, factors, parameterRange).Ok?
    ensures PerturbPrefix(c, ps, ds, j, factors, parameterRange).Ok?
    decreases k - j
  {
    if j < k {
      PrefixOk(c, ps, ds, j + 1, k, factors, parameterRange);
    }
  }

  /** The first failure is the result. */
  lemma {:induction false} PrefixErr(c: Config, ps: seq<Param>, ds: seq<PerturbDraw>, j: nat, k: nat,
                                     factors: seq<real>, parameterRange: map<string, seq<Value>>)
    requires j <= k <= |ps| && |ds| == |ps| && ShiftsOk(ds)
    requires PerturbPrefix(c, ps, ds, j, factors, parameterRange).Err?
    ensures PerturbPrefix(c, ps, ds, k, factors, parameterRange) == PerturbPrefix(c, ps, ds, j, factors, parameterRange)
    decreases k - j
  {
    if j < k {
      PrefixErr(c, ps, ds, j, k - 1, factors, parameterRange);
    }
  }

  /** Later parameters, which have other names, leave the value that
      parameter `i` received alone; the keys never change. */
  lemma {:induction false} PerturbAt(c: Config, ps: seq<Param>, ds: seq<PerturbDraw>, i: nat, k: nat,
                                     factors: seq<real>, parameterRange: map<string, seq<Value>>)
    requires DistinctNames(ps) && i < k <= |ps| && |ds| == |ps| && ShiftsOk(ds)
    requires PerturbPrefix(c, ps, ds, k, factors, parameterRange).Ok?
    ensures PerturbPrefix(c, ps, ds, i + 1, factors, parameterRange).Ok?
    ensures var after := PerturbPrefix(c, ps, ds, i + 1, factors, parameterRange).value;
            var final := PerturbPrefix(c, ps, ds, k, factors, parameterRange).value;
            ps[i].name in after ==> ps[i].name in final && final[ps[i].name] == after[ps[i].name]
    decreases k
  {
    if k > i + 1 {
      PerturbAt(c, ps, ds, i, k - 1, factors, parameterRange);
    }
  }

  /** Keys not named by any parameter are untouched, and no key appears or
      disappears. */
  lemma {:induction false} PerturbFrame(c: Config, ps: seq<Param>, ds: seq<PerturbDraw>, k: nat,
                                        factors: seq<real>, parameterRange: map<string, seq<Value>>)
    requires k <= |ps| && |ds| == |ps| && ShiftsOk(ds)
    requires PerturbPrefix(c, ps, ds, k, factors, parameterRange).Ok?
    ensures var r := PerturbPrefix(c, ps, ds, k, factors, parameterRange).value;
            && r.Keys == c.Keys
            && forall n :: n in c && n !in NameSet(ps[..k]) ==> r[n] == c[n]
  {
    if k > 0 {
      PerturbFrame(c, ps, ds, k - 1, factors, parameterRange);
      assert forall n :: n in NameSet(ps[..k - 1]) ==> n in NameSet(ps[..k]) by {
        forall n | n in NameSet(ps[..k - 1]) ensures n in NameSet(ps[..k]) {
          var p :| p in ps[..k - 1] && p.name == n;
          assert p in ps[..k];
        }
      }
      assert ps[k - 1] in ps[..k];
    }
  }

  /** The properties `_perturb` promises, parameter by parameter: numeric
      values end within the bounds, Ordinal values move at most one
      position, Choice values stay, an unknown kind raises ValueError. */
  lemma PerturbProperties(c: Config, ps: seq<Param>, ds: seq<PerturbDraw>, i: nat,
                          factors: seq<real>, parameterRange: map<string, seq<Value>>)
    requires DistinctNames(ps) && i < |ps| && |ds| == |ps| && ShiftsOk(ds)
    requires PerturbPrefix(c, ps, ds, |ps|, factors, parameterRange).Ok?
    ensures var r := PerturbPrefix(c, ps, ds, |ps|, factors, parameterRange).value;
            var p := ps[i];
            && p.kind != Unrecognized
            && (p.kind == Choice && p.name in c ==> p.name in r && r[p.name] == c[p.name])
            && ((p.kind == Continuous || p.kind == Discrete) ==>
                  var rng := Bounds(p, parameterRange);
                  && |rng| > 0 && AllNum(rng) && p.name in r && r[p.name].Num?
                  && MinOf(rng) <= r[p.name].x <= MaxOf(rng))
            && (p.kind == Ordinal ==>
                  var values := Bounds(p, parameterRange);
                  && p.name in c && c[p.name] in values && p.name in r
                  && exists j :: 0 <= j < |values| && r[p.name] == values[j]
                       && IndexOf(values, c[p.name]) - 1 <= j <= IndexOf(values, c[p.name]) + 1)
  {
    var p := ps[i];
    PerturbAt(c, ps, ds, i, |ps|, factors, parameterRange);
    var before := PerturbPrefix(c, ps, ds, i, factors, parameterRange).value;
    var after := PerturbPrefix(c, ps, ds, i + 1, factors, parameterRange).value;
    PerturbFrame(c, ps, ds, i, factors, parameterRange);
    PerturbFrame(c, ps, ds, |ps|, factors, parameterRange);
    forall q | q in ps[..i] ensures q.name != p.name {
      var m :| 0 <= m < i && ps[..i][m] == q;
    }
    assert p.name !in NameSet(ps[..i]);
    if p.kind == Ordinal {
      var values := Bounds(p, parameterRange);
      assert p.name in before && before[p.name] in values;
      assert p.name in c && before[p.name] == c[p.name];
    }
  }

  /* ---------------------------------------------------------------------
     Bookkeeping of a child trial
     --------------------------------------------------------------------- */

  /** The end of `get_suggestion` for generation 2 on:
      `load_from = str(int(parent.save_to))`, `save_to = str(count)`, and the
      lineage grows by the new `load_from` and a comma.  A `save_to` that is
      not a decimal number makes `int` raise ValueError. */
  function Child(parent: Trial, params: Config, count: nat): (r: Result<Trial>)
    ensures r.Err? <==> ParseNat(parent.saveTo).None?
  {
    match ParseNat(parent.saveTo)
    case None => Err(ValueError)
    case Some(m) =>
      var loadFrom := NatToString(m);
      Ok(Trial(params, loadFrom, NatToString(count), parent.lineage + loadFrom + ","))
  }

  /** A child of a trial saved under number `m` loads checkpoint `m`, is
      saved under its own number, and extends the parent's lineage by `m`. */
  lemma ChildLineage(parent: Trial, params: Config, count: nat, m: nat)
    requires parent.saveTo == NatToString(m)
    ensures Child(parent, params, count)
            == Ok(Trial(params, parent.saveTo, NatToString(count), parent.lineage + parent.saveTo + ","))
    ensures ParseNat(Child(parent, params, count).value.saveTo) == Some(count)
  {
    ParseNatToString(m);
    ParseNatToString(count);
  }

  /** Everything `get_suggestion` does from generation 2 on. */
  function Offspring(ps: seq<Param>, results: seq<Row>, generation: int, size: nat, lowerIsBetter: bool,
                     order: seq<Row>, idx: int, ds: seq<PerturbDraw>, factors: seq<real>,
                     parameterRange: map<string, seq<Value>>, count: nat): (r: Result<Trial>)
    requires SortedPermutation(order, PreviousGeneration(results, generation, size), lowerIsBetter)
    requires size / 3 > 0 ==> 0 <= idx < size / 3
    requires |ds| == |ps| && ShiftsOk(ds)
    ensures r.Ok? ==> r.value.params.Keys == NameSet(ps) && r.value.saveTo == NatToString(count)
    ensures r.Ok? ==> GetCandidate(ps, results, generation, size, lowerIsBetter, order, idx).Ok?
  {
    match GetCandidate(ps, results, generation, size, lowerIsBetter, order, idx)
    case Err(e) => Err(e)
    case Ok(parent) =>
      match PerturbPrefix(parent.params, ps, ds, |ps|, factors, parameterRange)
      case Err(e) => Err(e)
      case Ok(params) => Child(parent, params, count)
  }

  class PopulationBasedTraining {
    const populationSize: nat
    const parameterRange: map<string, seq<Value>>
    const perturbationFactors: seq<real>
    var generation: int
    var count: nat
    const randomSampler: RandomSearch

    /** The random sampler has no budget. */
    ghost predicate Valid()
      reads this, randomSampler
    {
      randomSampler.maxNumTrials.None?
    }

    constructor (populationSize: nat, parameterRange: map<string, seq<Value>>, perturbationFactors: seq<real>)
      ensures Valid() && fresh(randomSampler)
      ensures this.populationSize == populationSize && this.parameterRange == parameterRange
      ensures this.perturbationFactors == perturbationFactors
      ensures generation == 0 && count == 0
    {
      this.populationSize := populationSize;
      this.parameterRange := parameterRange;
      this.perturbationFactors := perturbationFactors;
      generation := 0;
      count := 0;
      randomSampler := new RandomSearch(None);
    }

    /** `load(num_trials)`, as written: the counter is set before the
        division, which raises ZeroDivisionError on an empty population. */
    method Load(numTrials: nat) returns (e: Option<Error>)
      modifies this
      ensures count == numTrials
      ensures populationSize == 0 ==> e == Some(ZeroDivisionError) && generation == old(generation)
      ensures populationSize > 0 ==> e == None && generation == LoadGeneration(populationSize, numTrials)
    {
      count := numTrials;
      if populationSize == 0 {
        return Some(ZeroDivisionError);
      }
      generation := count / populationSize + 1;
      e := None;
    }

    /** Multiplies by the factor and, for a Discrete parameter, truncates. */
    static method Scale(v: real, factor: real, kind: Kind) returns (x: real)
      ensures x == Scaled(v, factor, kind)
    {
      x := v * factor;
      if kind == Discrete {
        x := Trunc(x) as real;
      }
    }

    /** A Continuous or Discrete parameter: multiply by the drawn factor,
        truncate a Discrete value with `int`, clamp to the bounds. */
    method ScaleAndClamp(c: Config, p: Param, d: PerturbDraw) returns (r: Result<Config>)
      requires p.kind == Continuous || p.kind == Discrete
      requires -1 <= d.shift <= 1
      ensures r == PerturbParam(c, p, d, perturbationFactors, parameterRange)
    {
      if |perturbationFactors| == 0 {
        return Err(ValueError);
      }
      if p.name !in c {
        return Err(KeyError);
      }
      if c[p.name].Str? {
        return Err(TypeError);
      }
      var x := Scale(c[p.name].x, d.factor, p.kind);
      var rng := Bounds(p, parameterRange);
      if |rng| == 0 {
        return Err(ValueError);
      }
      if !AllNum(rng) {
        return Err(TypeError);
      }
      x := RMax(x, MinOf(rng));
      x := RMin(x, MaxOf(rng));
      r := Ok(c[p.name := Num(x)]);
    }

    /** An Ordinal parameter: move the position of its value by the drawn
        shift, clamped to the list of values. */
    method ShiftOrdinal(c: Config, p: Param, d: PerturbDraw) returns (r: Result<Config>)
      requires p.kind == Ordinal && -1 <= d.shift <= 1
      ensures r == PerturbParam(c, p, d, perturbationFactors, parameterRange)
    {
      var values := Bounds(p, parameterRange);
      if p.name !in c {
        return Err(KeyError);
      }
      if c[p.name] !in values {
        return Err(ValueError);
      }
      var newIdx := IndexOf(values, c[p.name]) + d.shift;
      newIdx := IMin(newIdx, |values| - 1);
      newIdx := IMax(newIdx, 0);
      r := Ok(c[p.name := values[newIdx]]);
    }

    /** `_perturb`: updates the candidate parameter by parameter. */
    method Perturb(candidate: Config, ps: seq<Param>, ds: seq<PerturbDraw>) returns (r: Result<Config>)
      requires |ds| == |ps| && ShiftsOk(ds)
      ensures r == PerturbPrefix(candidate, ps, ds, |ps|, perturbationFactors, parameterRange)
    {
      var c := candidate;
      for k := 0 to |ps|
        invariant PerturbPrefix(candidate, ps, ds, k, perturbationFactors, parameterRange) == Ok(c)
      {
        var p := ps[k];
        var step: Result<Config>;
        if p.kind == Continuous || p.kind == Discrete {
          step := ScaleAndClamp(c, p, ds[k]);
        } else if p.kind == Ordinal {
          step := ShiftOrdinal(c, p, ds[k]);
        } else if p.kind == Choice {
          continue;
        } else {
          step := Err(ValueError);
        }
        if step.Err? {
          PrefixErr(candidate, ps, ds, k + 1, |ps|, perturbationFactors, parameterRange);
          return Err(step.error);
        }
        c := step.value;
      }
      r := Ok(c);
    }

    /** `get_suggestion`.  The counter moves first; generation 1 samples at
        random with empty bookkeeping, later generations perturb a parent
        from the best third of the previous generation.  `draws`, `order`,
        `idx` and `ds` are the random sample, the sorted population, the
        `randint` draw and the perturbation draws. */
    method GetSuggestion(ps: seq<Param>, results: seq<Row>, lowerIsBetter: bool, draws: seq<Value>,
                         order: seq<Row>, idx: int, ds: seq<PerturbDraw>)
        returns (r: Result<Trial>)
      requires Valid() && LegalDraws(ps, draws)
      requires populationSize > 0 ==>
                 SortedPermutation(order, PreviousGeneration(results, GenerationAfter(populationSize, count, generation, 1),
                                                             populationSize), lowerIsBetter)
      requires populationSize / 3 > 0 ==> 0 <= idx < populationSize / 3
      requires LegalPerturbDraws(ds, ps, perturbationFactors) && ShiftsOk(ds)
      modifies this, randomSampler
      ensures Valid() && count == old(count) + 1
      ensures populationSize == 0 ==> r == Err(ZeroDivisionError) && generation == old(generation)
      ensures populationSize > 0 ==> generation == GenerationAfter(populationSize, old(count), old(generation), 1)
      ensures populationSize > 0 && generation == 1 ==>
                r == Ok(Trial(Bind(ps, draws), "", NatToString(count), ""))
      ensures populationSize > 0 && generation != 1 ==>
                r == Offspring(ps, results, generation, populationSize, lowerIsBetter, order, idx, ds,
                               perturbationFactors, parameterRange, count)
    {
      if populationSize == 0 {
        count := count + 1;
        return Err(ZeroDivisionError);
      }
      Advance();
      if generation == 1 {
        var trial := randomSampler.GetSuggestion(ps, draws);
        return Ok(Trial(trial.value, "", NatToString(count), ""));
      }
      r := Breed(ps, results, lowerIsBetter, order, idx, ds);
    }

    /** The counter moves to the next trial, which opens a new generation
        when it is the first of a block of `populationSize`. */
    method Advance()
      requires populationSize > 0
      modifies this
      ensures count == old(count) + 1
      ensures generation == GenerationAfter(populationSize, old(count), old(generation), 1)
    {
      count := count + 1;
      if count % populationSize == 1 {
        generation := generation + 1;
      }
    }

    /** A trial of a later generation: a parent drawn from the best third
        of the previous generation, perturbed, and loading from the trial
        the parent saved to. */
    method Breed(ps: seq<Param>, results: seq<Row>, lowerIsBetter: bool, order: seq<Row>, idx: int,
                 ds: seq<PerturbDraw>) returns (r: Result<Trial>)
      requires SortedPermutation(order, PreviousGeneration(results, generation, populationSize), lowerIsBetter)
      requires populationSize / 3 > 0 ==> 0 <= idx < populationSize / 3
      requires |ds| == |ps| && ShiftsOk(ds)
      ensures r == Offspring(ps, results, generation, populationSize, lowerIsBetter, order, idx, ds,
                             perturbationFactors, parameterRange, count)
    {
      var candidate := GetCandidate(ps, results, generation, populationSize, lowerIsBetter, order, idx);
      if candidate.Err? {
        return Err(candidate.error);
      }
      var parent := candidate.value;
      var params := Perturb(parent.params, ps, ds);
      if params.Err? {
        return Err(params.error);
      }
      var saved := ParseNat(parent.saveTo);
      if saved.None? {
        return Err(ValueError);
      }
      var loadFrom := NatToString(saved.value);
      r := Ok(Trial(params.value, loadFrom, NatToString(count), parent.lineage + loadFrom + ","));
    }
  }
}
