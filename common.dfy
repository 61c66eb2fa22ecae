/** Shared vocabulary of the search algorithms in sherpa/algorithms.py:
    parameter declarations, realised values, rows of the results table,
    suggestions (parameter-name to value dictionaries), and the few helpers
    that several algorithms use in the same way. */
module Common {

  datatype Option<+T> = None | Some(value: T)

  /** The Python exceptions the modelled code can raise.  DrawsExhausted is
      not a Python exception: it marks a run of the model whose supplied
      random draws ran out while the original would keep drawing. */
  datatype Error = AssertionError | ValueError | IndexError | KeyError | TypeError | ZeroDivisionError
                | DrawsExhausted

  datatype Result<+T> = Ok(value: T) | Err(error: Error)

  /** A realised parameter value: Choice and Ordinal ranges may hold numbers
      or strings; Continuous and Discrete values are numbers. */
  datatype Value = Num(x: real) | Str(s: string)

  /** The parameter classes of sherpa.core; Unrecognized stands for any
      other Parameter subclass. */
  datatype Kind = Choice | Continuous | Discrete | Ordinal | Unrecognized

  datatype Scale = Linear | Log

  /** A declared parameter.  For Continuous and Discrete, `range` is
      [low, high]; for Choice and Ordinal it lists the values. */
  datatype Param = Param(name: string, kind: Kind, range: seq<Value>, scale: Scale)

  datatype Status = Intermediate | Completed | Stopped | Failed

  /** A suggestion or the parameter columns of one row. */
  type Config = map<string, Value>

  /** One row of the results table.  `objective == None` stands for NaN.
      `loadFrom`, `saveTo` and `lineage` are the bookkeeping columns that
      population based training adds to its trials. */
  datatype Row = Row(trialId: int, status: Status, iteration: int, params: Config,
                     objective: Option<real>, loadFrom: string, saveTo: string,
                     lineage: string)

  function NameSet(ps: seq<Param>): set<string>
  {
    set p | p in ps :: p.name
  }

  /** Parameter names are unique within one declaration. */
  predicate DistinctNames(ps: seq<Param>)
  {
    forall i, j :: 0 <= i < j < |ps| ==> ps[i].name != ps[j].name
  }

  /** No element occurs twice. */
  predicate Distinct<T(==)>(s: seq<T>)
  {
    forall i, j :: 0 <= i < j < |s| ==> s[i] != s[j]
  }

  /** `v` is a value that `p.sample()` can draw. */
  predicate Legal(p: Param, v: Value)
  {
    match p.kind
    case Choice => v in p.range
    case Ordinal => v in p.range
    case Continuous =>
      v.Num? && |p.range| == 2 && p.range[0].Num? && p.range[1].Num?
      && p.range[0].x <= v.x <= p.range[1].x
    case Discrete =>
      v.Num? && |p.range| == 2 && p.range[0].Num? && p.range[1].Num?
      && p.range[0].x <= v.x <= p.range[1].x && v.x == v.x.Floor as real
    case Unrecognized => true
  }

  /** `draws` holds one legal sample per parameter. */
  predicate LegalDraws(ps: seq<Param>, draws: seq<Value>)
  {
    |draws| == |ps| && forall i :: 0 <= i < |ps| ==> Legal(ps[i], draws[i])
  }

  /** The dictionary `{p.name: draw for p in ps}`; a later parameter of the
      same name overwrites an earlier one, as in a dict comprehension. */
  function Bind(ps: seq<Param>, draws: seq<Value>): (c: Config)
    requires |draws| == |ps|
    ensures c.Keys == NameSet(ps)
    ensures DistinctNames(ps) ==> forall i :: 0 <= i < |ps| ==> c[ps[i].name] == draws[i]
    decreases |ps|
  {
    if |ps| == 0 then map[]
    else
      var n := |ps| - 1;
      var front := Bind(ps[..n], draws[..n]);
      assert ps == ps[..n] + [ps[n]];
      assert NameSet(ps) == NameSet(ps[..n]) + {ps[n].name};
      front[ps[n].name := draws[n]]
  }

  /** A configuration that assigns every parameter a legal value. */
  predicate LegalConfig(ps: seq<Param>, c: Config)
  {
    forall p :: p in ps ==> p.name in c && Legal(p, c[p.name])
  }

  lemma BindLegal(ps: seq<Param>, draws: seq<Value>)
    requires DistinctNames(ps) && LegalDraws(ps, draws)
    ensures LegalConfig(ps, Bind(ps, draws))
  {
    var c := Bind(ps, draws);
    forall p | p in ps ensures p.name in c && Legal(p, c[p.name]) {
      var i :| 0 <= i < |ps| && ps[i] == p;
    }
  }

  /** `row.loc[names].to_dict()`: the parameter columns of a row. */
  function Project(c: Config, ps: seq<Param>): (r: Config)
    requires NameSet(ps) <= c.Keys
    ensures r.Keys == NameSet(ps)
    ensures forall p :: p in ps ==> r[p.name] == c[p.name]
  {
    map k | k in c.Keys && k in NameSet(ps) :: c[k]
  }

  /** Every row of the table has a column for every parameter. */
  predicate HasColumns(rows: seq<Row>, ps: seq<Param>)
  {
    forall i :: 0 <= i < |rows| ==> NameSet(ps) <= rows[i].params.Keys
  }

  /** The budget test `max_num_trials and count >= max_num_trials`: None and
      0 are falsy in Python, so both mean "no budget". */
  predicate Exhausted(maxNumTrials: Option<int>, count: int)
    ensures maxNumTrials.None? || maxNumTrials == Some(0) ==> !Exhausted(maxNumTrials, count)
    ensures maxNumTrials.Some? && maxNumTrials.value > 0 ==>
              (Exhausted(maxNumTrials, count) <==> count >= maxNumTrials.value)
  {
    maxNumTrials.Some? && maxNumTrials.value != 0 && count >= maxNumTrials.value
  }

  /** `results.loc[results['Status'] != 'INTERMEDIATE', :]`, order kept. */
  function CompletedRows(rows: seq<Row>): (c: seq<Row>)
    ensures |c| <= |rows|
    ensures forall r :: r in c <==> r in rows && r.status != Intermediate
    ensures |c| == 0 <==> forall i :: 0 <= i < |rows| ==> rows[i].status == Intermediate
  {
    if |rows| == 0 then []
    else
      (if rows[0].status != Intermediate then [rows[0]] else []) + CompletedRows(rows[1..])
  }

  function Digit(d: nat): (c: char)
    requires d < 10
    ensures '0' <= c <= '9'
  {
    "0123456789"[d]
  }

  function DigitValue(c: char): (d: nat)
    requires '0' <= c <= '9'
    ensures d < 10 && Digit(d) == c
  {
    (c as int - '0' as int) as nat
  }

  predicate AllDigits(s: string)
  {
    forall i :: 0 <= i < |s| ==> '0' <= s[i] <= '9'
  }

  /** `str(n)` for a non-negative integer. */
  function NatToString(n: nat): (s: string)
    ensures |s| >= 1 && AllDigits(s)
  {
    if n < 10 then [Digit(n)] else NatToString(n / 10) + [Digit(n % 10)]
  }

  /** `int(s)` on a string of decimal digits; any other string raises
      ValueError in Python, here None. */
  function ParseNat(s: string): (r: Option<nat>)
    ensures r.Some? <==> |s| > 0 && AllDigits(s)
  {
    if |s| == 0 || !('0' <= s[|s| - 1] <= '9') then None
    else if |s| == 1 then Some(DigitValue(s[0]))
    else match ParseNat(s[..|s| - 1])
      case None => None
      case Some(m) => Some(m * 10 + DigitValue(s[|s| - 1]))
  }

  /** `int(str(n)) == n`: a trial number written as a string reads back. */
  lemma {:induction false} ParseNatToString(n: nat)
    ensures ParseNat(NatToString(n)) == Some(n)
  {
    if n >= 10 {
      var s := NatToString(n);
      var front := NatToString(n / 10);
      assert s[..|s| - 1] == front;
      ParseNatToString(n / 10);
    }
  }

  /** Growing a prefix by one element. */
  lemma PrefixStep<T>(s: seq<T>, i: nat)
    requires i < |s|
    ensures s[..i + 1] == s[..i] + [s[i]]
  {
  }
}
