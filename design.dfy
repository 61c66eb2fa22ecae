/** The column layout of `BayesianOptimization._get_design_matrix` in
    sherpa/algorithms.py: which parameter each column of the design matrix
    encodes, how a value becomes a number in it, and the metadata recorded
    per column (type, scale, name, bounds). */
module Design {
  import opened Common

  /** The `xtypes` entries: 'continuous' or 'discrete'. */
  datatype XType = ContinuousCol | DiscreteCol

  /** A column of the design matrix: an indicator of level `index` of a
      Choice parameter, or the value of any other parameter. */
  datatype Column = OneHot(param: string, index: nat, level: Value) | Numeric(p: Param)

  /** One indicator column per entry of `range`, in declaration order. */
  function OneHotColumns(name: string, range: seq<Value>): (cs: seq<Column>)
    ensures |cs| == |range|
    ensures forall i :: 0 <= i < |range| ==> cs[i] == OneHot(name, i, range[i])
  {
    if |range| == 0 then []
    else
      var n := |range| - 1;
      OneHotColumns(name, range[..n]) + [OneHot(name, n, range[n])]
  }

  /** The columns of one parameter: none for a single-valued Choice. */
  function ParamColumns(p: Param): (cs: seq<Column>)
    ensures forall c :: c in cs ==> Source(c) == p.name
    ensures p.kind != Choice ==> cs == [Numeric(p)]
    ensures p.kind == Choice ==> (forall c :: c in cs ==> c.OneHot?) && (|cs| == 0 <==> |p.range| <= 1)
  {
    if p.kind == Choice then
      if |p.range| == 1 then [] else OneHotColumns(p.name, p.range)
    else [Numeric(p)]
  }

  /** All columns, parameter by parameter in declaration order. */
  function Columns(ps: seq<Param>): (cs: seq<Column>)
    ensures forall c :: c in cs && c.Numeric? ==> c.p in ps && c.p.kind != Choice
    ensures forall p :: p in ps && p.kind != Choice ==> Numeric(p) in cs
    decreases |ps|
  {
    if |ps| == 0 then []
    else Columns(ps[..|ps| - 1]) + ParamColumns(ps[|ps| - 1])
  }

  /** `num_features`, the width allocated before the loop: every Choice
      counts its whole range, even a single value. */
  function NumFeatures(ps: seq<Param>): nat
    decreases |ps|
  {
    if |ps| == 0 then 0
    else
      var p := ps[|ps| - 1];
      NumFeatures(ps[..|ps| - 1]) + (if p.kind == Choice then |p.range| else 1)
  }

  /** The sum of the range sizes of the Choice parameters with more than
      one value. */
  function ChoiceWidth(ps: seq<Param>): nat
    decreases |ps|
  {
    if |ps| == 0 then 0
    else
      var p := ps[|ps| - 1];
      ChoiceWidth(ps[..|ps| - 1]) + (if p.kind == Choice && |p.range| > 1 then |p.range| else 0)
  }

  /** The number of parameters that are not Choice. */
  function NonChoiceCount(ps: seq<Param>): nat
    decreases |ps|
  {
    if |ps| == 0 then 0
    else NonChoiceCount(ps[..|ps| - 1]) + (if ps[|ps| - 1].kind != Choice then 1 else 0)
  }

  /** The matrix has one column per level of each Choice with more than
      one level plus one per other parameter, and fits the allocation. */
  lemma {:induction false} ColumnCount(ps: seq<Param>)
    ensures |Columns(ps)| == ChoiceWidth(ps) + NonChoiceCount(ps)
    ensures |Columns(ps)| <= NumFeatures(ps)
    decreases |ps|
  {
    if |ps| > 0 {
      ColumnCount(ps[..|ps| - 1]);
    }
  }

  lemma ColumnsPrefix(ps: seq<Param>, k: nat)
    requires k < |ps|
    ensures Columns(ps[..k + 1]) == Columns(ps[..k]) + ParamColumns(ps[k])
  {
    var front := ps[..k + 1];
    assert front[..k] == ps[..k];
  }

  /** The columns of the first `j` parameters begin the columns of all. */
  lemma {:induction false} ColumnsMonotone(ps: seq<Param>, j: nat)
    requires j <= |ps|
    ensures Columns(ps[..j]) <= Columns(ps)
    decreases |ps| - j
  {
    if j < |ps| {
      ColumnsMonotone(ps, j + 1);
      ColumnsPrefix(ps, j);
    } else {
      assert ps[..j] == ps;
    }
  }

  /** Column `i` of the first `j` parameters is column `i` of all. */
  lemma {:induction false} ColumnsKeep(ps: seq<Param>, j: nat, i: nat)
    requires j <= |ps| && i < |Columns(ps[..j])|
    ensures i < |Columns(ps)| && Columns(ps)[i] == Columns(ps[..j])[i]
    decreases |ps| - j
  {
    if j < |ps| {
      ColumnsPrefix(ps, j);
      assert Columns(ps[..j + 1])[i] == Columns(ps[..j])[i];
      ColumnsKeep(ps, j + 1, i);
    } else {
      assert ps[..j] == ps;
    }
  }

  lemma ColumnsOfParam(ps: seq<Param>, k: nat)
    requires k < |ps|
    ensures Columns(ps[..k]) + ParamColumns(ps[k]) <= Columns(ps)
  {
    ColumnsPrefix(ps, k);
    ColumnsMonotone(ps, k + 1);
  }

  /* ---------------------------------------------------------------------
     Metadata: `xtypes`, `xnames`, `xscales`, `xbounds`
     --------------------------------------------------------------------- */

  function ColumnType(c: Column): XType
  {
    match c
    case OneHot(_, _, _) => DiscreteCol
    case Numeric(p) => if p.kind == Continuous then ContinuousCol else DiscreteCol
  }

  /** `p.name + '_' + str(i)` for an indicator, the parameter's name otherwise. */
  function ColumnName(c: Column): string
  {
    match c
    case OneHot(name, i, _) => name + "_" + NatToString(i)
    case Numeric(p) => p.name
  }

  /** The `xtypes` of the first `n` columns, keyed by position, recorded
      one column after another. */
  function TypesUpTo(cols: seq<Column>, n: nat): map<nat, XType>
    requires n <= |cols|
  {
    if n == 0 then map[] else TypesUpTo(cols, n - 1)[n - 1 := ColumnType(cols[n - 1])]
  }

  /** The `xnames` of the first `n` columns. */
  function NamesUpTo(cols: seq<Column>, n: nat): map<nat, string>
    requires n <= |cols|
  {
    if n == 0 then map[] else NamesUpTo(cols, n - 1)[n - 1 := ColumnName(cols[n - 1])]
  }

  /** The `xscales` of the first `n` columns: only the non-Choice columns
      record a scale. */
  function ScalesUpTo(cols: seq<Column>, n: nat): map<nat, Scale>
    requires n <= |cols|
  {
    if n == 0 then map[]
    else
      var rest := ScalesUpTo(cols, n - 1);
      if cols[n - 1].Numeric? then rest[n - 1 := cols[n - 1].p.scale] else rest
  }

  /** `xtypes` holds the type of each of the first `n` columns under its
      position, and nothing else. */
  lemma {:induction false} TypesAt(cols: seq<Column>, n: nat)
    requires n <= |cols|
    ensures forall j :: j in TypesUpTo(cols, n) <==> 0 <= j < n
    ensures forall j :: 0 <= j < n ==> TypesUpTo(cols, n)[j] == ColumnType(cols[j])
  {
    if n > 0 {
      TypesAt(cols, n - 1);
    }
  }

  /** `xnames` holds the name of each of the first `n` columns under its
      position, and nothing else. */
  lemma NamesAt(cols: seq<Column>, n: nat)
    requires n <= |cols|
    ensures forall j :: j in NamesUpTo(cols, n) <==> 0 <= j < n
    ensures forall j :: 0 <= j < n ==> NamesUpTo(cols, n)[j] == ColumnName(cols[j])
  {
    NamesDomain(cols, n);
    forall j | 0 <= j < n
      ensures NamesUpTo(cols, n)[j] == ColumnName(cols[j])
    {
      NameAt(cols, n, j);
    }
  }

  lemma {:induction false} NamesDomain(cols: seq<Column>, n: nat)
    requires n <= |cols|
    ensures forall j :: j in NamesUpTo(cols, n) <==> 0 <= j < n
  {
    if n > 0 {
      NamesDomain(cols, n - 1);
    }
  }

  lemma {:induction false} NameAt(cols: seq<Column>, n: nat, j: nat)
    requires j < n <= |cols|
    ensures j in NamesUpTo(cols, n) && NamesUpTo(cols, n)[j] == ColumnName(cols[j])
  {
    if j < n - 1 {
      NameAt(cols, n - 1, j);
    }
  }

  /** `xscales` holds a scale exactly for the non-Choice columns among the
      first `n`: the scale of their parameter. */
  lemma {:induction false} ScalesAt(cols: seq<Column>, n: nat)
    requires n <= |cols|
    ensures forall j :: j in ScalesUpTo(cols, n) <==> 0 <= j < n && cols[j].Numeric?
    ensures forall j :: 0 <= j < n && cols[j].Numeric? ==> ScalesUpTo(cols, n)[j] == cols[j].p.scale
  {
    if n > 0 {
      ScalesAt(cols, n - 1);
    }
  }

  /** `xtypes` of the whole layout. */
  function XTypes(ps: seq<Param>): (t: map<nat, XType>)
    ensures forall j :: j in t <==> 0 <= j < |Columns(ps)|
    ensures forall j :: j in t ==>
              (t[j] == ContinuousCol <==> Columns(ps)[j].Numeric? && Columns(ps)[j].p.kind == Continuous)
  {
    TypesAt(Columns(ps), |Columns(ps)|);
    TypesUpTo(Columns(ps), |Columns(ps)|)
  }

  /** `xnames` of the whole layout. */
  function XNames(ps: seq<Param>): (n: map<nat, string>)
    ensures forall j :: j in n <==> 0 <= j < |Columns(ps)|
    ensures forall j :: j in n && Columns(ps)[j].Numeric? ==> n[j] == Columns(ps)[j].p.name
  {
    NamesAt(Columns(ps), |Columns(ps)|);
    NamesUpTo(Columns(ps), |Columns(ps)|)
  }

  /** `xscales` of the whole layout. */
  function XScales(ps: seq<Param>): (s: map<nat, Scale>)
    ensures forall j :: j in s <==> 0 <= j < |Columns(ps)| && Columns(ps)[j].Numeric?
    ensures forall j :: j in s ==> s[j] == Columns(ps)[j].p.scale
  {
    ScalesAt(Columns(ps), |Columns(ps)|);
    ScalesUpTo(Columns(ps), |Columns(ps)|)
  }

  /** What `_get_design_matrix` records besides the matrix: `xtypes`,
      `xnames` and `xscales` keyed by column, and the list `xbounds`. */
  datatype Meta = Meta(types: map<nat, XType>, names: map<nat, string>, scales: map<nat, Scale>,
                       bounds: seq<(Value, Value)>)

  /** `m` holds the types, names and scales of the first `n` columns of
      `cols`. */
  predicate Metadata(cols: seq<Column>, n: nat, m: Meta)
  {
    && n <= |cols|
    && m.types == TypesUpTo(cols, n) && m.names == NamesUpTo(cols, n) && m.scales == ScalesUpTo(cols, n)
  }

  /** Indicator columns record no scale. */
  lemma {:induction false} ScalesSkipIndicators(cols: seq<Column>, col: nat, name: string, range: seq<Value>, m: nat)
    requires col + m <= |cols| && m <= |range|
    requires forall i :: 0 <= i < m ==> cols[col + i] == OneHot(name, i, range[i])
    ensures ScalesUpTo(cols, col + m) == ScalesUpTo(cols, col)
  {
    if m > 0 {
      ScalesSkipIndicators(cols, col, name, range, m - 1);
      assert cols[col + (m - 1)] == OneHot(name, m - 1, range[m - 1]);
    }
  }

  /** The bounds a parameter contributes: its two bounds for a Continuous
      parameter, nothing otherwise. */
  function ParamBounds(p: Param): seq<(Value, Value)>
  {
    if p.kind == Continuous && |p.range| >= 2 then [(p.range[0], p.range[1])] else []
  }

  /** The `xbounds` list: the bounds of the Continuous parameters, in
      declaration order. */
  function XBounds(ps: seq<Param>): (b: seq<(Value, Value)>)
    ensures |b| <= |ps|
    ensures forall x :: x in b ==> exists p :: p in ps && p.kind == Continuous && |p.range| >= 2
                                               && x == (p.range[0], p.range[1])
    decreases |ps|
  {
    if |ps| == 0 then [] else XBounds(ps[..|ps| - 1]) + ParamBounds(ps[|ps| - 1])
  }

  lemma XBoundsPrefix(ps: seq<Param>, k: nat)
    requires k < |ps|
    ensures XBounds(ps[..k + 1]) == XBounds(ps[..k]) + ParamBounds(ps[k])
  {
    assert ps[..k + 1][..k] == ps[..k];
  }

  /** The number of columns of type 'continuous'. */
  function ContinuousCount(cols: seq<Column>): nat
  {
    if |cols| == 0 then 0
    else (if ColumnType(cols[0]) == ContinuousCol then 1 else 0) + ContinuousCount(cols[1..])
  }

  lemma {:induction false} ContinuousCountAppend(a: seq<Column>, b: seq<Column>)
    ensures ContinuousCount(a + b) == ContinuousCount(a) + ContinuousCount(b)
  {
    if |a| > 0 {
      assert (a + b)[1..] == a[1..] + b;
      ContinuousCountAppend(a[1..], b);
    } else {
      assert a + b == b;
    }
  }

  lemma {:induction false} OneHotNotContinuous(cs: seq<Column>)
    requires forall i :: 0 <= i < |cs| ==> cs[i].OneHot?
    ensures ContinuousCount(cs) == 0
  {
    if |cs| > 0 {
      OneHotNotContinuous(cs[1..]);
    }
  }

  /** Every well-formed Continuous parameter gets exactly one bounds entry
      and one 'continuous' column, so `xbounds` lines up with the
      continuous columns. */
  lemma {:induction false} BoundsPerContinuousColumn(ps: seq<Param>)
    requires forall p :: p in ps && p.kind == Continuous ==> |p.range| >= 2
    ensures |XBounds(ps)| == ContinuousCount(Columns(ps))
    decreases |ps|
  {
    if |ps| > 0 {
      assert forall p :: p in ps[..|ps| - 1] ==> p in ps;
      BoundsPerContinuousColumn(ps[..|ps| - 1]);
      ContinuousCountAppend(Columns(ps[..|ps| - 1]), ParamColumns(ps[|ps| - 1]));
      ParamBoundsCount(ps[|ps| - 1]);
    }
  }

  /** One bounds entry per 'continuous' column of a parameter. */
  lemma ParamBoundsCount(p: Param)
    requires p.kind == Continuous ==> |p.range| >= 2
    ensures |ParamBounds(p)| == ContinuousCount(ParamColumns(p))
  {
    if p.kind == Choice {
      OneHotNotContinuous(ParamColumns(p));
    } else {
      assert ParamColumns(p)[1..] == [];
    }
  }

  /** The indicator columns of one Choice have distinct names. */
  lemma OneHotNamesDistinct(name: string, range: seq<Value>, i: nat, j: nat)
    requires i < |range| && j < |range| && i != j
    ensures ColumnName(OneHotColumns(name, range)[i]) != ColumnName(OneHotColumns(name, range)[j])
  {
    var a, b := NatToString(i), NatToString(j);
    if name + "_" + a == name + "_" + b {
      assert a == (name + "_" + a)[|name| + 1..];
      assert b == (name + "_" + b)[|name| + 1..];
      ParseNatToString(i);
      ParseNatToString(j);
      assert false;
    }
  }

  /* ---------------------------------------------------------------------
     Cells
     --------------------------------------------------------------------- */

  /** The parameter a column reads. */
  function Source(c: Column): string
  {
    match c
    case OneHot(name, _, _) => name
    case Numeric(p) => p.name
  }

  /** The entry of column `c` for a row whose parameter values are `row`:
      1.0 or 0.0 for an indicator, the value (through `log10` on a log
      scale) otherwise.  A string in a numeric column cannot be stored in
      the float array: ValueError. */
  function Cell(c: Column, row: Config, log10: real -> real): (r: Result<real>)
    requires Source(c) in row
    ensures c.OneHot? ==> r == Ok(if row[c.param] == c.level then 1.0 else 0.0)
    ensures c.Numeric? ==> (r.Err? <==> row[c.p.name].Str?)
  {
    match c
    case OneHot(name, _, level) => Ok(if row[name] == level then 1.0 else 0.0)
    case Numeric(p) =>
      match row[p.name]
      case Str(_) => Err(ValueError)
      case Num(x) => Ok(if p.scale == Log then log10(x) else x)
  }

  /** Every row has a value for every column's parameter. */
  predicate RowsCover(cols: seq<Column>, rows: seq<Config>)
  {
    forall i, j :: 0 <= i < |rows| && 0 <= j < |cols| ==> Source(cols[j]) in rows[i]
  }

  /** The error that filling column `c` raises, if any: ValueError for a
      string value, then IndexError when a Continuous parameter has no
      second bound to record. */
  function ColumnError(c: Column, rows: seq<Config>): (e: Option<Error>)
    requires forall i :: 0 <= i < |rows| ==> Source(c) in rows[i]
    ensures c.OneHot? ==> e.None?
    ensures e.Some? ==> e.value == ValueError || e.value == IndexError
    ensures e.None? && c.Numeric? ==>
              (forall i :: 0 <= i < |rows| ==> rows[i][Source(c)].Num?)
              && (c.p.kind == Continuous ==> |c.p.range| >= 2)
  {
    match c
    case OneHot(_, _, _) => None
    case Numeric(p) =>
      assert Source(c) == p.name;
      if exists i :: 0 <= i < |rows| && rows[i][p.name].Str? then Some(ValueError)
      else if p.kind == Continuous && |p.range| < 2 then Some(IndexError)
      else None
  }

  /** The error of the first failing column. */
  function FirstError(cols: seq<Column>, rows: seq<Config>): (e: Option<Error>)
    requires RowsCover(cols, rows)
    ensures e.None? <==> forall j :: 0 <= j < |cols| ==> ColumnError(cols[j], rows).None?
  {
    if |cols| == 0 then None
    else
      match ColumnError(cols[0], rows)
      case Some(e) => Some(e)
      case None =>
        assert RowsCover(cols[1..], rows) by {
          forall i, j | 0 <= i < |rows| && 0 <= j < |cols[1..]| ensures Source(cols[1..][j]) in rows[i] {
            assert cols[1..][j] == cols[j + 1];
          }
        }
        var rest := FirstError(cols[1..], rows);
        assert forall j :: 0 < j < |cols| ==> cols[j] == cols[1..][j - 1];
        rest
  }

  lemma {:induction false} FirstErrorAppend(a: seq<Column>, b: seq<Column>, rows: seq<Config>)
    requires RowsCover(a + b, rows)
    ensures RowsCover(a, rows) && RowsCover(b, rows)
    ensures FirstError(a + b, rows) == if FirstError(a, rows).Some? then FirstError(a, rows) else FirstError(b, rows)
  {
    assert RowsCover(a, rows) by {
      forall i, j | 0 <= i < |rows| && 0 <= j < |a| ensures Source(a[j]) in rows[i] {
        assert a[j] == (a + b)[j];
      }
    }
    assert RowsCover(b, rows) by {
      forall i, j | 0 <= i < |rows| && 0 <= j < |b| ensures Source(b[j]) in rows[i] {
        assert b[j] == (a + b)[|a| + j];
      }
    }
    if |a| > 0 {
      assert (a + b)[1..] == a[1..] + b;
      FirstErrorAppend(a[1..], b, rows);
    } else {
      assert a + b == b;
    }
  }

  /** Every column reads one of the declared parameters. */
  lemma {:induction false} ColumnSources(ps: seq<Param>)
    ensures forall j :: 0 <= j < |Columns(ps)| ==> Source(Columns(ps)[j]) in NameSet(ps)
    decreases |ps|
  {
    if |ps| > 0 {
      var n := |ps| - 1;
      ColumnSources(ps[..n]);
      assert NameSet(ps[..n]) <= NameSet(ps) by {
        forall p | p in ps[..n] ensures p in ps { }
      }
      assert ps[n] in ps;
      var front, own := Columns(ps[..n]), ParamColumns(ps[n]);
      forall j | 0 <= j < |front + own| ensures Source((front + own)[j]) in NameSet(ps) {
        if j >= |front| {
          assert (front + own)[j] == own[j - |front|];
        }
      }
    }
  }

  lemma ColumnOk(c: Column, rows: seq<Config>, i: nat, log10: real -> real)
    requires forall k :: 0 <= k < |rows| ==> Source(c) in rows[k]
    requires ColumnError(c, rows).None? && i < |rows|
    ensures Cell(c, rows[i], log10).Ok?
  {
  }

  /* ---------------------------------------------------------------------
     One-hot blocks
     --------------------------------------------------------------------- */

  function Sum(xs: seq<real>): real
  {
    if |xs| == 0 then 0.0 else xs[0] + Sum(xs[1..])
  }

  /** The indicator entries of a Choice parameter for value `v`. */
  function Indicators(range: seq<Value>, v: Value): (xs: seq<real>)
    ensures |xs| == |range|
    ensures forall i :: 0 <= i < |range| ==> xs[i] == if range[i] == v then 1.0 else 0.0
  {
    seq(|range|, i requires 0 <= i < |range| => if range[i] == v then 1.0 else 0.0)
  }

  /** The block of indicator columns of a Choice parameter holds, for a
      row, exactly `Indicators(range, value)`. */
  lemma OneHotCells(p: Param, row: Config, log10: real -> real)
    requires p.kind == Choice && |p.range| != 1 && p.name in row
    ensures var cs := ParamColumns(p);
            forall i :: 0 <= i < |cs| ==> Cell(cs[i], row, log10) == Ok(Indicators(p.range, row[p.name])[i])
  {
  }

  lemma {:induction false} SumOfIndicators(range: seq<Value>, v: Value)
    requires Distinct(range)
    ensures Sum(Indicators(range, v)) == if v in range then 1.0 else 0.0
  {
    if |range| > 0 {
      var tail := range[1..];
      assert Distinct(tail) by {
        forall i, j | 0 <= i < j < |tail| ensures tail[i] != tail[j] {
          assert tail[i] == range[i + 1] && tail[j] == range[j + 1];
        }
      }
      SumOfIndicators(tail, v);
      assert Indicators(range, v)[1..] == Indicators(tail, v);
      if range[0] == v {
        assert v !in tail by {
          forall i | 0 <= i < |tail| ensures tail[i] != v {
            assert tail[i] == range[i + 1];
          }
        }
      }
      assert v in range <==> range[0] == v || v in tail;
    }
  }

  /** The first level whose indicator is 1, read back as a value; None
      when no indicator is set. */
  function DecodeIndicators(range: seq<Value>, xs: seq<real>): (v: Option<Value>)
    requires |xs| == |range|
    ensures v.Some? ==> v.value in range
  {
    if |range| == 0 then None
    else if xs[0] == 1.0 then Some(range[0])
    else DecodeIndicators(range[1..], xs[1..])
  }

  /** A value of a Choice's range reads back from its indicator block;
      any other value leaves every indicator 0. */
  lemma {:induction false} DecodeEncode(range: seq<Value>, v: Value)
    ensures DecodeIndicators(range, Indicators(range, v)) == if v in range then Some(v) else None
  {
    if |range| > 0 {
      DecodeEncode(range[1..], v);
      assert Indicators(range, v)[1..] == Indicators(range[1..], v);
      assert v in range <==> range[0] == v || v in range[1..];
    }
  }

  /** A linear numeric column holds the value itself. */
  lemma NumericCellLinear(p: Param, row: Config, log10: real -> real)
    requires p.kind != Choice && p.scale == Linear && p.name in row && row[p.name].Num?
    ensures ParamColumns(p) == [Numeric(p)]
    ensures Cell(Numeric(p), row, log10) == Ok(row[p.name].x)
  {
  }
}
