/** MedianStoppingRule of sherpa/algorithms.py: stop a trial whose best
    objective is worse than the NaN-ignoring median of the best objectives
    of the other trials that have reached `min_iterations`. */
module Stopping {
  import opened Common

  /* ---------------------------------------------------------------------
     Slices of the results table
     --------------------------------------------------------------------- */

  /** `results.loc[results['Trial-ID'] == id]`, order kept. */
  function TrialRows(results: seq<Row>, id: int): (rows: seq<Row>)
    ensures |rows| == 0 <==> forall i :: 0 <= i < |results| ==> results[i].trialId != id
  {
    if |results| == 0 then []
    else (if results[0].trialId == id then [results[0]] else []) + TrialRows(results[1..], id)
  }

  /** The filter keeps exactly the rows of trial `id`. */
  lemma {:induction false} TrialRowsMembers(results: seq<Row>, id: int)
    ensures forall r :: r in TrialRows(results, id) <==> r in results && r.trialId == id
  {
    if |results| > 0 {
      TrialRowsMembers(results[1..], id);
      assert results == [results[0]] + results[1..];
    }
  }

  /** `rows['Iteration'].max()`; None stands for the NaN of an empty column. */
  function MaxIteration(rows: seq<Row>): (m: Option<int>)
    ensures m.None? <==> |rows| == 0
    ensures m.Some? ==> (exists i :: 0 <= i < |rows| && rows[i].iteration == m.value)
                        && forall i :: 0 <= i < |rows| ==> rows[i].iteration <= m.value
  {
    if |rows| == 0 then None
    else match MaxIteration(rows[1..])
      case None => Some(rows[0].iteration)
      case Some(m) => Some(if rows[0].iteration >= m then rows[0].iteration else m)
  }

  /** `max_iteration < min_iterations`; any comparison with NaN is False. */
  predicate BelowMinIterations(maxIteration: Option<int>, minIterations: int)
  {
    maxIteration.Some? && maxIteration.value < minIterations
  }

  /** `a` is at least as good as `b`. */
  predicate NotWorse(a: real, b: real, lowerIsBetter: bool)
  {
    if lowerIsBetter then a <= b else a >= b
  }

  /** `rows['Objective'].min()` (or `.max()`): pandas skips NaN, and the
      result is NaN (None) only when every objective is NaN. */
  function BestObjective(rows: seq<Row>, lowerIsBetter: bool): (b: Option<real>)
    ensures b.None? <==> forall i :: 0 <= i < |rows| ==> rows[i].objective.None?
    ensures b.Some? ==>
      && (exists i :: 0 <= i < |rows| && rows[i].objective == b)
      && forall i :: 0 <= i < |rows| && rows[i].objective.Some? ==>
           NotWorse(b.value, rows[i].objective.value, lowerIsBetter)
  {
    if |rows| == 0 then None
    else
      var rest := BestObjective(rows[1..], lowerIsBetter);
      match rows[0].objective
      case None => rest
      case Some(x) =>
        if rest.None? || NotWorse(x, rest.value, lowerIsBetter) then Some(x) else rest
  }

  /** `trial_rows.loc[trial_rows['Iteration'] <= max_iteration]`. */
  function RowsUpTo(rows: seq<Row>, maxIteration: int): (r: seq<Row>)
    ensures |r| <= |rows|
  {
    if |rows| == 0 then []
    else (if rows[0].iteration <= maxIteration then [rows[0]] else []) + RowsUpTo(rows[1..], maxIteration)
  }

  /** The filter at line 214 compares each row with the maximum of the same
      rows, so it keeps every row. */
  lemma {:induction false} RowsUpToKeepsAll(rows: seq<Row>, maxIteration: int)
    requires forall i :: 0 <= i < |rows| ==> rows[i].iteration <= maxIteration
    ensures RowsUpTo(rows, maxIteration) == rows
  {
    if |rows| > 0 {
      RowsUpToKeepsAll(rows[1..], maxIteration);
      assert rows == [rows[0]] + rows[1..];
    }
  }

  /** `set(results['Trial-ID']) - {id}`, listed without repetition. */
  function OtherTrialIds(results: seq<Row>, id: int): (ids: seq<int>)
    ensures Distinct(ids)
    ensures forall t :: t in ids <==> t != id && exists i :: 0 <= i < |results| && results[i].trialId == t
  {
    if |results| == 0 then []
    else
      var rest := OtherTrialIds(results[1..], id);
      var t := results[0].trialId;
      if t == id || t in rest then rest
      else
        assert forall s :: s in [t] + rest <==> s == t || s in rest;
        [t] + rest
  }

  /** What the loop appends to `comparison_vals` for peer `tid`: nothing
      (None) when the peer has not reached `min_iterations`, else its best
      objective, which may itself be NaN. */
  function PeerEntry(results: seq<Row>, tid: int, minIterations: int, lowerIsBetter: bool): (e: Option<Option<real>>)
    ensures e.None? <==> (exists i :: 0 <= i < |results| && results[i].trialId == tid)
                         && forall i :: 0 <= i < |results| && results[i].trialId == tid ==>
                              results[i].iteration < minIterations
    ensures e.Some? && e.value.Some? ==>
              exists i :: 0 <= i < |results| && results[i].trialId == tid && results[i].objective == e.value
  {
    var rows := TrialRows(results, tid);
    TrialRowsMembers(results, tid);
    var m := MaxIteration(rows);
    if BelowMinIterations(m, minIterations) then None
    else if m.None? then Some(None)
    else
      RowsUpToKeepsAll(rows, m.value);
      Some(BestObjective(RowsUpTo(rows, m.value), lowerIsBetter))
  }

  /** `comparison_vals` after visiting the peers `ids` in order. */
  function ComparisonVals(results: seq<Row>, ids: seq<int>, minIterations: int, lowerIsBetter: bool): (vals: seq<Option<real>>)
    ensures |vals| <= |ids|
    ensures forall v :: v in vals ==> exists t :: t in ids && PeerEntry(results, t, minIterations, lowerIsBetter) == Some(v)
    decreases |ids|
  {
    if |ids| == 0 then []
    else
      var front := ComparisonVals(results, ids[..|ids| - 1], minIterations, lowerIsBetter);
      match PeerEntry(results, ids[|ids| - 1], minIterations, lowerIsBetter)
      case None => front
      case Some(v) => front + [v]
  }

  lemma ComparisonValsStep(results: seq<Row>, ids: seq<int>, k: nat, minIterations: int, lowerIsBetter: bool)
    requires k < |ids|
    ensures ComparisonVals(results, ids[..k + 1], minIterations, lowerIsBetter)
            == match PeerEntry(results, ids[k], minIterations, lowerIsBetter)
               case None => ComparisonVals(results, ids[..k], minIterations, lowerIsBetter)
               case Some(v) => ComparisonVals(results, ids[..k], minIterations, lowerIsBetter) + [v]
  {
    assert ids[..k + 1][..k] == ids[..k];
  }

  /* ---------------------------------------------------------------------
     numpy.nanmedian
     --------------------------------------------------------------------- */

  predicate SortedReals(s: seq<real>)
  {
    forall i, j :: 0 <= i < j < |s| ==> s[i] <= s[j]
  }

  function Insert(x: real, s: seq<real>): (r: seq<real>)
    requires SortedReals(s)
    ensures SortedReals(r) && multiset(r) == multiset(s) + multiset{x}
  {
    if |s| == 0 then [x]
    else if x <= s[0] then [x] + s
    else
      var rest := Insert(x, s[1..]);
      assert s == [s[0]] + s[1..];
      forall i | 0 <= i < |rest| ensures s[0] <= rest[i] {
        assert rest[i] in multiset(rest);
      }
      ConsSorted(s[0], rest);
      [s[0]] + rest
  }

  lemma ConsSorted(h: real, s: seq<real>)
    requires SortedReals(s) && forall i :: 0 <= i < |s| ==> h <= s[i]
    ensures SortedReals([h] + s)
  {
  }

  /** The values in ascending order. */
  function Sort(s: seq<real>): (r: seq<real>)
    ensures SortedReals(r) && multiset(r) == multiset(s)
  {
    if |s| == 0 then []
    else
      assert s == [s[0]] + s[1..];
      Insert(s[0], Sort(s[1..]))
  }

  /** The non-NaN entries, in order. */
  function Present(vals: seq<Option<real>>): (xs: seq<real>)
    ensures forall x :: x in xs <==> Some(x) in vals
    ensures |xs| == 0 <==> forall i :: 0 <= i < |vals| ==> vals[i].None?
  {
    if |vals| == 0 then []
    else
      (match vals[0] case None => [] case Some(x) => [x]) + Present(vals[1..])
  }

  /** The middle of a sorted sequence, or the mean of the two middles. */
  function MiddleOf(s: seq<real>): (m: real)
    requires |s| > 0 && SortedReals(s)
    ensures s[0] <= m <= s[|s| - 1]
  {
    var n := |s|;
    if n % 2 == 1 then s[n / 2] else (s[n / 2 - 1] + s[n / 2]) / 2.0
  }

  /** `numpy.nanmedian`: the median of the non-NaN values, NaN (None)
      when there is none. */
  function NanMedian(vals: seq<Option<real>>): (m: Option<real>)
    ensures m.None? <==> forall i :: 0 <= i < |vals| ==> vals[i].None?
  {
    var xs := Present(vals);
    if |xs| == 0 then None else Some(MiddleOf(Sort(xs)))
  }

  /** The median lies between the smallest and the largest non-NaN value. */
  lemma MedianBounds(vals: seq<Option<real>>)
    requires NanMedian(vals).Some?
    ensures exists x :: Some(x) in vals && x <= NanMedian(vals).value
    ensures exists x :: Some(x) in vals && NanMedian(vals).value <= x
  {
    var sorted := Sort(Present(vals));
    assert sorted[0] in multiset(sorted);
    assert sorted[|sorted| - 1] in multiset(sorted);
    assert Some(sorted[0]) in vals;
    assert Some(sorted[|sorted| - 1]) in vals;
  }

  /* ---------------------------------------------------------------------
     The decision
     --------------------------------------------------------------------- */

  /** The decision of `should_trial_stop` for the trial `trialId`. */
  function StopDecision(minIterations: int, minTrials: int, trialId: int, results: seq<Row>, lowerIsBetter: bool): (stop: bool)
    // an empty table, a trial without rows, or one below min_iterations is never stopped
    ensures |results| == 0 ==> !stop
    ensures TrialRows(results, trialId) == [] ==> !stop
    ensures BelowMinIterations(MaxIteration(TrialRows(results, trialId)), minIterations) ==> !stop
    // a trial with rows whose objectives are all NaN is stopped once it reaches min_iterations
    ensures var rows := TrialRows(results, trialId);
            (|rows| > 0 && !BelowMinIterations(MaxIteration(rows), minIterations)
             && BestObjective(rows, lowerIsBetter).None?) ==> stop
  {
    if |results| == 0 then false
    else
      var rows := TrialRows(results, trialId);
      var m := MaxIteration(rows);
      if BelowMinIterations(m, minIterations) then false
      else
        var t := BestObjective(rows, lowerIsBetter);
        if t.None? && |rows| > 0 then true
        else
          var vals := ComparisonVals(results, OtherTrialIds(results, trialId), minIterations, lowerIsBetter);
          if |vals| < minTrials then false
          else match (t, NanMedian(vals))
            case (Some(x), Some(med)) => if lowerIsBetter then x > med else x < med
            case _ => false
  }

  /** The peers' entries of `comparison_vals`, as the decision sees them. */
  function PeerVals(minIterations: int, trialId: int, results: seq<Row>, lowerIsBetter: bool): seq<Option<real>>
  {
    ComparisonVals(results, OtherTrialIds(results, trialId), minIterations, lowerIsBetter)
  }

  /** The target qualifies for a comparison: it has rows, it reached
      `min_iterations`, and its best objective is `t`. */
  predicate Comparable(minIterations: int, trialId: int, results: seq<Row>, lowerIsBetter: bool, t: real)
  {
    var rows := TrialRows(results, trialId);
    |rows| > 0 && !BelowMinIterations(MaxIteration(rows), minIterations)
    && BestObjective(rows, lowerIsBetter) == Some(t)
  }

  /** Fewer qualifying peers than `min_trials`: not stopped. */
  lemma TooFewPeers(minIterations: int, minTrials: int, trialId: int, results: seq<Row>, lowerIsBetter: bool, t: real)
    requires Comparable(minIterations, trialId, results, lowerIsBetter, t)
    requires |PeerVals(minIterations, trialId, results, lowerIsBetter)| < minTrials
    ensures !StopDecision(minIterations, minTrials, trialId, results, lowerIsBetter)
  {
  }

  /** Otherwise the trial is stopped exactly when it is strictly worse than
      the NaN-ignoring median of the peers' best objectives. */
  lemma StopIffWorseThanMedian(minIterations: int, minTrials: int, trialId: int, results: seq<Row>, lowerIsBetter: bool, t: real)
    requires Comparable(minIterations, trialId, results, lowerIsBetter, t)
    requires |PeerVals(minIterations, trialId, results, lowerIsBetter)| >= minTrials
    ensures StopDecision(minIterations, minTrials, trialId, results, lowerIsBetter)
            <==> var med := NanMedian(PeerVals(minIterations, trialId, results, lowerIsBetter));
                 med.Some? && (if lowerIsBetter then t > med.value else t < med.value)
  {
  }

  /** A trial at least as good as every non-NaN peer best is never stopped. */
  lemma BestTrialKept(minIterations: int, minTrials: int, trialId: int, results: seq<Row>, lowerIsBetter: bool, t: real)
    requires Comparable(minIterations, trialId, results, lowerIsBetter, t)
    requires var vals := PeerVals(minIterations, trialId, results, lowerIsBetter);
             forall x :: Some(x) in vals ==> NotWorse(t, x, lowerIsBetter)
    ensures !StopDecision(minIterations, minTrials, trialId, results, lowerIsBetter)
  {
    var vals := PeerVals(minIterations, trialId, results, lowerIsBetter);
    if NanMedian(vals).Some? {
      MedianBounds(vals);
    }
  }

  /** A trial strictly worse than every non-NaN peer best is stopped, once
      there are enough peers and at least one of them is not NaN. */
  lemma WorstTrialStopped(minIterations: int, minTrials: int, trialId: int, results: seq<Row>, lowerIsBetter: bool, t: real)
    requires Comparable(minIterations, trialId, results, lowerIsBetter, t)
    requires var vals := PeerVals(minIterations, trialId, results, lowerIsBetter);
             && |vals| >= minTrials
             && (exists x :: Some(x) in vals)
             && forall x :: Some(x) in vals ==> !NotWorse(t, x, lowerIsBetter)
    ensures StopDecision(minIterations, minTrials, trialId, results, lowerIsBetter)
  {
    var vals := PeerVals(minIterations, trialId, results, lowerIsBetter);
    var x :| Some(x) in vals;
    assert x in Present(vals);
    MedianBounds(vals);
  }

  /** Peers whose best objective is NaN count towards `min_trials` but give
      the median nothing: if every qualifying peer is NaN, no stop. */
  lemma NaNPeersNeverStop(minIterations: int, minTrials: int, trialId: int, results: seq<Row>, lowerIsBetter: bool, t: real)
    requires Comparable(minIterations, trialId, results, lowerIsBetter, t)
    requires forall i :: 0 <= i < |PeerVals(minIterations, trialId, results, lowerIsBetter)| ==>
               PeerVals(minIterations, trialId, results, lowerIsBetter)[i].None?
    ensures !StopDecision(minIterations, minTrials, trialId, results, lowerIsBetter)
  {
    var vals := PeerVals(minIterations, trialId, results, lowerIsBetter);
    assert |Present(vals)| == 0;
  }

  class MedianStoppingRule {
    const minIterations: int
    const minTrials: int

    constructor (minIterations: int, minTrials: int)
      ensures this.minIterations == minIterations && this.minTrials == minTrials
    {
      this.minIterations := minIterations;
      this.minTrials := minTrials;
    }

    /** The loop of lines 207-216: the best objective of every peer in
        `ids` that reached `min_iterations`. */
    method CollectComparisonVals(results: seq<Row>, ids: seq<int>, lowerIsBetter: bool)
      returns (comparisonVals: seq<Option<real>>)
      ensures comparisonVals == ComparisonVals(results, ids, minIterations, lowerIsBetter)
    {
      comparisonVals := [];
      var k := 0;
      while k < |ids|
        invariant 0 <= k <= |ids|
        invariant comparisonVals == ComparisonVals(results, ids[..k], minIterations, lowerIsBetter)
      {
        var tid := ids[k];
        var rows := TrialRows(results, tid);
        var peerMax := MaxIteration(rows);
        ComparisonValsStep(results, ids, k, minIterations, lowerIsBetter);
        k := k + 1;
        if BelowMinIterations(peerMax, minIterations) {
          continue;
        }
        var validRows := if peerMax.Some? then RowsUpTo(rows, peerMax.value) else [];
        comparisonVals := comparisonVals + [BestObjective(validRows, lowerIsBetter)];
      }
      assert ids[..|ids|] == ids;
    }

    /** `should_trial_stop` for the trial whose id is `trialId`. */
    method ShouldTrialStop(trialId: int, results: seq<Row>, lowerIsBetter: bool) returns (stop: bool)
      ensures stop == StopDecision(minIterations, minTrials, trialId, results, lowerIsBetter)
    {
      if |results| == 0 {
        return false;
      }
      var trialRows := TrialRows(results, trialId);
      var maxIteration := MaxIteration(trialRows);
      if BelowMinIterations(maxIteration, minIterations) {
        return false;
      }
      var trialObjVal := BestObjective(trialRows, lowerIsBetter);
      if trialObjVal.None? && |trialRows| > 0 {
        return true;
      }
      var comparisonVals := CollectComparisonVals(results, OtherTrialIds(results, trialId), lowerIsBetter);
      if |comparisonVals| < minTrials {
        return false;
      }
      var med := NanMedian(comparisonVals);
      if trialObjVal.Some? && med.Some? {
        stop := if lowerIsBetter then trialObjVal.value > med.value else trialObjVal.value < med.value;
      } else {
        stop := false;
      }
    }
  }

  /* ---------------------------------------------------------------------
     The table of tests/test_algorithms.py:13-39
     --------------------------------------------------------------------- */

  function ExampleRow(id: int, iteration: int, objective: real): Row
  {
    Row(id, Intermediate, iteration, map["a" := Num(1.0), "b" := Num(2.0)], Some(objective), "", "", "")
  }

  /** The three rows of trial `id`, at iterations 1, 2 and 3. */
  function ExampleBlock(id: int, objective: real): seq<Row>
  {
    [ExampleRow(id, 1, objective), ExampleRow(id, 2, objective), ExampleRow(id, 3, objective)]
  }

  /** Trials 1, 2, 3 with constant objectives `o1`, `o2`, `o3` (the test
      uses 0.1, 0.2, 0.3). */
  function ExampleTable(o1: real, o2: real, o3: real): seq<Row>
  {
    ExampleBlock(1, o1) + ExampleBlock(2, o2) + ExampleBlock(3, o3)
  }

  lemma {:induction false} TrialRowsAppend(a: seq<Row>, b: seq<Row>, id: int)
    ensures TrialRows(a + b, id) == TrialRows(a, id) + TrialRows(b, id)
  {
    if |a| > 0 {
      assert (a + b)[1..] == a[1..] + b;
      TrialRowsAppend(a[1..], b, id);
    } else {
      assert a + b == b;
    }
  }

  lemma {:induction false} TrialRowsAll(rows: seq<Row>, id: int)
    requires forall i :: 0 <= i < |rows| ==> rows[i].trialId == id
    ensures TrialRows(rows, id) == rows
  {
    if |rows| > 0 {
      TrialRowsAll(rows[1..], id);
      assert rows == [rows[0]] + rows[1..];
    }
  }

  lemma BlockRows(id: int, objective: real)
    ensures TrialRows(ExampleBlock(id, objective), id) == ExampleBlock(id, objective)
  {
    TrialRowsAll(ExampleBlock(id, objective), id);
  }

  lemma BlockFacts(id: int, objective: real)
    ensures TrialRows(ExampleBlock(id, objective), id) == ExampleBlock(id, objective)
    ensures MaxIteration(ExampleBlock(id, objective)) == Some(3)
    ensures RowsUpTo(ExampleBlock(id, objective), 3) == ExampleBlock(id, objective)
    ensures BestObjective(ExampleBlock(id, objective), true) == Some(objective)
  {
    var b := ExampleBlock(id, objective);
    TrialRowsAll(b, id);
    assert b[2].iteration == 3;
    RowsUpToKeepsAll(b, 3);
    assert b[0].objective == Some(objective);
  }

  lemma BlockOther(id: int, objective: real, other: int)
    requires other != id
    ensures TrialRows(ExampleBlock(id, objective), other) == []
  {
  }

  lemma ExampleRowsOf(o1: real, o2: real, o3: real, id: int)
    requires id == 1 || id == 2 || id == 3
    ensures TrialRows(ExampleTable(o1, o2, o3), id)
            == ExampleBlock(id, if id == 1 then o1 else if id == 2 then o2 else o3)
  {
    var b1, b2, b3 := ExampleBlock(1, o1), ExampleBlock(2, o2), ExampleBlock(3, o3);
    ThreeBlocks(b1, b2, b3, id);
    if id == 1 {
      BlockRows(1, o1);
      BlockOther(2, o2, id);
      BlockOther(3, o3, id);
      assert TrialRows(b1 + b2 + b3, id) == b1 + [] + [];
    } else if id == 2 {
      BlockOther(1, o1, id);
      BlockRows(2, o2);
      BlockOther(3, o3, id);
      assert TrialRows(b1 + b2 + b3, id) == [] + b2 + [];
    } else {
      BlockOther(1, o1, id);
      BlockOther(2, o2, id);
      BlockRows(3, o3);
      assert TrialRows(b1 + b2 + b3, id) == [] + [] + b3;
    }
  }

  lemma ThreeBlocks(a: seq<Row>, b: seq<Row>, c: seq<Row>, id: int)
    ensures TrialRows(a + b + c, id) == TrialRows(a, id) + TrialRows(b, id) + TrialRows(c, id)
  {
    TrialRowsAppend(a + b, c, id);
    TrialRowsAppend(a, b, id);
  }

  lemma {:induction false} OtherIdsSkip(block: seq<Row>, rest: seq<Row>, id: int)
    requires forall i :: 0 <= i < |block| ==> block[i].trialId == id
    ensures OtherTrialIds(block + rest, id) == OtherTrialIds(rest, id)
  {
    if |block| > 0 {
      assert (block + rest)[1..] == block[1..] + rest;
      OtherIdsSkip(block[1..], rest, id);
    } else {
      assert block + rest == rest;
    }
  }

  lemma {:induction false} OtherIdsBlock(block: seq<Row>, rest: seq<Row>, id: int, x: int)
    requires |block| > 0 && x != id && x !in OtherTrialIds(rest, id)
    requires forall i :: 0 <= i < |block| ==> block[i].trialId == x
    ensures OtherTrialIds(block + rest, id) == [x] + OtherTrialIds(rest, id)
  {
    assert (block + rest)[1..] == block[1..] + rest;
    if |block| > 1 {
      OtherIdsBlock(block[1..], rest, id, x);
    } else {
      assert block[1..] + rest == rest;
    }
  }

  lemma ExampleOtherIds(o1: real, o2: real, o3: real)
    ensures OtherTrialIds(ExampleTable(o1, o2, o3), 3) == [1, 2]
  {
    var b1, b2, b3 := ExampleBlock(1, o1), ExampleBlock(2, o2), ExampleBlock(3, o3);
    OtherIdsSkip(b3, [], 3);
    assert b3 + [] == b3;
    OtherIdsBlock(b2, b3, 3, 2);
    OtherIdsBlock(b1, b2 + b3, 3, 1);
    assert b1 + (b2 + b3) == b1 + b2 + b3;
  }

  lemma ExamplePeerEntry(o1: real, o2: real, o3: real, id: int, minIterations: int)
    requires id == 1 || id == 2
    ensures PeerEntry(ExampleTable(o1, o2, o3), id, minIterations, true)
            == if minIterations > 3 then None else Some(Some(if id == 1 then o1 else o2))
  {
    ExampleRowsOf(o1, o2, o3, id);
    BlockFacts(id, if id == 1 then o1 else o2);
  }

  lemma ExamplePeerVals(o1: real, o2: real, o3: real, minIterations: int)
    ensures PeerVals(minIterations, 3, ExampleTable(o1, o2, o3), true)
            == if minIterations > 3 then [] else [Some(o1), Some(o2)]
  {
    var t := ExampleTable(o1, o2, o3);
    ExampleOtherIds(o1, o2, o3);
    ExamplePeerEntry(o1, o2, o3, 1, minIterations);
    ExamplePeerEntry(o1, o2, o3, 2, minIterations);
    var ids := [1, 2];
    assert ids[..1] == [1];
    assert [1][..0] == [];
  }

  lemma ExampleTarget(o1: real, o2: real, o3: real)
    ensures MaxIteration(TrialRows(ExampleTable(o1, o2, o3), 3)) == Some(3)
    ensures Comparable(2, 3, ExampleTable(o1, o2, o3), true, o3)
  {
    ExampleRowsOf(o1, o2, o3, 3);
    BlockFacts(3, o3);
  }

  lemma MedianOfTwo(x: real, y: real)
    requires x <= y
    ensures NanMedian([Some(x), Some(y)]) == Some((x + y) / 2.0)
  {
    var vals := [Some(x), Some(y)];
    assert vals[1..] == [Some(y)];
    assert Present(vals) == [x, y];
    assert [x, y][1..] == [y];
    assert Sort([x, y]) == [x, y];
  }

  /** With trial 1 better than trial 2 better than trial 3, trial 3 is
      stopped (its objective is worse than the median, the mean of the
      other two); raising `min_iterations` to 4 or `min_trials` to 4 keeps
      it running. */
  lemma ExampleDecisions(o1: real, o2: real, o3: real)
    requires o1 < o2 < o3
    ensures StopDecision(2, 1, 3, ExampleTable(o1, o2, o3), true)
    ensures !StopDecision(4, 1, 3, ExampleTable(o1, o2, o3), true)
    ensures !StopDecision(2, 4, 3, ExampleTable(o1, o2, o3), true)
  {
    var t := ExampleTable(o1, o2, o3);
    ExampleTarget(o1, o2, o3);
    ExamplePeerVals(o1, o2, o3, 2);
    MedianOfTwo(o1, o2);
    StopIffWorseThanMedian(2, 1, 3, t, true, o3);
    TooFewPeers(2, 4, 3, t, true, o3);
  }
}
