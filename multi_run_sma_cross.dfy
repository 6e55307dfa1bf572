/**
  `run_sma_cross_grid` of strategies/multi_run_sma_cross.py: run the
  "sma_cross" strategy for every (fast, slow) pair with fast < slow, write one
  full record per run and then the summary of all rows. A metric that does
  not convert counts as 0.0; a failing strategy call ends the run with the
  files written before it.
*/
module MultiRunSmaCross {
  import opened Wrappers
  import opened Json
  import opened Grid
  import opened Sweep

  const StrategyName: string := "sma_cross"
  const DefaultFasts: seq<int> := [10, 20, 50]
  const DefaultSlows: seq<int> := [100, 200]
  const MissingCsv: string := "Input CSV not found"

  /** `_as_float(metrics.get(key, 0.0))`: `float()` of the value, or 0.0 if that raises. */
  function MetricOf(m: map<string, Json>, key: string): real {
    PyFloat(GetOr(m, key, JReal(0.0))).GetOr(0.0)
  }

  /**
    The conversion never fails: an absent key and a value `float()` rejects
    (null, a list, an object) both give 0.0, and a number gives its value.
  */
  lemma MetricOfValues(m: map<string, Json>, key: string)
    ensures key !in m ==> MetricOf(m, key) == 0.0
    ensures key in m && (m[key].JNull? || m[key].JArr? || m[key].JObj?) ==> MetricOf(m, key) == 0.0
    ensures key in m && AsNumber(m[key]).Some? ==> MetricOf(m, key) == AsNumber(m[key]).value
  {
    if key in m && AsNumber(m[key]).Some? {
      NumberConvertsToFloat(m[key]);
    }
  }

  /** The summary row of one run: the converted metrics and `sharpe * abs(total_return)`. */
  function SmaRow(fast: int, slow: int, m: map<string, Json>): SummaryRow {
    var tr, va, sh := MetricOf(m, "total_return"), MetricOf(m, "vol_annual"), MetricOf(m, "sharpe");
    SummaryRow(fast, slow, tr, va, sh, AbsScore(sh, tr))
  }

  /** The score's sign is the Sharpe ratio's whenever the return is non-zero, whatever the return's sign. */
  lemma SmaScore(fast: int, slow: int, m: map<string, Json>)
    ensures var r := SmaRow(fast, slow, m);
      && r.fast == fast && r.slow == slow
      && r.totalReturn == MetricOf(m, "total_return") && r.volAnnual == MetricOf(m, "vol_annual")
      && r.sharpe == MetricOf(m, "sharpe")
      && (r.totalReturn == 0.0 ==> r.score == 0.0)
      && (r.totalReturn != 0.0 ==> (r.score > 0.0 <==> r.sharpe > 0.0) && (r.score < 0.0 <==> r.sharpe < 0.0))
  {
    AbsScoreSign(MetricOf(m, "sharpe"), MetricOf(m, "total_return"));
  }

  /**
    This producer's score and the one of chat/strategy_grid.py agree exactly
    when the total return is non-negative or the Sharpe ratio is zero.
  */
  lemma ScoreFormulasAgree(tr: real, sh: real)
    ensures AbsScore(sh, tr) == PositiveScore(sh, tr) <==> tr >= 0.0 || sh == 0.0
  {
    if tr < 0.0 && sh != 0.0 {
      assert Abs(tr) != PositivePart(tr);
      assert sh * Abs(tr) - sh * PositivePart(tr) == sh * (Abs(tr) - PositivePart(tr));
    }
  }

  /** `metrics = dict(result.metrics); metrics["score"] = score`. */
  function ScoredMetrics(m: map<string, Json>, score: real): (r: map<string, Json>)
    ensures r.Keys == m.Keys + {"score"}
  {
    m["score" := JReal(score)]
  }

  /** The copy differs from the strategy's metrics only in "score". */
  lemma ScoredMetricsCopy(m: map<string, Json>, score: real)
    ensures ScoredMetrics(m, score)["score"] == JReal(score)
    ensures forall k :: k in m && k != "score" ==> ScoredMetrics(m, score)[k] == m[k]
  {
  }

  /** The per-run record `out_data`. */
  function RunRecord(res: StrategyResult, metrics: map<string, Json>): Json {
    JObj(map[
      "name" := JStr(res.name),
      "params" := JObj(res.params),
      "metrics" := JObj(metrics),
      "equity_curve" := JArr(seq(|res.equityCurve|, k requires 0 <= k < |res.equityCurve| => JReal(res.equityCurve[k]))),
      "trades" := JArr(res.trades)])
  }

  /** The record has exactly five keys, nests the strategy's parameters, and carries the row's score in its metrics. */
  lemma RunRecordShape(fast: int, slow: int, res: StrategyResult)
    ensures var row := SmaRow(fast, slow, res.metrics);
      var rec := RunRecord(res, ScoredMetrics(res.metrics, row.score));
      && rec.JObj?
      && rec.fields.Keys == {"name", "params", "metrics", "equity_curve", "trades"}
      && rec.fields["params"] == JObj(res.params)
      && rec.fields["metrics"].JObj?
      && rec.fields["metrics"].fields["score"] == JReal(row.score)
      && |rec.fields["equity_curve"].items| == |res.equityCurve|
  {
  }

  /** One pair of the loop, given the strategy call's result: the row and the record, or the exception. */
  function PairResult(pair: (int, int), result: Result<StrategyResult, string>): PairOutcome {
    match result
    case Failure(e) => Raised(e)
    case Success(res) =>
      var row := SmaRow(pair.0, pair.1, res.metrics);
      Produced(row, RunRecord(res, ScoredMetrics(res.metrics, row.score)))
  }

  /** The loop body: pairs with fast >= slow are skipped without calling the strategy. */
  function SmaStep(run: StrategyRunner): PairStep {
    (pair: (int, int)) =>
      if pair.0 >= pair.1 then Skipped else PairResult(pair, run(StrategyName, pair.0, pair.1))
  }

  /** The pairs with fast < slow, in visiting order. */
  function Eligible(pairs: seq<(int, int)>): (qs: seq<(int, int)>)
    ensures |qs| <= |pairs|
  {
    if pairs == [] then []
    else
      var pair := pairs[|pairs| - 1];
      Eligible(pairs[..|pairs| - 1]) + (if pair.0 < pair.1 then [pair] else [])
  }

  /** `Eligible` keeps exactly the pairs with fast < slow. */
  lemma {:induction false} EligibleMembers(pairs: seq<(int, int)>)
    ensures forall q :: q in Eligible(pairs) <==> q in pairs && q.0 < q.1
  {
    if pairs != [] {
      var init, pair := pairs[..|pairs| - 1], pairs[|pairs| - 1];
      EligibleMembers(init);
      assert pairs == init + [pair];
    }
  }

  /** `Eligible` keeps the visiting order: it distributes over consecutive parts of the loop. */
  lemma {:induction false} EligibleAppend(a: seq<(int, int)>, b: seq<(int, int)>)
    ensures Eligible(a + b) == Eligible(a) + Eligible(b)
    decreases |b|
  {
    if b == [] {
      assert a + b == a;
    } else {
      var init := b[..|b| - 1];
      EligibleAppend(a, init);
      assert (a + b)[..|a + b| - 1] == a + init;
    }
  }

  /** Without an exception, a pair produces a row exactly when fast < slow. */
  lemma {:induction false} ProducedAreEligible(run: StrategyRunner, pairs: seq<(int, int)>)
    requires forall k :: 0 <= k < |pairs| ==> !SmaStep(run)(pairs[k]).Raised?
    ensures ProducedPairs(SmaStep(run), pairs) == Eligible(pairs)
  {
    if pairs != [] {
      var n := |pairs| - 1;
      var init := pairs[..n];
      assert forall k :: 0 <= k < n ==> !SmaStep(run)(init[k]).Raised? by {
        assert forall k :: 0 <= k < n ==> init[k] == pairs[k];
      }
      ProducedAreEligible(run, init);
      SmaStepProduced(run, pairs[n]);
    }
  }

  /** A pair that does not raise produces a row exactly when fast < slow. */
  lemma SmaStepProduced(run: StrategyRunner, pair: (int, int))
    requires !SmaStep(run)(pair).Raised?
    ensures SmaStep(run)(pair).Produced? <==> pair.0 < pair.1
  {
    if pair.0 < pair.1 {
      assert SmaStep(run)(pair) == PairResult(pair, run(StrategyName, pair.0, pair.1));
    }
  }

  /**
    `run_sma_cross_grid` raises exactly when the strategy call of some pair
    with fast < slow fails; otherwise it has one row and one record per such
    pair, in visiting order, each with that pair's fast, slow and scored metrics.
  */
  lemma RunRows(run: StrategyRunner, pairs: seq<(int, int)>)
    ensures var p := Run(SmaStep(run), pairs);
      && (p.error.None? <==>
            forall k :: 0 <= k < |pairs| && pairs[k].0 < pairs[k].1 ==> run(StrategyName, pairs[k].0, pairs[k].1).Success?)
      && (p.error.None? ==>
            var qs := Eligible(pairs);
            && |p.rows| == |qs| && |p.runs| == |qs|
            && forall k :: 0 <= k < |qs| ==>
                 && run(StrategyName, qs[k].0, qs[k].1).Success?
                 && var res := run(StrategyName, qs[k].0, qs[k].1).value;
                 && p.rows[k] == SmaRow(qs[k].0, qs[k].1, res.metrics)
                 && p.runs[k] == (qs[k], RunRecord(res, ScoredMetrics(res.metrics, p.rows[k].score))))
  {
    var step := SmaStep(run);
    RunProduced(step, pairs);
    if Run(step, pairs).error.None? {
      ProducedAreEligible(run, pairs);
      ProducedRowsAt(step, pairs);
      ProducedRunsAt(step, pairs);
    }
  }

  /** With the default grid every pair has fast < slow: nothing is skipped. */
  lemma DefaultGridSkipsNothing()
    ensures Eligible(Cross(DefaultFasts, DefaultSlows)) == Cross(DefaultFasts, DefaultSlows)
    ensures |Cross(DefaultFasts, DefaultSlows)| == 6
  {
    var pairs := Cross(DefaultFasts, DefaultSlows);
    CrossLength(DefaultFasts, DefaultSlows);
    forall k | 0 <= k < |pairs| ensures pairs[k].0 < pairs[k].1 {
      var i, j := k / 2, k % 2;
      assert k == i * 2 + j;
      CrossAt(DefaultFasts, DefaultSlows, i, j);
    }
    AllEligible(pairs);
  }

  /** A grid whose pairs all have fast < slow keeps every pair. */
  lemma {:induction false} AllEligible(pairs: seq<(int, int)>)
    requires forall k :: 0 <= k < |pairs| ==> pairs[k].0 < pairs[k].1
    ensures Eligible(pairs) == pairs
  {
    if pairs != [] {
      var n := |pairs| - 1;
      var init, last := pairs[..n], pairs[n];
      assert last.0 < last.1;
      assert forall k :: 0 <= k < n ==> init[k].0 < init[k].1 by {
        assert forall k :: 0 <= k < n ==> init[k] == pairs[k];
      }
      calc {
        Eligible(pairs);
        Eligible(init) + [last];
        { AllEligible(init); }
        init + [last];
        pairs;
      }
    }
  }

  /** The outcome of `run_sma_cross_grid`, as a function of its inputs. */
  function SmaOutcome(csvExists: bool, fasts: seq<int>, slows: seq<int>, run: StrategyRunner): Outcome {
    if !csvExists then Aborted(MissingCsv)
    else
      var p := Run(SmaStep(run), Cross(fasts, slows));
      if p.error.Some? then Aborted(p.error.value) else Completed(p.rows)
  }

  /** The output directory it leaves: the run records, then the summary if nothing raised. */
  function SmaFiles(files: map<string, Json>, csvExists: bool, fasts: seq<int>, slows: seq<int>, run: StrategyRunner): map<string, Json> {
    if !csvExists then files
    else
      var p := Run(SmaStep(run), Cross(fasts, slows));
      if p.error.Some? then WriteRuns(files, p.runs)
      else WriteRuns(files, p.runs)[SummaryFileName := SummaryJson(p.rows)]
  }

  /** A missing CSV raises before anything runs or is written. */
  lemma MissingCsvWritesNothing(files: map<string, Json>, fasts: seq<int>, slows: seq<int>, run: StrategyRunner)
    ensures SmaOutcome(false, fasts, slows, run) == Aborted(MissingCsv)
    ensures SmaFiles(files, false, fasts, slows, run) == files
  {
  }

  /** `run_sma_cross_grid(fast_list, slow_list, csv_path)`. */
  method RunSmaCrossGrid(dir: MultiDir, csvExists: bool, fasts: seq<int>, slows: seq<int>, run: StrategyRunner)
    returns (r: Outcome)
    modifies dir
    ensures r == SmaOutcome(csvExists, fasts, slows, run)
    ensures dir.files == SmaFiles(old(dir.files), csvExists, fasts, slows, run)
  {
    if !csvExists {
      return Aborted(MissingCsv);
    }
    var p := SweepGrid(dir, fasts, slows, SmaStep(run));
    if p.error.Some? {
      return Aborted(p.error.value);
    }
    dir.Write(SummaryFileName, SummaryJson(p.rows));
    r := Completed(p.rows);
  }
}
