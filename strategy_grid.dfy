/**
  `run_grid` of chat/strategy_grid.py: run one strategy over every (fast, slow)
  pair of a grid, write one flat row file per pair and then the summary.
  Any exception (a missing CSV, a failing strategy call, a metric `float()`
  cannot convert) ends the run; the files written before it stay written.
*/
module StrategyGrid {
  import opened Wrappers
  import opened Json
  import opened Grid
  import opened Sweep

  /** `float(m.get(key, 0.0))`; `None` stands for the raised exception. */
  function Metric(m: map<string, Json>, key: string): (r: Option<real>)
    ensures key !in m ==> r == Some(0.0)
    ensures key in m ==> r == PyFloat(m[key])
  {
    PyFloat(GetOr(m, key, JReal(0.0)))
  }

  /** The row of one run from its three converted metrics, with score `sharpe * max(total_return, 0.0)`. */
  function RowOf(fast: int, slow: int, tr: Option<real>, va: Option<real>, sh: Option<real>): Result<SummaryRow, string> {
    if tr.Some? && va.Some? && sh.Some? then
      Success(SummaryRow(fast, slow, tr.value, va.value, sh.value, PositiveScore(sh.value, tr.value)))
    else Failure("could not convert metric to float")
  }

  /** The row of one run's metrics. */
  function GridRow(fast: int, slow: int, m: map<string, Json>): Result<SummaryRow, string> {
    RowOf(fast, slow, Metric(m, "total_return"), Metric(m, "vol_annual"), Metric(m, "sharpe"))
  }

  /**
    A row exists exactly when all three metrics convert; it keeps the grid's
    fast and slow and the converted metrics, and a non-positive total return
    scores 0 whatever the Sharpe ratio, while a positive one scores with the
    Sharpe ratio's sign.
  */
  lemma RowOfProperties(fast: int, slow: int, tr: Option<real>, va: Option<real>, sh: Option<real>)
    ensures var r := RowOf(fast, slow, tr, va, sh);
      && (r.Success? <==> tr.Some? && va.Some? && sh.Some?)
      && (r.Success? ==>
            && r.value.fast == fast && r.value.slow == slow
            && r.value.totalReturn == tr.value && r.value.volAnnual == va.value && r.value.sharpe == sh.value
            && (tr.value <= 0.0 ==> r.value.score == 0.0)
            && (tr.value > 0.0 ==> (r.value.score > 0.0 <==> sh.value > 0.0) && (r.value.score < 0.0 <==> sh.value < 0.0)))
  {
    if tr.Some? && va.Some? && sh.Some? && tr.value > 0.0 {
      ScaleSign(sh.value, tr.value);
    }
  }

  /** A run whose metrics lack `total_return` scores 0 (or fails to convert another metric). */
  lemma MissingReturnScoresZero(fast: int, slow: int, m: map<string, Json>)
    requires "total_return" !in m
    ensures GridRow(fast, slow, m).Success? ==> GridRow(fast, slow, m).value.score == 0.0
  {
    RowOfProperties(fast, slow, Metric(m, "total_return"), Metric(m, "vol_annual"), Metric(m, "sharpe"));
  }

  /** One pair's iteration, given the strategy call's result: the row and its file, or the exception. */
  function PairResult(pair: (int, int), result: Result<StrategyResult, string>): PairOutcome {
    match result
    case Failure(e) => Raised(e)
    case Success(res) =>
      match GridRow(pair.0, pair.1, res.metrics)
      case Failure(e) => Raised(e)
      case Success(row) => Produced(row, RowJson(row))
  }

  /** The loop body of `run_grid` for one (fast, slow) pair. */
  function GridStep(stratName: string, run: StrategyRunner): PairStep {
    (pair: (int, int)) => PairResult(pair, run(stratName, pair.0, pair.1))
  }

  /**
    `run_grid` never skips a pair: without exception it produces one row per
    pair, in visiting order, with the pair's fast and slow and the pair's
    converted metrics, and writes that row under the name made from fast and
    slow alone; it raises exactly when some pair's strategy call or metric
    conversion fails.
  */
  lemma RunRows(stratName: string, run: StrategyRunner, pairs: seq<(int, int)>)
    ensures var p := Run(GridStep(stratName, run), pairs);
      && (p.error.None? <==>
            forall k :: 0 <= k < |pairs| ==>
              && run(stratName, pairs[k].0, pairs[k].1).Success?
              && GridRow(pairs[k].0, pairs[k].1, run(stratName, pairs[k].0, pairs[k].1).value.metrics).Success?)
      && (p.error.None? ==>
            && |p.rows| == |pairs| && |p.runs| == |pairs|
            && forall k :: 0 <= k < |pairs| ==>
                 && p.rows[k] == GridRow(pairs[k].0, pairs[k].1, run(stratName, pairs[k].0, pairs[k].1).value.metrics).value
                 && (p.rows[k].fast, p.rows[k].slow) == pairs[k]
                 && p.runs[k] == (pairs[k], RowJson(p.rows[k])))
  {
    var step := GridStep(stratName, run);
    forall k | 0 <= k < |pairs|
      ensures !step(pairs[k]).Skipped?
      ensures step(pairs[k]).Produced? <==>
        run(stratName, pairs[k].0, pairs[k].1).Success? &&
        GridRow(pairs[k].0, pairs[k].1, run(stratName, pairs[k].0, pairs[k].1).value.metrics).Success?
      ensures step(pairs[k]).Produced? ==>
        var row := GridRow(pairs[k].0, pairs[k].1, run(stratName, pairs[k].0, pairs[k].1).value.metrics).value;
        step(pairs[k]) == Produced(row, RowJson(row)) && (row.fast, row.slow) == pairs[k]
    {
      var pair := pairs[k];
      match run(stratName, pair.0, pair.1)
      case Failure(_) =>
      case Success(res) =>
        var m := res.metrics;
        RowOfProperties(pair.0, pair.1, Metric(m, "total_return"), Metric(m, "vol_annual"), Metric(m, "sharpe"));
    }
    RunProduced(step, pairs);
    if Run(step, pairs).error.None? {
      AllProduced(step, pairs);
      ProducedRowsAt(step, pairs);
      ProducedRunsAt(step, pairs);
    }
  }

  const MissingCsv: string := "CSV not found"

  /** The outcome of `run_grid`, as a function of its inputs. */
  function GridOutcome(csvExists: bool, stratName: string, fasts: seq<int>, slows: seq<int>, run: StrategyRunner): Outcome {
    if !csvExists then Aborted(MissingCsv)
    else
      var p := Run(GridStep(stratName, run), Cross(fasts, slows));
      if p.error.Some? then Aborted(p.error.value) else Completed(p.rows)
  }

  /** The output directory `run_grid` leaves: the row files, then the summary if nothing raised. */
  function GridFiles(files: map<string, Json>, csvExists: bool, stratName: string,
                     fasts: seq<int>, slows: seq<int>, run: StrategyRunner): map<string, Json>
  {
    if !csvExists then files
    else
      var p := Run(GridStep(stratName, run), Cross(fasts, slows));
      if p.error.Some? then WriteRuns(files, p.runs)
      else WriteRuns(files, p.runs)[SummaryFileName := SummaryJson(p.rows)]
  }

  /** A missing CSV raises before any strategy runs or any file is written. */
  lemma MissingCsvWritesNothing(files: map<string, Json>, stratName: string, fasts: seq<int>, slows: seq<int>, run: StrategyRunner)
    ensures GridOutcome(false, stratName, fasts, slows, run) == Aborted(MissingCsv)
    ensures GridFiles(files, false, stratName, fasts, slows, run) == files
  {
  }

  /** `run_grid(csv_path, strat_name, {"fast": fasts, "slow": slows})`. */
  method RunGrid(dir: MultiDir, csvExists: bool, stratName: string, fasts: seq<int>, slows: seq<int>, run: StrategyRunner)
    returns (r: Outcome)
    modifies dir
    ensures r == GridOutcome(csvExists, stratName, fasts, slows, run)
    ensures dir.files == GridFiles(old(dir.files), csvExists, stratName, fasts, slows, run)
  {
    if !csvExists {
      return Aborted(MissingCsv);
    }
    var p := SweepGrid(dir, fasts, slows, GridStep(stratName, run));
    if p.error.Some? {
      return Aborted(p.error.value);
    }
    dir.Write(SummaryFileName, SummaryJson(p.rows));
    r := Completed(p.rows);
  }
}
