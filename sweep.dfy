/**
  What the two SMA-crossover sweep producers (strategies/multi_run_sma_cross.py
  and chat/strategy_grid.py) share with the ranker that reads their output
  (strategies/grid_inspector.py): the per-run file name, the summary row, the
  strategy's result record and the output directory.
*/
module Sweep {
  import opened Wrappers
  import opened Json
  import opened PyStr
  import opened Grid

  /** `str(i)` for an integer. */
  function IntToString(i: int): (s: string)
    ensures i >= 0 ==> s == NatToString(i)
  {
    if i < 0 then "-" + NatToString(-i) else NatToString(i)
  }

  /** `f"sma_cross_fast{fast}_slow{slow}.json"`. */
  function RunFileName(fast: int, slow: int): string {
    "sma_cross_fast" + IntToString(fast) + "_slow" + IntToString(slow) + ".json"
  }

  const SummaryFileName: string := "sma_cross_summary.json"

  /** A row of `sma_cross_summary.json`. */
  datatype SummaryRow = SummaryRow(
    fast: int, slow: int, totalReturn: real, volAnnual: real, sharpe: real, score: real)

  /** The row as the JSON object that is written. */
  function RowJson(row: SummaryRow): (j: Json)
    ensures j.JObj? && j.fields.Keys == {"fast", "slow", "total_return", "vol_annual", "sharpe", "score"}
  {
    JObj(map[
      "fast" := JInt(row.fast), "slow" := JInt(row.slow),
      "total_return" := JReal(row.totalReturn), "vol_annual" := JReal(row.volAnnual),
      "sharpe" := JReal(row.sharpe), "score" := JReal(row.score)])
  }

  /** `{"rows": rows}`. */
  function SummaryJson(rows: seq<SummaryRow>): (j: Json)
    ensures j.JObj? && j.fields.Keys == {"rows"} && j.fields["rows"].JArr?
    ensures |j.fields["rows"].items| == |rows|
    ensures forall k :: 0 <= k < |rows| ==> j.fields["rows"].items[k] == RowJson(rows[k])
  {
    JObj(map["rows" := JArr(seq(|rows|, k requires 0 <= k < |rows| => RowJson(rows[k])))])
  }

  /** `StrategyResult` of strategies/strategy_engine.py. */
  datatype StrategyResult = StrategyResult(
    name: string, params: map<string, Json>, equityCurve: seq<real>,
    trades: seq<Json>, metrics: map<string, Json>)

  /**
    `run_strategy_on_csv(csv_path, strat_name, {"fast": fast, "slow": slow})`
    on the one CSV of a sweep: a result, or the raised exception's text.
  */
  type StrategyRunner = (string, int, int) -> Result<StrategyResult, string>

  /** `abs(x)`. */
  function Abs(x: real): real { if x < 0.0 then -x else x }

  /** `max(x, 0.0)`. */
  function PositivePart(x: real): real { if x > 0.0 then x else 0.0 }

  /** `sharpe * abs(total_return)`: the score of strategies/multi_run_sma_cross.py and strategies/grid_inspector.py. */
  function AbsScore(sharpe: real, totalReturn: real): real { sharpe * Abs(totalReturn) }

  /** `sharpe * max(total_return, 0.0)`: the score of chat/strategy_grid.py. */
  function PositiveScore(sharpe: real, totalReturn: real): real { sharpe * PositivePart(totalReturn) }

  /** A zero return scores 0; otherwise the score has the Sharpe ratio's sign. */
  lemma AbsScoreSign(sharpe: real, totalReturn: real)
    ensures totalReturn == 0.0 ==> AbsScore(sharpe, totalReturn) == 0.0
    ensures totalReturn != 0.0 ==>
      (AbsScore(sharpe, totalReturn) > 0.0 <==> sharpe > 0.0) && (AbsScore(sharpe, totalReturn) < 0.0 <==> sharpe < 0.0)
  {
    if totalReturn != 0.0 {
      ScaleSign(sharpe, Abs(totalReturn));
    }
  }

  /** Scaling by a positive factor keeps the sign. */
  lemma ScaleSign(x: real, y: real)
    requires y > 0.0
    ensures (x * y > 0.0 <==> x > 0.0) && (x * y < 0.0 <==> x < 0.0) && (x * y == 0.0 <==> x == 0.0)
  {
    if x > 0.0 {
      assert x * y > 0.0;
    } else if x < 0.0 {
      assert x * y < 0.0;
    }
  }

  /** The name a run's record is written under. */
  function RunName(pair: (int, int)): string {
    RunFileName(pair.0, pair.1)
  }

  /**
    Writing the per-run records in order, each under its pair's file name: a
    later write to a name replaces an earlier one.
  */
  function WriteRuns(files: map<string, Json>, runs: seq<((int, int), Json)>): map<string, Json> {
    if runs == [] then files
    else WriteRuns(files, runs[..|runs| - 1])[RunName(runs[|runs| - 1].0) := runs[|runs| - 1].1]
  }

  lemma WriteRunsSnoc(files: map<string, Json>, runs: seq<((int, int), Json)>, r: ((int, int), Json))
    ensures WriteRuns(files, runs + [r]) == WriteRuns(files, runs)[RunName(r.0) := r.1]
  {
    assert (runs + [r])[..|runs|] == runs;
  }

  /** A name no run is written under keeps its old content (or stays absent). */
  lemma {:induction false} WriteRunsUntouched(files: map<string, Json>, runs: seq<((int, int), Json)>, name: string)
    requires forall k :: 0 <= k < |runs| ==> RunName(runs[k].0) != name
    ensures name in WriteRuns(files, runs) <==> name in files
    ensures name in files ==> WriteRuns(files, runs)[name] == files[name]
  {
    if runs != [] {
      WriteRunsUntouched(files, runs[..|runs| - 1], name);
    }
  }

  /** A run's file holds its record when no later run is written under the same name. */
  lemma {:induction false} WriteRunsFinal(files: map<string, Json>, runs: seq<((int, int), Json)>, k: int)
    requires 0 <= k < |runs|
    requires forall l :: k < l < |runs| ==> RunName(runs[l].0) != RunName(runs[k].0)
    ensures RunName(runs[k].0) in WriteRuns(files, runs) && WriteRuns(files, runs)[RunName(runs[k].0)] == runs[k].1
  {
    if k < |runs| - 1 {
      var init := runs[..|runs| - 1];
      WriteRunsFinal(files, init, k);
    }
  }

  /** What one (fast, slow) iteration of a sweep does: skip the pair, produce a row and a file, or raise. */
  datatype PairOutcome = Skipped | Produced(row: SummaryRow, record: Json) | Raised(error: string)

  type PairStep = ((int, int)) -> PairOutcome

  /** The rows collected and the per-run records written so far, and the exception that ended the sweep, if any. */
  datatype Progress = Progress(rows: seq<SummaryRow>, runs: seq<((int, int), Json)>, error: Option<string>)

  /** One more iteration; after an exception nothing more happens. */
  function Extend(p: Progress, pair: (int, int), o: PairOutcome): Progress {
    if p.error.Some? then p
    else
      match o
      case Skipped => p
      case Produced(row, record) => Progress(p.rows + [row], p.runs + [(pair, record)], None)
      case Raised(e) => p.(error := Some(e))
  }

  /** The state of a sweep after visiting `pairs` in order. */
  function Run(step: PairStep, pairs: seq<(int, int)>): Progress {
    if pairs == [] then Progress([], [], None)
    else Extend(Run(step, pairs[..|pairs| - 1]), pairs[|pairs| - 1], step(pairs[|pairs| - 1]))
  }

  lemma RunSnoc(step: PairStep, pairs: seq<(int, int)>, pair: (int, int))
    ensures Run(step, pairs + [pair]) == Extend(Run(step, pairs), pair, step(pair))
  {
    assert (pairs + [pair])[..|pairs|] == pairs;
  }

  /** After an exception the remaining pairs change nothing. */
  lemma {:induction false} RunStopsAtError(step: PairStep, ps: seq<(int, int)>, qs: seq<(int, int)>)
    requires Run(step, ps).error.Some?
    ensures Run(step, ps + qs) == Run(step, ps)
    decreases |qs|
  {
    if qs == [] {
      assert ps + qs == ps;
    } else {
      RunStopsAtError(step, ps, qs[..|qs| - 1]);
      assert (ps + qs)[..|ps + qs| - 1] == ps + qs[..|qs| - 1];
    }
  }

  /** When the inner loop's pair (x, ys[j]) raises, the rest of that inner loop changes nothing. */
  lemma RowAbort(step: PairStep, done: seq<(int, int)>, x: int, ys: seq<int>, j: int)
    requires 0 <= j < |ys|
    requires Run(step, done + Row(x, ys[..j])).error.None?
    requires step((x, ys[j])).Raised?
    ensures Run(step, done + Row(x, ys)) ==
      Run(step, done + Row(x, ys[..j])).(error := Some(step((x, ys[j])).error))
  {
    var before := done + Row(x, ys[..j]);
    var prefix := done + Row(x, ys[..j + 1]);
    assert prefix == before + [(x, ys[j])] by {
      RowSnoc(x, ys, j);
      ConcatAssoc(done, Row(x, ys[..j]), [(x, ys[j])]);
    }
    RunSnoc(step, before, (x, ys[j]));
    assert done + Row(x, ys) == prefix + Row(x, ys[j + 1..]) by {
      assert ys == ys[..j + 1] + ys[j + 1..];
      RowAppend(x, ys[..j + 1], ys[j + 1..]);
      ConcatAssoc(done, Row(x, ys[..j + 1]), Row(x, ys[j + 1..]));
    }
    RunStopsAtError(step, prefix, Row(x, ys[j + 1..]));
  }

  /** Once an outer iteration has raised, the later outer iterations change nothing. */
  lemma {:induction false} OuterStops(step: PairStep, fasts: seq<int>, slows: seq<int>, i: int, k: int)
    requires 0 <= i <= k <= |fasts|
    requires Run(step, Cross(fasts[..i], slows)).error.Some?
    ensures Run(step, Cross(fasts[..k], slows)) == Run(step, Cross(fasts[..i], slows))
    decreases k
  {
    if k > i {
      OuterStops(step, fasts, slows, i, k - 1);
      var pre := Cross(fasts[..k - 1], slows);
      assert Cross(fasts[..k], slows) == pre + Row(fasts[k - 1], slows) by {
        CrossSnoc(fasts, slows, k - 1);
      }
      RunStopsAtError(step, pre, Row(fasts[k - 1], slows));
    }
  }

  /** The rows of the produced pairs, in visiting order. */
  function ProducedRows(step: PairStep, pairs: seq<(int, int)>): seq<SummaryRow> {
    if pairs == [] then []
    else
      var o := step(pairs[|pairs| - 1]);
      ProducedRows(step, pairs[..|pairs| - 1]) + (if o.Produced? then [o.row] else [])
  }

  /** The records of the produced pairs, each with its pair, in visiting order. */
  function ProducedRuns(step: PairStep, pairs: seq<(int, int)>): seq<((int, int), Json)> {
    if pairs == [] then []
    else
      var pair := pairs[|pairs| - 1];
      var o := step(pair);
      ProducedRuns(step, pairs[..|pairs| - 1]) + (if o.Produced? then [(pair, o.record)] else [])
  }

  /**
    A sweep ends without exception exactly when no pair raises; it then holds
    the rows and records of the produced pairs, in visiting order.
  */
  lemma {:induction false} RunProduced(step: PairStep, pairs: seq<(int, int)>)
    ensures Run(step, pairs).error.None? <==> forall k :: 0 <= k < |pairs| ==> !step(pairs[k]).Raised?
    ensures Run(step, pairs).error.None? ==>
      Run(step, pairs).rows == ProducedRows(step, pairs) && Run(step, pairs).runs == ProducedRuns(step, pairs)
  {
    if pairs != [] {
      var init := pairs[..|pairs| - 1];
      RunProduced(step, init);
      assert forall k :: 0 <= k < |init| ==> init[k] == pairs[k];
      if Run(step, init).error.Some? {
        var k :| 0 <= k < |init| && step(init[k]).Raised?;
        assert step(pairs[k]).Raised?;
      }
    }
  }

  /** The pairs whose outcome is a row, in visiting order. */
  function ProducedPairs(step: PairStep, pairs: seq<(int, int)>): (qs: seq<(int, int)>)
    ensures |qs| <= |pairs|
  {
    if pairs == [] then []
    else
      var pair := pairs[|pairs| - 1];
      ProducedPairs(step, pairs[..|pairs| - 1]) + (if step(pair).Produced? then [pair] else [])
  }

  /** The k-th row is the row of the k-th produced pair. */
  lemma {:induction false} ProducedRowsAt(step: PairStep, pairs: seq<(int, int)>)
    ensures |ProducedRows(step, pairs)| == |ProducedPairs(step, pairs)|
    ensures forall k :: 0 <= k < |ProducedPairs(step, pairs)| ==>
      step(ProducedPairs(step, pairs)[k]).Produced? &&
      ProducedRows(step, pairs)[k] == step(ProducedPairs(step, pairs)[k]).row
  {
    if pairs != [] {
      var n := |pairs| - 1;
      var init, pair := pairs[..n], pairs[n];
      ProducedRowsAt(step, init);
      var qs, rs := ProducedPairs(step, pairs), ProducedRows(step, pairs);
      var qi, ri := ProducedPairs(step, init), ProducedRows(step, init);
      if step(pair).Produced? {
        assert qs == qi + [pair] && rs == ri + [step(pair).row];
        forall k | 0 <= k < |qs|
          ensures step(qs[k]).Produced? && rs[k] == step(qs[k]).row
        {
          if k < |qi| {
            assert qs[k] == qi[k] && rs[k] == ri[k];
          } else {
            assert qs[k] == pair && rs[k] == step(pair).row;
          }
        }
      } else {
        assert qs == qi && rs == ri;
      }
    }
  }

  /** The k-th record belongs to the k-th produced pair. */
  lemma {:induction false} ProducedRunsAt(step: PairStep, pairs: seq<(int, int)>)
    ensures |ProducedRuns(step, pairs)| == |ProducedPairs(step, pairs)|
    ensures forall k :: 0 <= k < |ProducedPairs(step, pairs)| ==>
      step(ProducedPairs(step, pairs)[k]).Produced? &&
      ProducedRuns(step, pairs)[k] == (ProducedPairs(step, pairs)[k], step(ProducedPairs(step, pairs)[k]).record)
  {
    if pairs != [] {
      var n := |pairs| - 1;
      var init, pair := pairs[..n], pairs[n];
      ProducedRunsAt(step, init);
      var qs, ws := ProducedPairs(step, pairs), ProducedRuns(step, pairs);
      var qi, wi := ProducedPairs(step, init), ProducedRuns(step, init);
      if step(pair).Produced? {
        var last := (pair, step(pair).record);
        assert qs == qi + [pair] && ws == wi + [last];
        forall k | 0 <= k < |qs|
          ensures step(qs[k]).Produced? && ws[k] == (qs[k], step(qs[k]).record)
        {
          if k < |qi| {
            assert qs[k] == qi[k] && ws[k] == wi[k];
          } else {
            assert qs[k] == pair && ws[k] == last;
          }
        }
      } else {
        assert qs == qi && ws == wi;
      }
    }
  }

  /** When every pair produces a row, the produced pairs are all the pairs. */
  lemma {:induction false} AllProduced(step: PairStep, pairs: seq<(int, int)>)
    requires forall k :: 0 <= k < |pairs| ==> step(pairs[k]).Produced?
    ensures ProducedPairs(step, pairs) == pairs
  {
    if pairs != [] {
      var n := |pairs| - 1;
      var init := pairs[..n];
      assert forall k :: 0 <= k < n ==> step(init[k]).Produced? by {
        assert forall k :: 0 <= k < n ==> init[k] == pairs[k];
      }
      AllProduced(step, init);
      assert init + [pairs[n]] == pairs;
    }
  }

  /**
    The nested `for fast in ...: for slow in ...:` loop both producers share:
    each pair's outcome either is skipped, appends a row and writes its file,
    or raises, which ends the loop with the files written so far.
  */
  method SweepGrid(dir: MultiDir, fasts: seq<int>, slows: seq<int>, step: PairStep) returns (p: Progress)
    modifies dir
    ensures p == Run(step, Cross(fasts, slows))
    ensures dir.files == WriteRuns(old(dir.files), p.runs)
  {
    var rows: seq<SummaryRow> := [];
    var runs: seq<((int, int), Json)> := [];
    var i := 0;
    while i < |fasts|
      invariant 0 <= i <= |fasts|
      invariant Run(step, Cross(fasts[..i], slows)) == Progress(rows, runs, None)
      invariant dir.files == WriteRuns(old(dir.files), runs)
    {
      var error;
      rows, runs, error := SweepRow(dir, step, Cross(fasts[..i], slows), fasts[i], slows, rows, runs, old(dir.files));
      OuterStep(step, fasts, slows, i, Progress(rows, runs, error));
      if error.Some? {
        return Progress(rows, runs, error);
      }
      i := i + 1;
    }
    assert fasts[..i] == fasts;
    p := Progress(rows, runs, None);
  }

  /** One outer iteration extends the sweep by its row; an exception in it is the sweep's result. */
  lemma OuterStep(step: PairStep, fasts: seq<int>, slows: seq<int>, i: int, p: Progress)
    requires 0 <= i < |fasts|
    requires Run(step, Cross(fasts[..i], slows) + Row(fasts[i], slows)) == p
    ensures Run(step, Cross(fasts[..i + 1], slows)) == p
    ensures p.error.Some? ==> Run(step, Cross(fasts, slows)) == p
  {
    CrossSnoc(fasts, slows, i);
    if p.error.Some? {
      OuterStops(step, fasts, slows, i + 1, |fasts|);
      assert fasts[..|fasts|] == fasts;
    }
  }

  /** The inner `for slow in ...:` loop of one `fast`, after the pairs `done`; an exception ends it. */
  method SweepRow(dir: MultiDir, step: PairStep, ghost done: seq<(int, int)>, fast: int, slows: seq<int>,
                  rows0: seq<SummaryRow>, runs0: seq<((int, int), Json)>, ghost files: map<string, Json>)
    returns (rows: seq<SummaryRow>, runs: seq<((int, int), Json)>, error: Option<string>)
    requires Run(step, done) == Progress(rows0, runs0, None)
    requires dir.files == WriteRuns(files, runs0)
    modifies dir
    ensures Run(step, done + Row(fast, slows)) == Progress(rows, runs, error)
    ensures dir.files == WriteRuns(files, runs)
  {
    rows, runs, error := rows0, runs0, None;
    assert done + Row(fast, slows[..0]) == done;
    var j := 0;
    while j < |slows|
      invariant 0 <= j <= |slows|
      invariant Run(step, done + Row(fast, slows[..j])) == Progress(rows, runs, None) && error.None?
      invariant dir.files == WriteRuns(files, runs)
    {
      var slow := slows[j];
      ghost var before := done + Row(fast, slows[..j]);
      assert done + Row(fast, slows[..j + 1]) == before + [(fast, slow)] by {
        RowSnoc(fast, slows, j);
        ConcatAssoc(done, Row(fast, slows[..j]), [(fast, slow)]);
      }
      RunSnoc(step, before, (fast, slow));
      ghost var p := Progress(rows, runs, None);
      rows, runs, error := Visit(dir, step, (fast, slow), rows, runs, files);
      if error.Some? {
        assert step((fast, slow)).Raised? && Progress(rows, runs, error) == p.(error := error);
        RowAbort(step, done, fast, slows, j);
        return;
      }
      j := j + 1;
    }
    assert slows[..j] == slows;
  }

  /** One iteration of the sweep loop: the pair's outcome extends the rows and runs, writing the run's file. */
  method Visit(dir: MultiDir, step: PairStep, pair: (int, int), rows: seq<SummaryRow>, runs: seq<((int, int), Json)>,
               ghost files: map<string, Json>)
    returns (rows': seq<SummaryRow>, runs': seq<((int, int), Json)>, error: Option<string>)
    requires dir.files == WriteRuns(files, runs)
    modifies dir
    ensures Progress(rows', runs', error) == Extend(Progress(rows, runs, None), pair, step(pair))
    ensures dir.files == WriteRuns(files, runs')
  {
    rows', runs', error := rows, runs, None;
    match step(pair) {
      case Raised(e) =>
        error := Some(e);
      case Skipped =>
      case Produced(row, record) =>
        rows' := rows + [row];
        WriteRunsSnoc(files, runs, (pair, record));
        runs' := runs + [(pair, record)];
        dir.Write(RunFileName(pair.0, pair.1), record);
    }
  }

  /** How a sweep ends: with its summary rows, or with the exception that stopped it. */
  datatype Outcome = Completed(rows: seq<SummaryRow>) | Aborted(error: string)

  /** The sweep's output directory (`MULTI_DIR`): file name to written JSON. */
  class MultiDir {
    var files: map<string, Json>

    constructor (files: map<string, Json>)
      ensures this.files == files
    {
      this.files := files;
    }

    /** Write (or overwrite) one file. */
    method Write(name: string, content: Json)
      modifies this
      ensures files == old(files)[name := content]
    {
      files := files[name := content];
    }
  }
}
