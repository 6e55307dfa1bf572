/** The stub backtest tool `backtest_run` (tools/backtest_run.py). */
module BacktestRunTool {
  import opened Wrappers
  import opened Json
  import opened Grid
  import opened OrchestratorApp

  const DefaultSymbols: seq<string> := ["SPY"]
  const DefaultParams: map<string, Json> := map["sma_fast" := JInt(50), "sma_slow" := JInt(200)]
  const StubSharpe: real := 1.23
  const StubMaxDD: real := 0.16

  /** `symbols or ["SPY"]`: a missing or empty list becomes the default. */
  function EffectiveSymbols(symbols: Option<seq<string>>): (r: seq<string>)
    ensures r != []
    ensures symbols.None? || symbols.value == [] ==> r == DefaultSymbols
    ensures symbols.Some? && symbols.value != [] ==> r == symbols.value
  {
    if symbols.None? || symbols.value == [] then DefaultSymbols else symbols.value
  }

  /** `params or {"sma_fast": 50, "sma_slow": 200}`. */
  function EffectiveParams(params: Option<map<string, Json>>): (r: map<string, Json>)
    ensures r != map[]
    ensures params.None? || params.value == map[] ==> r == DefaultParams
    ensures params.Some? && params.value != map[] ==> r == params.value
  {
    if params.None? || params.value == map[] then
      assert "sma_fast" in DefaultParams;
      DefaultParams
    else params.value
  }

  /** Substituting defaults a second time changes nothing. */
  lemma DefaultsIdempotent(symbols: Option<seq<string>>, params: Option<map<string, Json>>)
    ensures EffectiveSymbols(Some(EffectiveSymbols(symbols))) == EffectiveSymbols(symbols)
    ensures EffectiveParams(Some(EffectiveParams(params))) == EffectiveParams(params)
  {
  }

  /** The returned record. */
  function BacktestRun(strategy: string, symbols: Option<seq<string>>, params: Option<map<string, Json>>): (out: Json)
  {
    JObj(map[
      "strategy" := JStr(strategy),
      "symbols" := StrArray(EffectiveSymbols(symbols)),
      "sharpe" := JReal(StubSharpe),
      "maxDD" := JReal(StubMaxDD),
      "params" := JObj(EffectiveParams(params))])
  }

  /**
    The record is an object with exactly five keys; it echoes the strategy and
    the effective symbols and parameters, and its metrics are the same for every input.
  */
  lemma BacktestRunShape(strategy: string, symbols: Option<seq<string>>, params: Option<map<string, Json>>)
    ensures var out := BacktestRun(strategy, symbols, params);
      && out.JObj?
      && out.fields.Keys == {"strategy", "symbols", "sharpe", "maxDD", "params"}
      && out.fields["strategy"] == JStr(strategy)
      && out.fields["symbols"] == StrArray(EffectiveSymbols(symbols))
      && out.fields["params"] == JObj(EffectiveParams(params))
      && AsNumber(out.fields["sharpe"]) == Some(StubSharpe)
      && AsNumber(out.fields["maxDD"]) == Some(StubMaxDD)
  {
  }

  // ---------------------------------------------------------------------
  // The stub as the multi-run job's tool
  // ---------------------------------------------------------------------

  /** `TOOLS["backtest.run"]` bound to this stub: it never raises. */
  function StubTool(strategy: string, symbols: seq<string>, params: Option<map<string, Json>>): Result<Json, string> {
    Success(BacktestRun(strategy, Some(symbols), params))
  }

  /** Every pair succeeds, and each output carries the stub's numeric sharpe and maxDD. */
  lemma {:induction false} StubSucceeds(pairs: seq<(string, string)>)
    ensures Failures(StubTool, pairs) == []
    ensures |Successes(StubTool, pairs)| == |pairs|
    ensures forall k :: 0 <= k < |pairs| ==>
      NumericField(Successes(StubTool, pairs)[k].output, "sharpe") == Some(StubSharpe)
      && NumericField(Successes(StubTool, pairs)[k].output, "maxDD") == Some(StubMaxDD)
  {
    if pairs != [] {
      var p := pairs[|pairs| - 1];
      StubSucceeds(pairs[..|pairs| - 1]);
      BacktestRunShape(p.0, Some([p.1]), None);
    }
  }

  /** One value `c` per success when every output's field is `c`. */
  lemma {:induction false} ConstantValues(results: seq<PairSuccess>, key: string, c: real)
    requires forall k :: 0 <= k < |results| ==> NumericField(results[k].output, key) == Some(c)
    ensures |NumericValues(results, key)| == |results|
    ensures forall k :: 0 <= k < |NumericValues(results, key)| ==> NumericValues(results, key)[k] == c
  {
    if results != [] {
      var init := results[..|results| - 1];
      assert forall k :: 0 <= k < |init| ==> init[k] == results[k];
      ConstantValues(init, key, c);
    }
  }

  /** The mean and the maximum of values that are all `c` are `c`. */
  lemma {:induction false} ConstantStats(xs: seq<real>, c: real)
    requires xs != [] && forall k :: 0 <= k < |xs| ==> xs[k] == c
    ensures Mean(xs) == Some(c) && Max(xs) == Some(c)
  {
    SumConstant(xs, c);
    var n := |xs| as real;
    assert Sum(xs) / n == c;
    assert Mean(xs) == Some(c);
    var k :| 0 <= k < |xs| && xs[k] == Max(xs).value;
    assert Max(xs) == Some(c);
  }

  lemma {:induction false} SumConstant(xs: seq<real>, c: real)
    requires forall k :: 0 <= k < |xs| ==> xs[k] == c
    ensures Sum(xs) == |xs| as real * c
  {
    if xs != [] {
      var init := xs[..|xs| - 1];
      SumConstant(init, c);
      assert (|init| as real) * c + c == (|xs| as real) * c;
    }
  }

  /**
    With this stub as the tool, a multi-run over at least one strategy and one
    symbol completes without errors, with one result per pair, mean sharpe
    1.23 and worst maxDD 0.16.
  */
  lemma StubMultiRun(runId: string, req: MultiRunRequest, completedAt: string)
    requires req.strategies != [] && req.symbols != []
    ensures var a := JobArtifact(runId, req, StubTool, completedAt);
      && a.status == Complete && a.errors == []
      && |a.results| == |req.strategies| * |req.symbols|
      && a.summary.meanSharpe == Some(StubSharpe)
      && a.summary.worstMaxDD == Some(StubMaxDD)
  {
    var pairs := Cross(req.strategies, req.symbols);
    CrossLength(req.strategies, req.symbols);
    StubSucceeds(pairs);
    var results := Successes(StubTool, pairs);
    assert |results| > 0 by {
      assert |req.strategies| * |req.symbols| >= |req.symbols|;
    }
    ConstantValues(results, "sharpe", StubSharpe);
    ConstantValues(results, "maxDD", StubMaxDD);
    ConstantStats(NumericValues(results, "sharpe"), StubSharpe);
    ConstantStats(NumericValues(results, "maxDD"), StubMaxDD);
  }
}
