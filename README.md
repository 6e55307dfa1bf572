# Aegis trading assistant: the deterministic core, modelled in Dafny

Aegis is a local trading-research assistant. Around a language model and a
strategy engine it has five kinds of deterministic logic, which this project
models and proves properties of:

- **The multi-run orchestrator** (`chat/orchestrator_app.py`). It holds the
  tool allow/deny policy and a per-hour rate counter for `backtest.run`. It
  checks the order of the tool call in `/ask`, and builds the RAG context. Its
  run registry takes each multi-run job from QUEUED to RUNNING to COMPLETE or
  COMPLETE_WITH_ERRORS. The job runs every strategy on every symbol, splits
  the outcomes into results and errors, and summarises them. The class
  `OrchestratorApp.Orchestrator` holds the policy, the rate counters, the
  registry and the written artifacts as fields that its methods update. A
  ghost status history per run backs the invariant that the registry only
  moves forward.
- **The SMA-crossover sweep and its ranker.** Two producers write one JSON
  record per (fast, slow) pair plus a summary:
  `strategies/multi_run_sma_cross.py` keeps only pairs with fast < slow and
  scores `sharpe * |total_return|`; `chat/strategy_grid.py` keeps every pair
  and scores `sharpe * max(total_return, 0)`. The ranker
  `strategies/grid_inspector.py` reads the records back. It takes fast and
  slow from the record or from the file name, and the metrics with
  fallbacks. It re-scores every row and sorts best first. Both sweep loops
  are methods over a `Sweep.MultiDir` object whose file map they update. They
  are proved against one shared specification (`Sweep.Run`), and the ranker
  is proved to read back what each producer wrote.
- **The tool gateway stub** (`chat/orchestrator_stub.py`). It has a line-based
  policy reader, the allow-list test, and the order of checks in `/tool/run`
  and `/chat` (403 before 400 before any call). It also has a keyword-overlap
  retriever: tokenise, intersect, keep the overlapping records, stable-sort
  them, take k.
- **The RAG chunker** (`rag/build_index.py`). It cuts text into sliding
  windows of `size` characters every `size - overlap` characters, and
  normalises whitespace. The index records it writes are read back by the
  stub's retriever.
- **Backtest server helpers** (`chat/backtest_server.py`). This covers:
  - the `CSV_PATH::` marker scan, which round-trips with the line that
    `chat/run_backtest.py` prints;
  - the choice of the plotted column;
  - the `tail_logs` clamp;
  - the assembly of a task's command;
  - the gate of `run_and_plot`.
- **Project-file helpers and tool stubs.** `aegis_llm/tools_local.py`
  confines listing and reading to the project root. It caps the listing and
  truncates the snippet. `tools/backtest_run.py` and `tools/data_fetch.py`
  fill in defaults and return fixed record shapes.

Shared modules model the Python the core relies on:

- `Wrappers`: `Option`, `Result`, and an HTTP error.
- `PyStr`: `str` methods as `seq<char>`.
- `Json`: decoded JSON values, `dict.get`, truthiness, and `int()` /
  `float()`.
- `Ranking`: `list.sort(key=..., reverse=True)` as a stable insertion sort,
  with its correctness proved.
- `Grid`: nested-loop pair order.
- `Paths`: resolved paths as component sequences, with `parents`,
  `relative_to` and `str()`.

Each module is one source file (`orchestrator_app.dfy`, `grid_inspector.dfy`,
…). Loops and in-place updates in the source are `method`s with loops,
invariants or `modifies` clauses. Each method is proved against a function
that states its result, and the lemmas are about those functions.
Expression-only code is `function`s and lemmas. Metrics are `real`. The
backtest tool, the strategy engine and the language model are function-valued
parameters. The file system is maps and sequences given as inputs. Clocks and
ids are parameters.

Where the code and its description disagree, the model follows the code:

- `allowed_tool` denies every name when the allow list is missing or empty.
  It does not mean "allow all except the deny list".
- The run status `FAILED` is never produced. A job in which every call
  raises ends `COMPLETE_WITH_ERRORS`.
- `run_and_plot` checks the CSV location with a string prefix, while
  `plot_equity` uses a path-component check. See "## Findings".
- The ranker's score `sharpe * |total_return|` and `chat/strategy_grid.py`'s
  score `sharpe * max(total_return, 0)` are different formulas. The ranker
  re-scores every record it loads. `MultiRunSmaCross.ScoreFormulasAgree`
  states exactly when the two agree.

## Model

| member | source | states |
|---|---|---|
| `OrchestratorApp.AllowedToolPolicy` | aegis_start_work_pack/chat/orchestrator_app.py:60-63 | a name is allowed iff it is in the allow list and not in the deny list; deny wins; an empty allow list rejects every name |
| `OrchestratorApp.RateLimitStep` | aegis_start_work_pack/chat/orchestrator_app.py:66-86 | without a limit (another tool, or `backtest_per_hour` missing or 0) the answer is false and no counter changes; otherwise the call is limited iff the bucket's count has reached the limit, the bucket goes up by one exactly when it is not, and every other bucket is unchanged |
| `OrchestratorApp.Replay` | aegis_start_work_pack/chat/orchestrator_app.py:66-86 | n consecutive calls in one hour give n answers |
| `OrchestratorApp.ReplayBudget` | aegis_start_work_pack/chat/orchestrator_app.py:72-86 | with limit L > 0 and starting count c, call i of the hour is refused iff c + i >= L; the bucket ends at min(c + n, L); no other bucket changes |
| `OrchestratorApp.OtherToolsUnlimited` | aegis_start_work_pack/chat/orchestrator_app.py:67-70 | any tool other than "backtest.run" is never limited, over any number of calls, and leaves every counter as it was |
| `OrchestratorApp.SixthCallLimited` | aegis_start_work_pack/chat/orchestrator_app.py:72-86 | with a limit of 5, the first five calls of an hour pass and the sixth is refused; the next hour starts again from 0 and its first call sets that bucket to 1 |
| `OrchestratorApp.AskCheckOrder` | aegis_start_work_pack/chat/orchestrator_app.py:157-175 | a tool call off the policy gets 403 and spends no budget; a rate-limited one gets 429 and leaves the counters unchanged; an unknown tool gets 400 after the rate check and, not being "backtest.run", spends nothing; success implies the tool is allowed and known; only "backtest.run" can change the counters |
| `OrchestratorApp.Orchestrator.RateLimited` | aegis_start_work_pack/chat/orchestrator_app.py:66-86 | the method's answer and new counters are `RateLimitStep` at the hour `now // 3600`; registry and artifacts are untouched |
| `OrchestratorApp.Orchestrator.Ask` | aegis_start_work_pack/chat/orchestrator_app.py:157-177 | the tool-call branch of `/ask`: the response and new counters are the policy-then-rate-then-table outcome; a reply without a tool call is returned as the answer |
| `OrchestratorApp.QuestionTokens` | aegis_start_work_pack/chat/orchestrator_app.py:101 | at most the first five whitespace-separated words of the lowered question |
| `OrchestratorApp.ContextChunks` | aegis_start_work_pack/chat/orchestrator_app.py:99-103 | never more chunks than items |
| `OrchestratorApp.Mentioning` | aegis_start_work_pack/chat/orchestrator_app.py:99-101 | the positions of the items whose text mentions a token: each valid and mentioning, strictly increasing, and none left out |
| `OrchestratorApp.ContextChunksAt` | aegis_start_work_pack/chat/orchestrator_app.py:99-103 | one chunk per mentioning item, in index order: chunk j is the `[path]\ntext[:400]` chunk of mentioning position j |
| `OrchestratorApp.ContextChunksMembers` | aegis_start_work_pack/chat/orchestrator_app.py:99-103 | a chunk is collected iff it is the chunk of some item that mentions a token |
| `OrchestratorApp.ContextPartsSpec` | aegis_start_work_pack/chat/orchestrator_app.py:96-104 | the context joins min(3, m) chunks, where m items among the first ten mention a question word; they are the chunks of the first mentioning items, in index order, all from positions below 10 |
| `OrchestratorApp.ContextChunksSnoc` | aegis_start_work_pack/chat/orchestrator_app.py:99-103 | one more item adds its `[path]\ntext[:400]` chunk exactly when its lowered text contains a token |
| `OrchestratorApp.NoWordsNoContext` | aegis_start_work_pack/chat/orchestrator_app.py:96-104 | a question without words gives the empty context |
| `OrchestratorApp.NoTokensNoChunks` | aegis_start_work_pack/chat/orchestrator_app.py:101 | with no tokens no item matches |
| `OrchestratorApp.AnyTokenIn` | aegis_start_work_pack/chat/orchestrator_app.py:101 | the short-circuit `any` is true iff some token occurs in the text |
| `OrchestratorApp.MatchingChunks` | aegis_start_work_pack/chat/orchestrator_app.py:98-103 | the loop collects exactly `ContextChunks` |
| `OrchestratorApp.MakeContext` | aegis_start_work_pack/chat/orchestrator_app.py:96-104 | the context is the first three matching chunks of the first ten items, joined by a blank line |
| `OrchestratorApp.Orchestrator.constructor` | aegis_start_work_pack/chat/orchestrator_app.py:42 | an empty registry and no artifacts, with the registry invariant established |
| `OrchestratorApp.Orchestrator.StartMultiRun` | aegis_start_work_pack/chat/orchestrator_app.py:255-270 | exactly one registry entry is added or replaced: status QUEUED, created_at == updated_at == now, the submitted request, no artifact; every other entry, the counters and the artifacts are unchanged; the response echoes the id, "QUEUED" and the time |
| `OrchestratorApp.Orchestrator.GetMultiRun` | aegis_start_work_pack/chat/orchestrator_app.py:273-278 | the stored record for a known id, 404 "run_id not found" otherwise |
| `OrchestratorApp.Orchestrator.MarkRunning` | aegis_start_work_pack/chat/orchestrator_app.py:188-189 | a QUEUED run becomes RUNNING with a new updated_at; its history becomes QUEUED, RUNNING; nothing else changes |
| `OrchestratorApp.StartedOk` | aegis_start_work_pack/chat/orchestrator_app.py:188-189 | a well-formed QUEUED record has history [QUEUED], and once started it is a well-formed RUNNING record |
| `OrchestratorApp.Orchestrator.Finish` | aegis_start_work_pack/chat/orchestrator_app.py:247-251 | the artifact is written, then the RUNNING record takes the artifact's terminal status, a new updated_at and the artifact path; the history ends in that status |
| `OrchestratorApp.Orchestrator.WriteArtifact` | aegis_start_work_pack/chat/orchestrator_app.py:180-183 | one artifact file is (over)written at `runs/<id>.json`, nothing else changes |
| `OrchestratorApp.Orchestrator.MultiRunJob` | aegis_start_work_pack/chat/orchestrator_app.py:185-251 | the whole job: the artifact for the run is `JobArtifact` of the request and the tool; the record goes QUEUED, RUNNING, terminal, with the registry status equal to the artifact status and the artifact path set; the rate counters are never touched (no policy or rate check is made) |
| `OrchestratorApp.RunPairs` | aegis_start_work_pack/chat/orchestrator_app.py:195-215 | the nested loops collect exactly the successes and the failures of the pairs strategies × symbols, strategy outer, in loop order |
| `OrchestratorApp.RunStrategy` | aegis_start_work_pack/chat/orchestrator_app.py:196-215 | the inner loop collects the outcomes of one strategy on every symbol, in order |
| `OrchestratorApp.OutcomesPartition` | aegis_start_work_pack/chat/orchestrator_app.py:197-215 | every attempted pair lands in exactly one of the two lists |
| `OrchestratorApp.OutcomesSnoc` | aegis_start_work_pack/chat/orchestrator_app.py:197-215 | one more pair appends one record to the results if its call returned, to the errors if it raised |
| `OrchestratorApp.SuccessesAppend` | aegis_start_work_pack/chat/orchestrator_app.py:195-208 | the results of consecutive parts of the loop are concatenated, so loop order is kept |
| `OrchestratorApp.FailuresAppend` | aegis_start_work_pack/chat/orchestrator_app.py:195-215 | the errors of consecutive parts of the loop are concatenated, so loop order is kept |
| `OrchestratorApp.SuccessesMembers` | aegis_start_work_pack/chat/orchestrator_app.py:197-208 | a result record exists iff its pair was attempted and the call returned that output |
| `OrchestratorApp.FailuresMembers` | aegis_start_work_pack/chat/orchestrator_app.py:210-215 | an error record exists iff its pair was attempted and the call raised that text |
| `OrchestratorApp.FailuresEmpty` | aegis_start_work_pack/chat/orchestrator_app.py:210-215 | there are no errors iff every attempted call succeeded |
| `OrchestratorApp.NumericValues` | aegis_start_work_pack/chat/orchestrator_app.py:221-227 | at most one value per success: the numeric fields of dict outputs |
| `OrchestratorApp.NumericValuesMembers` | aegis_start_work_pack/chat/orchestrator_app.py:221-227 | a value is aggregated iff some success's output is a dict holding it as a number under that key; missing and non-numeric fields are skipped, not counted as zero |
| `OrchestratorApp.Max` | aegis_start_work_pack/chat/orchestrator_app.py:234 | None iff there are no values; otherwise a member of the values that none exceeds |
| `OrchestratorApp.TerminalStatus` | aegis_start_work_pack/chat/orchestrator_app.py:239 | always terminal; COMPLETE iff there are no errors, COMPLETE_WITH_ERRORS otherwise (no FAILED) |
| `OrchestratorApp.JobSummary` | aegis_start_work_pack/chat/orchestrator_app.py:229-239 | requested_runs == len(strategies) * len(symbols) == successful_runs + failed_runs; the status is COMPLETE iff every call succeeded; mean_sharpe and worst_maxDD are None iff no success carried that numeric field |
| `OrchestratorApp.RunJob` | aegis_start_work_pack/chat/orchestrator_app.py:191-245 | the payload the job writes is `JobArtifact` |
| `OrchestratorApp.Summarize` | aegis_start_work_pack/chat/orchestrator_app.py:217-235 | the summary loop builds exactly `SummaryOf`: counts, mean of the numeric sharpes, maximum of the numeric maxDDs |
| `OrchestratorApp.ArtifactPathInjective` | aegis_start_work_pack/chat/orchestrator_app.py:181 | distinct run ids get distinct artifact files |
| `BacktestRunTool.EffectiveSymbols` | aegis_start_work_pack/tools/backtest_run.py:2 | None or empty symbols become ["SPY"]; non-empty ones are kept |
| `BacktestRunTool.EffectiveParams` | aegis_start_work_pack/tools/backtest_run.py:3 | None or empty params become {"sma_fast": 50, "sma_slow": 200}; non-empty ones are kept |
| `BacktestRunTool.DefaultsIdempotent` | aegis_start_work_pack/tools/backtest_run.py:2-3 | substituting the defaults twice is substituting them once |
| `BacktestRunTool.BacktestRunShape` | aegis_start_work_pack/tools/backtest_run.py:4 | exactly the five keys; the strategy and the effective symbols and params are echoed; sharpe 1.23 and maxDD 0.16 for every input |
| `BacktestRunTool.StubSucceeds` | aegis_start_work_pack/tools/backtest_run.py:1-4 | as the job's tool, every pair succeeds with numeric sharpe 1.23 and maxDD 0.16 |
| `BacktestRunTool.ConstantValues` | aegis_start_work_pack/chat/orchestrator_app.py:221-227 | when every output carries the same value, one copy per success is collected |
| `BacktestRunTool.ConstantStats` | aegis_start_work_pack/chat/orchestrator_app.py:233-234 | the mean and the maximum of values that are all c are c |
| `BacktestRunTool.StubMultiRun` | aegis_start_work_pack/chat/orchestrator_app.py:195-239 | with the stub tool and a non-empty request the job is COMPLETE with no errors, one result per pair, mean_sharpe 1.23 and worst_maxDD 0.16 |
| `DataFetchTool.EffectiveSymbols` | aegis_start_work_pack/tools/data_fetch.py:2 | None or empty symbols become ["AAPL", "MSFT"]; non-empty ones are kept |
| `DataFetchTool.DataFetchShape` | aegis_start_work_pack/tools/data_fetch.py:3 | exactly three keys: the effective symbols, the echoed range_days and rows == 390 * range_days |
| `DataFetchTool.DefaultRows` | aegis_start_work_pack/tools/data_fetch.py:1-3 | the default range of 5 days gives 1950 rows |
| `GridInspector.ToListMatchesHeader` | aegis_start_work_pack/strategies/grid_inspector.py:33-41 | `to_list` has six entries and entry k is the field that CSV header column k names |
| `GridInspector.DigitRun` | aegis_start_work_pack/strategies/grid_inspector.py:49 | the `\d+` group: the longest run of digits at the position |
| `GridInspector.SearchFromSpec` | aegis_start_work_pack/strategies/grid_inspector.py:49-51 | the search returns the match at the leftmost matching position and fails iff the pattern matches nowhere |
| `GridInspector.MatchWritten` | aegis_start_work_pack/strategies/grid_inspector.py:49-52 | the pattern reads both digit strings back out of "fast{df}_slow{ds}" followed by a non-digit |
| `GridInspector.NoMatchWithoutF` | aegis_start_work_pack/strategies/grid_inspector.py:49 | no match starts at a character other than `f` |
| `GridInspector.ParseRunFileName` | aegis_start_work_pack/strategies/grid_inspector.py:44-52 | for naturals f, s the name `sma_cross_fast{f}_slow{s}.json` (written at strategies/multi_run_sma_cross.py:125 and chat/strategy_grid.py:65) parses back to (f, s) |
| `GridInspector.ParsePrefixed` | aegis_start_work_pack/strategies/grid_inspector.py:49-52 | nothing in the "sma_cross_" prefix can start a match |
| `GridInspector.RunFileNameInjective` | aegis_start_work_pack/strategies/multi_run_sma_cross.py:125 | distinct (fast, slow) pairs of naturals get distinct run files, so no run overwrites another |
| `GridInspector.LoadRun` | aegis_start_work_pack/strategies/grid_inspector.py:55-133 | the step-by-step `load_run` computes `LoadResult`: a row, a skip with its reason, or the exception that escapes |
| `GridInspector.ReadFastSlow` | aegis_start_work_pack/strategies/grid_inspector.py:72-96 | params first, then the flat keys, then the file name for both, then `int()`; each failure is a skip |
| `GridInspector.ReadMetrics` | aegis_start_work_pack/strategies/grid_inspector.py:100-121 | the metrics block first, then the flat key, then 0.0, then `float()`; a failure is a skip |
| `GridInspector.LoadedScore` | aegis_start_work_pack/strategies/grid_inspector.py:123-124 | every loaded row is scored `sharpe * abs(total_return)` |
| `GridInspector.LoadCrashes` | aegis_start_work_pack/strategies/grid_inspector.py:63-101 | `load_run` raises iff the decoded file is not an object or its "params"/"metrics" value is truthy but not an object; every other defect skips the file |
| `GridInspector.NameFallback` | aegis_start_work_pack/strategies/grid_inspector.py:83-89 | a record missing fast (in both places) takes both numbers from the file name; a name without the pattern skips the file |
| `GridInspector.ExplicitFastSlow` | aegis_start_work_pack/strategies/grid_inspector.py:73-92 | integer params with no flat keys are what the fast/slow stage returns |
| `GridInspector.PlainMetrics` | aegis_start_work_pack/strategies/grid_inspector.py:100-118 | plain metrics convert to the producer's row values |
| `GridInspector.StagesLoad` | aegis_start_work_pack/strategies/grid_inspector.py:72-133 | when both stages succeed the file loads with their values and the product score |
| `GridInspector.SameMetric` | aegis_start_work_pack/strategies/grid_inspector.py:101-118 | a plain metric converts to the same value under `_as_float` and under the ranker's fallbacks |
| `GridInspector.StrategyGridRecordLoads` | aegis_start_work_pack/strategies/grid_inspector.py:55-133 | a row file written by chat/strategy_grid.py loads back to the same fast, slow and metrics, re-scored with `abs` |
| `GridInspector.SmaRecordLoads` | aegis_start_work_pack/strategies/grid_inspector.py:55-133 | a record written by strategies/multi_run_sma_cross.py with `{"fast", "slow"}` params and plain metrics loads back to exactly the producer's summary row |
| `GridInspector.NestedLoads` | aegis_start_work_pack/strategies/grid_inspector.py:72-124 | a nested record without flat keys loads as its row |
| `GridInspector.Loads` | aegis_start_work_pack/strategies/grid_inspector.py:152-153 | one `load_run` result per file, in file order |
| `GridInspector.CollectSpec` | aegis_start_work_pack/strategies/grid_inspector.py:151-155 | the loop raises iff some file's `load_run` raises; otherwise its rows are exactly the rows of the files that loaded |
| `GridInspector.CollectStops` | aegis_start_work_pack/strategies/grid_inspector.py:152-155 | after an exception later files change nothing |
| `GridInspector.LoadAll` | aegis_start_work_pack/strategies/grid_inspector.py:151-155 | the loop over the files computes `Collect` of their loads |
| `GridInspector.RankedCorrect` | aegis_start_work_pack/strategies/grid_inspector.py:140-181 | the ranked rows are a permutation of the loaded rows in non-increasing score order, with equal scores in file order; the CSV has one `to_list` line per ranked row, in that order |
| `GridInspector.Inspect` | aegis_start_work_pack/strategies/grid_inspector.py:136-183 | `main`: a missing directory, no files and no loaded rows each end without output; otherwise the ranked rows and CSV lines of `InspectResult` |
| `GridInspector.CsvLines` | aegis_start_work_pack/strategies/grid_inspector.py:180-181 | one `to_list` line per ranked row, in order |
| `MultiRunSmaCross.MetricOfValues` | aegis_start_work_pack/strategies/multi_run_sma_cross.py:39-43 | `_as_float` never fails: an absent key or a value `float()` rejects gives 0.0, a number gives its value |
| `MultiRunSmaCross.SmaScore` | aegis_start_work_pack/strategies/multi_run_sma_cross.py:106-114 | the row echoes fast and slow and the converted metrics; a zero return scores 0, otherwise the score has the Sharpe ratio's sign whatever the return's sign |
| `MultiRunSmaCross.ScoreFormulasAgree` | aegis_start_work_pack/strategies/multi_run_sma_cross.py:113 | `sharpe * abs(tr)` equals chat/strategy_grid.py's `sharpe * max(tr, 0)` iff tr >= 0 or sharpe == 0 |
| `MultiRunSmaCross.ScoredMetrics` | aegis_start_work_pack/strategies/multi_run_sma_cross.py:106-114 | the copy has the strategy's keys plus "score" |
| `MultiRunSmaCross.ScoredMetricsCopy` | aegis_start_work_pack/strategies/multi_run_sma_cross.py:106-114 | the copy differs from the strategy's metrics only in "score", which holds the score; the strategy's own metrics are a separate value and are not changed |
| `MultiRunSmaCross.RunRecordShape` | aegis_start_work_pack/strategies/multi_run_sma_cross.py:117-123 | the record has exactly five keys, nests the strategy's params, carries the score in its metrics and the whole equity curve |
| `MultiRunSmaCross.Eligible` | aegis_start_work_pack/strategies/multi_run_sma_cross.py:94-97 | the pairs with fast < slow, never more than the pairs |
| `MultiRunSmaCross.EligibleMembers` | aegis_start_work_pack/strategies/multi_run_sma_cross.py:94-97 | a pair is kept iff fast < slow |
| `MultiRunSmaCross.EligibleAppend` | aegis_start_work_pack/strategies/multi_run_sma_cross.py:92-97 | the filter distributes over consecutive parts of the loop, so visiting order is kept |
| `MultiRunSmaCross.SmaStepProduced` | aegis_start_work_pack/strategies/multi_run_sma_cross.py:94-103 | a pair that does not raise produces a row iff fast < slow |
| `MultiRunSmaCross.ProducedAreEligible` | aegis_start_work_pack/strategies/multi_run_sma_cross.py:92-141 | without an exception the produced pairs are exactly the pairs with fast < slow, in fast-outer, slow-inner order |
| `MultiRunSmaCross.RunRows` | aegis_start_work_pack/strategies/multi_run_sma_cross.py:92-141 | the sweep ends without exception iff every eligible pair's strategy call succeeds; then row k and record k belong to eligible pair k, with its fast, slow and scored metrics |
| `MultiRunSmaCross.DefaultGridSkipsNothing` | aegis_start_work_pack/strategies/multi_run_sma_cross.py:47-48 | the default grid (10, 20, 50) × (100, 200) has six pairs and skips none |
| `MultiRunSmaCross.AllEligible` | aegis_start_work_pack/strategies/multi_run_sma_cross.py:94-97 | a grid whose pairs all have fast < slow keeps every pair |
| `MultiRunSmaCross.MissingCsvWritesNothing` | aegis_start_work_pack/strategies/multi_run_sma_cross.py:82-83 | a missing CSV raises before anything runs or is written |
| `MultiRunSmaCross.RunSmaCrossGrid` | aegis_start_work_pack/strategies/multi_run_sma_cross.py:46-147 | the outcome and the directory afterwards: the run files of the produced pairs, in order, then the summary only if nothing raised |
| `StrategyGrid.Metric` | aegis_start_work_pack/chat/strategy_grid.py:47-49 | an absent metric is 0.0; a present one is `float()` of it, which can raise |
| `StrategyGrid.RowOfProperties` | aegis_start_work_pack/chat/strategy_grid.py:47-61 | the row exists iff the three conversions succeed; it carries the pair and the three values; a non-positive return scores 0; a positive one scores with the Sharpe ratio's sign |
| `StrategyGrid.MissingReturnScoresZero` | aegis_start_work_pack/chat/strategy_grid.py:47-52 | a run without `total_return` scores 0 |
| `StrategyGrid.RunRows` | aegis_start_work_pack/chat/strategy_grid.py:38-66 | the sweep ends without exception iff every pair's call and conversions succeed; then there is one row and one file per pair of fast × slow, in order, none skipped, each row carrying its pair, and each file named by fast and slow alone |
| `StrategyGrid.MissingCsvWritesNothing` | aegis_start_work_pack/chat/strategy_grid.py:32-33 | a missing CSV raises before any strategy runs or any file is written |
| `StrategyGrid.RunGrid` | aegis_start_work_pack/chat/strategy_grid.py:31-72 | the outcome and the directory afterwards: the row files in order, then `{"rows": rows}` only if nothing raised |
| `Sweep.IntToString` | aegis_start_work_pack/strategies/multi_run_sma_cross.py:125 | `str(i)`: a natural is written as its decimal digits |
| `Sweep.RowJson` | aegis_start_work_pack/chat/strategy_grid.py:54-61 | the row object has exactly the keys fast, slow, total_return, vol_annual, sharpe, score |
| `Sweep.SummaryJson` | aegis_start_work_pack/chat/strategy_grid.py:70 | the summary is `{"rows": rows}` with one object per row, in order |
| `Sweep.AbsScoreSign` | aegis_start_work_pack/strategies/grid_inspector.py:124 | a zero return scores 0; otherwise the score has the Sharpe ratio's sign |
| `Sweep.ScaleSign` | aegis_start_work_pack/chat/strategy_grid.py:52 | multiplying by a positive return keeps the Sharpe ratio's sign |
| `Sweep.WriteRunsSnoc` | aegis_start_work_pack/chat/strategy_grid.py:65-66 | one more run (over)writes its own file only |
| `Sweep.WriteRunsUntouched` | aegis_start_work_pack/chat/strategy_grid.py:65-66 | a file that no run is written to keeps its old content, or stays absent |
| `Sweep.WriteRunsFinal` | aegis_start_work_pack/chat/strategy_grid.py:65-66 | a run's file holds its record unless a later run is written under the same name |
| `Sweep.RunSnoc` | aegis_start_work_pack/chat/strategy_grid.py:38-66 | one more pair extends the sweep by that pair's outcome |
| `Sweep.RunStopsAtError` | aegis_start_work_pack/strategies/multi_run_sma_cross.py:92-141 | after an exception the remaining pairs change nothing |
| `Sweep.RowAbort` | aegis_start_work_pack/strategies/multi_run_sma_cross.py:93-141 | an exception in the inner loop is the result of that whole row |
| `Sweep.OuterStops` | aegis_start_work_pack/strategies/multi_run_sma_cross.py:92-141 | once an outer iteration raised, later outer iterations change nothing |
| `Sweep.OuterStep` | aegis_start_work_pack/strategies/multi_run_sma_cross.py:92-141 | one outer iteration extends the sweep by its row; an exception in it is the sweep's result |
| `Sweep.RunProduced` | aegis_start_work_pack/strategies/multi_run_sma_cross.py:92-141 | a sweep ends without exception iff no pair raises; it then holds the rows and records of the produced pairs, in visiting order |
| `Sweep.ProducedPairs` | aegis_start_work_pack/strategies/multi_run_sma_cross.py:92-97 | the pairs that produce a row, never more than the pairs |
| `Sweep.ProducedRowsAt` | aegis_start_work_pack/strategies/multi_run_sma_cross.py:132-141 | row k is the row of produced pair k |
| `Sweep.ProducedRunsAt` | aegis_start_work_pack/strategies/multi_run_sma_cross.py:117-127 | record k is the record of produced pair k |
| `Sweep.AllProduced` | aegis_start_work_pack/chat/strategy_grid.py:38-62 | when every pair produces a row, the produced pairs are all the pairs |
| `Sweep.SweepGrid` | aegis_start_work_pack/chat/strategy_grid.py:38-67 | the nested loops over fast × slow compute `Run` of the pairs, and the directory is the old one with every produced record written, in order |
| `Sweep.SweepRow` | aegis_start_work_pack/strategies/multi_run_sma_cross.py:93-141 | the inner loop of one fast extends the sweep by its row of pairs and writes their files; an exception ends it |
| `Sweep.Visit` | aegis_start_work_pack/strategies/multi_run_sma_cross.py:94-141 | one loop body: the pair is skipped, appends a row and writes its file, or raises |
| `Sweep.MultiDir.constructor` | aegis_start_work_pack/chat/strategy_grid.py:20-21 | the output directory with its existing files |
| `Sweep.MultiDir.Write` | aegis_start_work_pack/chat/strategy_grid.py:65-66 | one file is (over)written, no other changes |
| `OrchestratorStub.ReadPolicyFile` | aegis_start_work_pack/chat/orchestrator_stub.py:29-43 | the loop computes `ReadPolicy`; a missing file gives mode "paper", no allowed tools and no rate limits |
| `OrchestratorStub.AllowedAreItems` | aegis_start_work_pack/chat/orchestrator_stub.py:36-41 | the allowed list is the value of every "- " line, in file order, duplicates kept, whatever key it sits under; mode lines add nothing |
| `OrchestratorStub.ItemsMembers` | aegis_start_work_pack/chat/orchestrator_stub.py:40-41 | a name is listed iff some "- " line's stripped remainder is that name |
| `OrchestratorStub.FlatMapMembers` | aegis_start_work_pack/chat/orchestrator_stub.py:36-41 | an element of the concatenation comes from some line |
| `OrchestratorStub.FlatMapAppend` | aegis_start_work_pack/chat/orchestrator_stub.py:36-41 | the items of consecutive lines are concatenated in order |
| `OrchestratorStub.ModeDefault` | aegis_start_work_pack/chat/orchestrator_stub.py:30-39 | without a "mode:" line the mode stays "paper" |
| `OrchestratorStub.ModeLastWins` | aegis_start_work_pack/chat/orchestrator_stub.py:36-39 | the last "mode:" line decides the mode: the stripped text after its colon |
| `OrchestratorStub.RateLimitsEmpty` | aegis_start_work_pack/chat/orchestrator_stub.py:32-43 | the rate limits are always empty |
| `OrchestratorStub.ItemsNonEmpty` | aegis_start_work_pack/chat/orchestrator_stub.py:40-41 | no allowed tool is the empty string |
| `OrchestratorStub.ItemValueNonEmpty` | aegis_start_work_pack/chat/orchestrator_stub.py:41 | one "- " line's value is never empty |
| `OrchestratorStub.StripKeepsNonSpaceEnd` | aegis_start_work_pack/chat/orchestrator_stub.py:41 | a string ending in a non-space does not strip to nothing |
| `OrchestratorStub.AllowedFromFile` | aegis_start_work_pack/chat/orchestrator_stub.py:107-108 | `tool_allowed` under a policy file is true iff some "- " line of the file gives exactly that name |
| `OrchestratorStub.BindError` | aegis_start_work_pack/chat/orchestrator_stub.py:86-102 | `Model(**args)` raises TypeError iff `args` is not a mapping, ValidationError iff it is one but lacks a field without a default (csv_path for PlotRequest; symbol, start, end for ToolBacktest and RunPlotArgs), and nothing otherwise |
| `OrchestratorStub.ToolRunOrder` | aegis_start_work_pack/chat/orchestrator_stub.py:142-173 | 403 iff the name is not allowed, checked before anything else; 400 iff it is allowed but not one of the four tools; then an argument binding error (TypeError for non-mapping `args`, ValidationError for a missing required field) raises before any endpoint is called; a combined tool whose `args` lack "fast" or "slow" raises KeyError after the backtest; every other call reaches the API under its own name |
| `OrchestratorStub.ChatMatchesToolRun` | aegis_start_work_pack/chat/orchestrator_stub.py:183-207 | the direct tool branch of `/chat` refuses exactly what `/tool/run` refuses, with the same status; it falls through to the model path exactly where `/tool/run` raises TypeError; it raises exactly where `/tool/run` raises ValidationError; and it calls a tool exactly where `/tool/run` calls the same tool or raises KeyError after the backtest |
| `OrchestratorStub.ToolRunSkipsCombinedEndpoints` | aegis_start_work_pack/chat/orchestrator_stub.py:154-171 | `/tool/run` composes "run_and_plot" and "run_and_plot_save" from the backtest and the plot endpoint, identically, and never calls the combined endpoints, not even before a raise |
| `OrchestratorStub.NonMappingArgs` | aegis_start_work_pack/chat/orchestrator_stub.py:150-151 | an allowed "backtest.run" with non-mapping `args` raises TypeError in `/tool/run` before any call, while `/chat` catches it (line 205) and falls through to the model path |
| `OrchestratorStub.DefaultedFastRaises` | aegis_start_work_pack/chat/orchestrator_stub.py:154-161 | "run_and_plot" with only symbol, start and end: `/tool/run` runs the backtest and then raises KeyError on `args['fast']`, while `/chat` calls the combined endpoint |
| `OrchestratorStub.MissingToolForbidden` | aegis_start_work_pack/chat/orchestrator_stub.py:144-148 | a payload without "tool" gets 403 under every policy the reader can produce |
| `OrchestratorStub.Records` | aegis_start_work_pack/chat/orchestrator_stub.py:64 | `[r for _, r in ...]`: the records of the pairs, in order |
| `OrchestratorStub.SearchChunks` | aegis_start_work_pack/chat/orchestrator_stub.py:51-64 | the loop and the sort compute `SearchResult`: [] without an index, the failure of a bad line, or the answer |
| `OrchestratorStub.ScoredFails` | aegis_start_work_pack/chat/orchestrator_stub.py:57-59 | the scan raises iff some line is not a record with a string text |
| `OrchestratorStub.ScoredSpec` | aegis_start_work_pack/chat/orchestrator_stub.py:54-62 | every scored pair is a record of the index with its positive token overlap, and every record with a positive overlap is scored |
| `OrchestratorStub.ScoredSound` | aegis_start_work_pack/chat/orchestrator_stub.py:58-62 | every scored pair is a record with its positive overlap |
| `OrchestratorStub.ScoredComplete` | aegis_start_work_pack/chat/orchestrator_stub.py:58-62 | every record with a positive overlap is scored |
| `OrchestratorStub.ScoredStep` | aegis_start_work_pack/chat/orchestrator_stub.py:57-62 | one more line is appended exactly when its overlap is positive |
| `OrchestratorStub.SortedScores` | aegis_start_work_pack/chat/orchestrator_stub.py:63 | the sorted pairs are in non-increasing score order, ties in index order, and keep their properties |
| `OrchestratorStub.AnswerSpec` | aegis_start_work_pack/chat/orchestrator_stub.py:63-64 | at most k records (and no more than were scored), each with a positive overlap, in non-increasing overlap order |
| `OrchestratorStub.SearchAnswer` | aegis_start_work_pack/chat/orchestrator_stub.py:51-64 | `search_chunks` returns at most k records of the index, each sharing a lower-cased `\w+` token with the query, with overlaps that never increase down the list |
| `BuildIndex.PySlice` | rag/build_index.py:11 | `text[i:i+size]` with Python's clipping and negative ends |
| `BuildIndex.Chunk` | rag/build_index.py:8-13 | the while loop computes `Chunks` whenever it terminates (empty text, or size > overlap) |
| `BuildIndex.ChunkShape` | rag/build_index.py:8-13 | no chunks iff the text is empty; chunk j starts at j * (size - overlap) inside the text and is the text from there to size further on, cut at the end; every chunk is non-empty and at most size long; the steps reach the end of the text |
| `BuildIndex.ChunksCount` | rag/build_index.py:10-12 | a non-empty text has a chunk, and the chunks' steps reach its end |
| `BuildIndex.ChunkAtShape` | rag/build_index.py:11 | one window of the count is the cut text at its start |
| `BuildIndex.CountBounds` | rag/build_index.py:10-12 | the count m is ceil(len(text) / step): m >= 1 and (m - 1) * step < len(text) <= m * step |
| `BuildIndex.CeilDiv` | rag/build_index.py:10-12 | m steps that reach the end where m - 1 do not: m is the count |
| `BuildIndex.StartIs` | rag/build_index.py:12 | window j starts at j * step |
| `BuildIndex.StartMono` | rag/build_index.py:12 | window starts never decrease |
| `BuildIndex.StartInside` | rag/build_index.py:10 | every window of the count starts inside the text |
| `BuildIndex.WindowShape` | rag/build_index.py:11 | a window starting inside the text is that stretch of it, non-empty and at most size long |
| `BuildIndex.Reconstruct` | rag/build_index.py:8-13 | joining the first size - overlap characters of every chunk gives back the text |
| `BuildIndex.HeadsPrefix` | rag/build_index.py:10-12 | the heads of the first m windows spell the text up to window m's start |
| `BuildIndex.HeadsStep` | rag/build_index.py:11-12 | the head of window m - 1 continues the text spelled before it |
| `BuildIndex.HeadOfWindow` | rag/build_index.py:11-12 | a window's head is the text from its start to one step further, cut at the end |
| `BuildIndex.Overlapping` | rag/build_index.py:11-12 | chunk j from offset size - overlap onward is a prefix of chunk j + 1 |
| `BuildIndex.WindowsOverlap` | rag/build_index.py:11-12 | a window from offset step onward begins the window one step later |
| `BuildIndex.CleanShape` | rag/build_index.py:15 | the cleaned text neither begins nor ends with whitespace, has no two whitespace characters in a row, and all its whitespace is single spaces |
| `BuildIndex.CleanIdempotent` | rag/build_index.py:15 | clean(clean(s)) == clean(s) |
| `BuildIndex.CleanKeepsText` | rag/build_index.py:15 | cleaning changes only whitespace: the other characters stay, in order |
| `BuildIndex.CollapseNormal` | rag/build_index.py:15 | `re.sub(r'\s+', ' ', s)` leaves no two whitespace characters in a row and only spaces |
| `BuildIndex.CollapseFixed` | rag/build_index.py:15 | a collapsed string is left as it is by a second collapse |
| `BuildIndex.CollapseVisible` | rag/build_index.py:15 | collapsing keeps the non-whitespace characters |
| `BuildIndex.StripNormal` | rag/build_index.py:15 | stripping a normal string keeps it normal |
| `BuildIndex.StripVisible` | rag/build_index.py:15 | stripping keeps the non-whitespace characters |
| `BuildIndex.LStripVisible` | rag/build_index.py:15 | removing leading whitespace keeps the non-whitespace characters |
| `BuildIndex.RStripVisible` | rag/build_index.py:15 | removing trailing whitespace keeps the non-whitespace characters |
| `BuildIndex.RecordsReadBack` | rag/build_index.py:26-28 | one index record per chunk, numbered from 0, whose text the retriever of chat/orchestrator_stub.py reads as the cleaned chunk |
| `BacktestServer.CsvPathOf` | aegis_start_work_pack/chat/backtest_server.py:136-140 | None iff no stdout line, stripped, starts with "CSV_PATH::" |
| `BacktestServer.MarkerValue` | aegis_start_work_pack/chat/backtest_server.py:139 | the stripped text after the first marker: no surrounding whitespace |
| `BacktestServer.MarkerOccurs` | aegis_start_work_pack/chat/backtest_server.py:138-139 | a line whose stripped form starts with the marker contains it, so the split has a second part |
| `BacktestServer.CsvPathFirst` | aegis_start_work_pack/chat/backtest_server.py:137-140 | the first marker line decides the path |
| `BacktestServer.CsvPathIgnoresLater` | aegis_start_work_pack/chat/backtest_server.py:140 | lines after the first marker line do not change the path |
| `BacktestServer.ScanCsvPath` | aegis_start_work_pack/chat/backtest_server.py:136-140 | the loop with its break computes `CsvPathOf` of `stdout.splitlines()` |
| `BacktestServer.NotMarkerByHead` | aegis_start_work_pack/chat/backtest_server.py:138 | a line starting with neither whitespace nor `C` is not a marker line |
| `BacktestServer.MarkerLineValue` | aegis_start_work_pack/chat/run_backtest.py:73 | the printed marker line of a path without surrounding whitespace carries that path back |
| `BacktestServer.CsvPathRoundTrip` | aegis_start_work_pack/chat/backtest_server.py:136-140 | printed output with the marker line for a path, after lines without a marker, parses back to that path, whatever follows |
| `BacktestServer.FirstMarkerAt` | aegis_start_work_pack/chat/backtest_server.py:136-140 | printed lines parse back to the value of their first marker line |
| `BacktestServer.SummaryNoMarker` | aegis_start_work_pack/chat/run_backtest.py:67-72 | none of the six summary lines the script prints before the marker carries the marker |
| `BacktestServer.SummaryOneLine` | aegis_start_work_pack/chat/run_backtest.py:67-72 | with single-line fields each summary line is one line |
| `BacktestServer.ScriptOutputRoundTrip` | aegis_start_work_pack/chat/run_backtest.py:67-73 | the whole output of chat/run_backtest.py parses back to the CSV path it printed, when that path has no surrounding whitespace and contains no line break, and the fields are single-line |
| `BacktestServer.LowerMap` | aegis_start_work_pack/chat/backtest_server.py:180 | every column's lower-cased name is a key; each key maps to a column whose name lower-cases to it |
| `BacktestServer.LowerMapLast` | aegis_start_work_pack/chat/backtest_server.py:180 | of the columns with the same lower-cased name, the later one is mapped |
| `BacktestServer.LowerMapAbsent` | aegis_start_work_pack/chat/backtest_server.py:180 | a name no column lower-cases to is absent |
| `BacktestServer.FirstKey` | aegis_start_work_pack/chat/backtest_server.py:181-187 | the first key of a preference list that is present, and that none before it is |
| `BacktestServer.FirstNumeric` | aegis_start_work_pack/chat/backtest_server.py:189-192 | the first numeric column, and none before it is numeric; None iff no column is |
| `BacktestServer.PlotColumnIsColumn` | aegis_start_work_pack/chat/backtest_server.py:180-192 | the plotted column is one of the CSV's columns |
| `BacktestServer.PlotColumnFails` | aegis_start_work_pack/chat/backtest_server.py:188-191 | 400 iff no column has a preferred name and none is numeric |
| `BacktestServer.PlotColumnEquity` | aegis_start_work_pack/chat/backtest_server.py:181-185 | the first present of equity, equity_curve, cumret, cum_return wins, case-insensitively, the last column of that name |
| `BacktestServer.PlotColumnPrice` | aegis_start_work_pack/chat/backtest_server.py:182-187 | without an equity column, the first present of adj close, adj_close, close, price wins |
| `BacktestServer.PlotColumnNumeric` | aegis_start_work_pack/chat/backtest_server.py:188-192 | with neither, the first numeric column is plotted |
| `BacktestServer.SaveColumnEquity` | aegis_start_work_pack/chat/backtest_server.py:318-319 | in `run_and_plot_save` an equity column wins too, the last one of that name |
| `BacktestServer.SaveColumnNumeric` | aegis_start_work_pack/chat/backtest_server.py:319-323 | without equity or equity_curve, `run_and_plot_save` takes the first numeric column whatever price columns exist, and refuses with 400 when there is none or its header is empty |
| `BacktestServer.PlotAndSaveDiffer` | aegis_start_work_pack/chat/backtest_server.py:319-321 | the two rules differ: a numeric `close` after another numeric column is plotted by one and not the other |
| `BacktestServer.RunAndPlotSave` | aegis_start_work_pack/chat/backtest_server.py:312-323 | 400 without a CSV path, whatever the exit code; a chosen column is one of the CSV's |
| `BacktestServer.TailCount` | aegis_start_work_pack/chat/backtest_server.py:371 | n = clamp(int(tail or 200), 1, 5000): always in [1, 5000]; missing or 0 gives 200; in range it is kept; negative gives 1; too large gives 5000 |
| `BacktestServer.LastLines` | aegis_start_work_pack/chat/backtest_server.py:372 | `lines[-n:]`: the last n lines, or all of them |
| `BacktestServer.TailLogReadsBack` | aegis_start_work_pack/chat/backtest_server.py:370-372 | the tail splits back into exactly the last n lines of the log |
| `BacktestServer.Chars` | aegis_start_work_pack/chat/backtest_server.py:376 | `list()` of a string is its characters |
| `BacktestServer.Strs` | aegis_start_work_pack/chat/backtest_server.py:377-378 | the request's arguments as list items, in order |
| `BacktestServer.SpecCommand` | aegis_start_work_pack/chat/backtest_server.py:376 | a spec without "cmd" gives the empty command; only an object spec gives one |
| `BacktestServer.ExtendCommand` | aegis_start_work_pack/chat/backtest_server.py:377-378 | the spec's command followed by the request's arguments, in order |
| `BacktestServer.RunTask` | aegis_start_work_pack/chat/backtest_server.py:353-381 | 404 when the task is missing or its spec empty; the `tail_logs` task reads the clamped tail; any other task runs the spec's cmd followed by req.args in order, with the spec's shell flag |
| `BacktestServer.UnderImpliesPrefix` | aegis_start_work_pack/chat/backtest_server.py:249 | the string test accepts every path the component test accepts |
| `BacktestServer.PrefixAcceptsSibling` | aegis_start_work_pack/chat/backtest_server.py:249 | the string test accepts `/d/logs2/x.csv` for the logs directory `/d/logs`, which the component test refuses |
| `BacktestServer.RunAndPlotAsWritten` | aegis_start_work_pack/chat/backtest_server.py:243-250 | as written: 500 on a failed backtest; success, with the CSV, iff the backtest did not fail, the CSV is a file and its path string starts with the logs directory's; otherwise 400 "csv_path invalid or not under logs_dir" |
| `BacktestServer.RunAndPlotEscapes` | aegis_start_work_pack/chat/backtest_server.py:243-250 | as written, a successful backtest whose CSV lies in a sibling directory of the logs directory passes `run_and_plot`'s checks |
| `BacktestServer.RunAndPlotGate` | aegis_start_work_pack/chat/backtest_server.py:243-250 | 500 iff exit_code != 0 or csv_path is empty; success iff neither and the CSV is a file under the logs directory by components |
| `BacktestServer.GateRefinesAsWritten` | aegis_start_work_pack/chat/backtest_server.py:243-250 | both versions answer the same on a failed backtest, and whatever the corrected gate accepts the as-written one accepts identically |
| `ToolsLocal.WithinRootByComponents` | aegis_start_work_pack/aegis_llm/tools_local.py:26 | "the root or one of its parents" is the path-component test |
| `ToolsLocal.SiblingRefused` | aegis_start_work_pack/aegis_llm/tools_local.py:26-27 | `/home/proj2` is refused for the project root `/home/proj` though its text starts with the root's text: a component check, not a string-prefix check |
| `ToolsLocal.ListProjectFiles` | aegis_start_work_pack/aegis_llm/tools_local.py:9-37 | a root outside the project root raises ValueError with its path; otherwise the result is the listing |
| `ToolsLocal.CollectFiles` | aegis_start_work_pack/aegis_llm/tools_local.py:29-37 | the loop with its break computes the listing |
| `ToolsLocal.Regular` | aegis_start_work_pack/aegis_llm/tools_local.py:30-32 | only regular files are kept, each from the glob's output, and every regular file is kept |
| `ToolsLocal.RegularAppend` | aegis_start_work_pack/aegis_llm/tools_local.py:30-32 | the filter distributes over consecutive parts of the glob's output, so glob order is kept |
| `ToolsLocal.Rows` | aegis_start_work_pack/aegis_llm/tools_local.py:33-34 | one row per file, in order |
| `ToolsLocal.ListedPath` | aegis_start_work_pack/aegis_llm/tools_local.py:33-34 | a row's name is the file's last component and its path the components below the project root |
| `ToolsLocal.FilesAppend` | aegis_start_work_pack/aegis_llm/tools_local.py:30-34 | file rows distribute over consecutive parts of the glob's output |
| `ToolsLocal.FilesStep` | aegis_start_work_pack/aegis_llm/tools_local.py:30-34 | one more entry adds its row exactly when it is a regular file |
| `ToolsLocal.Cap` | aegis_start_work_pack/aegis_llm/tools_local.py:35-36 | the cap is max(max_files, 1), because it is tested after a row is appended |
| `ToolsLocal.ListingBound` | aegis_start_work_pack/aegis_llm/tools_local.py:29-37 | the listing holds min(files, max(max_files, 1)) rows, the first ones in glob order |
| `ToolsLocal.CappedListing` | aegis_start_work_pack/aegis_llm/tools_local.py:35-37 | rows collected up to the cap, or all rows below it, are the listing |
| `ToolsLocal.ReadFileSnippet` | aegis_start_work_pack/aegis_llm/tools_local.py:40-58 | a path outside the project root raises ValueError with the relative path; a result is always under the root |
| `ToolsLocal.SnippetIsPrefix` | aegis_start_work_pack/aegis_llm/tools_local.py:50-58 | a permitted read returns `text[:max_chars]`, a prefix of the text; `truncated` is "True" iff len(text) > max_chars and "False" otherwise, in which case the snippet is the whole text |
| `Paths.ParentOrSelf` | aegis_start_work_pack/aegis_llm/tools_local.py:26 | being p or one of `p.parents` is the same as being a component prefix of p |
| `Paths.IsUnderTrans` | aegis_start_work_pack/aegis_llm/tools_local.py:19-26 | a path under a subdirectory of the root is under the root |
| `Paths.RelativeTo` | aegis_start_work_pack/aegis_llm/tools_local.py:33 | `relative_to` gives the components that complete the root to the path |
| `Paths.SlashedAppend` | aegis_start_work_pack/chat/backtest_server.py:249 | `str()` of a path distributes over its components |
| `Ranking.SortDescCorrect` | aegis_start_work_pack/strategies/grid_inspector.py:162 | `sort(key, reverse=True)` returns a permutation of its input in non-increasing key order, and the elements with equal keys keep their input order |
| `Ranking.SortDesc` | aegis_start_work_pack/chat/orchestrator_stub.py:63 | the sort keeps the length |
| `Ranking.SortDescMembers` | aegis_start_work_pack/strategies/grid_inspector.py:162 | every sorted element comes from the input |
| `Ranking.Insert` | aegis_start_work_pack/strategies/grid_inspector.py:162 | insertion after every element with a key at least as large adds one element |
| `Ranking.InsertSorted` | aegis_start_work_pack/strategies/grid_inspector.py:162 | insertion keeps the order non-increasing |
| `Ranking.InsertMultiset` | aegis_start_work_pack/strategies/grid_inspector.py:162 | insertion adds exactly the element |
| `Ranking.InsertWithKey` | aegis_start_work_pack/strategies/grid_inspector.py:162 | insertion puts the element after every element with the same key |
| `Ranking.WithKey` | aegis_start_work_pack/strategies/grid_inspector.py:162 | the elements with one key, in order, never more than the input |
| `Grid.CrossAt` | aegis_start_work_pack/chat/orchestrator_app.py:195-196 | pair number i * len(ys) + j of the nested loops is (xs[i], ys[j]): every pair once, outer-major |
| `Grid.CrossLength` | aegis_start_work_pack/chat/strategy_grid.py:38-39 | the nested loops visit len(xs) * len(ys) pairs |
| `Grid.CrossSnoc` | aegis_start_work_pack/chat/orchestrator_app.py:195-196 | one more outer iteration appends that element's row of pairs |
| `Grid.RowSnoc` | aegis_start_work_pack/chat/orchestrator_app.py:196 | one more inner iteration appends one pair |
| `Grid.Row` | aegis_start_work_pack/chat/orchestrator_app.py:196 | the inner loop visits one pair per inner element |
| `Grid.RowAt` | aegis_start_work_pack/chat/orchestrator_app.py:196 | inner pair j is (x, ys[j]) |
| `Json.Get` | aegis_start_work_pack/strategies/grid_inspector.py:74-75 | `d.get(k)` is None for an absent key |
| `Json.GetOr` | aegis_start_work_pack/strategies/grid_inspector.py:108-112 | `d.get(k, default)` returns an explicit value, even null, and the default only for an absent key |
| `Json.AsNumber` | aegis_start_work_pack/chat/orchestrator_app.py:224-227 | `isinstance(x, (int, float))` holds for booleans, integers and floats only |
| `Json.PyInt` | aegis_start_work_pack/strategies/grid_inspector.py:91-96 | `int()` of an integer is itself; of null, a list or an object it raises |
| `Json.PyFloat` | aegis_start_work_pack/strategies/grid_inspector.py:115-121 | `float()` of a number is its value; of null, a list or an object it raises; strings are read by the three lemmas below |
| `Json.FloatOfDigits` | aegis_start_work_pack/strategies/grid_inspector.py:115-121 | `float()` of a string of digits is their value |
| `Json.FloatOfFraction` | aegis_start_work_pack/strategies/grid_inspector.py:115-121 | `float()` of `"<digits>.<digits>"` is the whole part plus the fraction divided by ten to its length |
| `Json.FloatOfExponent` | aegis_start_work_pack/strategies/grid_inspector.py:115-121 | `float()` of `"<digits>e-<digits>"`, the form `str()` gives small floats such as `1e-05`, is the digits' value divided by ten to the exponent |
| `Json.NumberConvertsToFloat` | aegis_start_work_pack/strategies/multi_run_sma_cross.py:39-43 | every value `isinstance` accepts as a number converts with `float()` to the same value |
| `Json.TruncReal` | aegis_start_work_pack/strategies/grid_inspector.py:92 | `int()` of a float truncates toward zero |
| `Json.ParseIntLiteral` | aegis_start_work_pack/strategies/grid_inspector.py:92 | a string of decimal digits converts to its value |
| `Json.StrArray` | aegis_start_work_pack/tools/backtest_run.py:4 | a list of strings is written as an array of those strings, in order |
| `PyStr.StripBounds` | aegis_start_work_pack/chat/orchestrator_stub.py:37 | the result of `strip()` neither begins nor ends with whitespace |
| `PyStr.LStripSpec` | rag/build_index.py:15 | `lstrip` removes exactly a whitespace prefix |
| `PyStr.RStripSpec` | rag/build_index.py:15 | `rstrip` removes exactly a whitespace suffix |
| `PyStr.StripNoSurroundingSpace` | aegis_start_work_pack/chat/backtest_server.py:139 | a string without surrounding whitespace is its own strip |
| `PyStr.StripLeadingSpace` | aegis_start_work_pack/chat/backtest_server.py:138 | whitespace in front is removed by strip |
| `PyStr.Find` | aegis_start_work_pack/chat/orchestrator_app.py:150 | `s.find(p)`: the first occurrence, or none at all |
| `PyStr.AfterFirst` | aegis_start_work_pack/chat/backtest_server.py:139 | `s.split(sep, 1)[1]`: the suffix after the first occurrence of sep |
| `PyStr.AfterFirstAtStart` | aegis_start_work_pack/chat/orchestrator_stub.py:39 | a separator at the start is the first occurrence |
| `PyStr.SplitLines` | aegis_start_work_pack/chat/backtest_server.py:137 | no line of `splitlines()` holds a line break |
| `PyStr.SplitLinesPrinted` | aegis_start_work_pack/chat/run_backtest.py:67-73 | splitting printed lines gives them back |
| `PyStr.Lower` | aegis_start_work_pack/chat/backtest_server.py:180 | `lower()` maps each character and keeps the length |
| `PyStr.NatToString` | aegis_start_work_pack/strategies/multi_run_sma_cross.py:125 | `str(n)` is a non-empty string of decimal digits |
| `PyStr.DigitsValueOfNatToString` | aegis_start_work_pack/strategies/grid_inspector.py:52 | `int()` of the digits `str(n)` wrote is n |
| `PyStr.SplitWhitespace` | aegis_start_work_pack/chat/orchestrator_app.py:101 | `split()` gives words without whitespace |
| `PyStr.TakePrefix` | aegis_start_work_pack/aegis_llm/tools_local.py:51 | `s[:k]` is a prefix of s, k long when 0 <= k <= len(s), shortened from the end for negative k |
| `PyStr.WordTokens` | aegis_start_work_pack/chat/orchestrator_stub.py:54 | `re.findall(r"\w+", s)` gives non-empty runs of word characters |

## Left out

- I/O and libraries:
  - The file system, `Path.resolve`, glob/rglob and `sorted` of paths are
    outside the model. A directory's entries are given as a sequence in the
    order the glob yields them, resolved paths as component sequences, and
    file contents as text. The `pattern` and `subdir` arguments of
    `list_project_files` live in those inputs.
  - `subprocess.run`, `yaml.safe_load`, `json.loads` / `json.dumps`,
    `pandas.read_csv`, matplotlib and base64 are outside the model. A CSV is
    its column names with a numeric flag. A task file is its decoded map.
  - The `print` output of the scripts is not modelled.
- Network clients: the httpx calls of chat/orchestrator_stub.py, the Ollama
  call `call_llm` and the `/chat` model path (orchestrator_stub.py lines
  209-271).
  - The tool call's JSON extraction from the model's reply in `/ask`
    (orchestrator_app.py lines 147-159) is outside the model. `Ask` takes
    the parsed call, or none, as its input.
  - A tool run is a function value that returns an output or the raised
    text. Its result covers the source's retry: `fn(**args)`, then `fn(args)`
    when that raises `TypeError` (orchestrator_app.py lines 170-173). A tool
    that still raises in `/ask` becomes a 500.
  - The request models of `/tool/run` and `/chat` (ToolBacktest,
    PlotRequest, RunPlotArgs) are bound by `OrchestratorStub.BindError`
    from the mapping test and the required fields alone. Pydantic's checks
    and coercions of field values (a number given for `symbol`, a string
    for `fast`) are not modelled, since their outcome depends on the
    pydantic version, which the repository does not pin. So the model
    calls a tool where pydantic could raise ValidationError for a value of
    the wrong type. The KeyError of `bt["csv_path"]` on a backtest reply
    without that key is not modelled either, since the reply comes from
    the API.
- Time and ids: `time.time`, `utcnow` and `uuid4` are parameters (`now`, `runId`).
- Concurrency: `BackgroundTasks` is modelled as a later call of
  `MultiRunJob` on the queued run, not as a thread.
- The strategy engine, `run_strategy_on_csv`, is a function value from a
  pair to a result or an exception. The backtest script's numerics are not
  modelled. Neither are `chat/run_backtest.py`, beyond the lines it prints,
  and `tools/risk_simulate.py`.
- `run_backtest`'s configuration check (lines 105-122) and its fallback
  glob for the newest fresh CSV (lines 142-152) are not modelled.
- The plot titles, the `png_path` and the returned summaries of
  `run_and_plot` / `run_and_plot_save` are not modelled.
- `tail_logs` is not modelled beyond the clamp and the tail. This leaves out
  picking the newest log file, the missing log directory and the case of
  no log files.
- Float semantics are not modelled: metrics are exact reals, with no NaN,
  infinities or rounding.
- Json.PyFloat: on a string it reads, after stripping, an optional sign,
  ASCII digits with an optional fraction, and an optional exponent. It
  refuses `"inf"`, `"infinity"` and `"nan"` (there is no such real), digits
  grouped with underscores (`"1_000"`) and non-ASCII digits, all of which
  Python's `float()` accepts. On such a metric string
  `GridInspector.ReadMetrics` skips a file that grid_inspector.py loads,
  `MultiRunSmaCross.MetricOf` gives 0.0 instead of the value, and
  `StrategyGrid.Metric` raises where strategy_grid.py continues.
- Json.PyInt: on a string it reads, after stripping, an optional sign and
  ASCII digits. It refuses underscore-grouped and non-ASCII digits, which
  Python's `int()` accepts.
- A mapping under a task's "cmd" is not modelled. `list()` of it would
  iterate its keys; the model treats it as a failed conversion (500).
- `FailureDetail` shows non-string `stderr` values as "no csv_path".
  Python would show them with `str()`.
- `lower()`, `\w` and `\d` are modelled on ASCII, not full Unicode case
  mapping or classes. `\s` and `split()` use the full `str.isspace` set
  (`PyStr.IsSpace`), which is what Python's `\s` matches in str patterns.
  The digits `int()` and `float()` read (`PyStr.IsDigit`) are ASCII too:
  Python accepts every Unicode decimal digit in `\d` and in those
  conversions.
- The rate counter file: an unreadable or non-integer `.runtime` file,
  which would make `int()` raise, is not modelled. The counters are a map
  from (tool, hour) to a count.
- `BuildIndex.Chunk` requires `size > overlap` for a non-empty text: with
  `size <= overlap` the source loop never terminates.
- `MultiRunSmaCross.RunSmaCrossGrid` covers the function from line 23 on.
  The markdown above it makes the file non-importable.
- `brokers/`, `src/orchestration/`, `aegis_llm/llm_core.py` and
  `multi_backtest.py` are not part of this model.

## Findings

| source | as written | input that shows it | evidently intended | confidence | as-written member | corrected member |
|---|---|---|---|---|---|---|
| aegis_start_work_pack/chat/backtest_server.py:249 | `run_and_plot` accepts the backtest's CSV when `str(csv_path).startswith(str(logs_dir))`, a string-prefix test | logs_dir `/d/logs`, csv_path `/d/logs2/x.csv` (a regular file), exit_code 0: the check passes, so the plot is drawn from outside the logs directory | the same "file under logs_dir" test by path components that `plot_equity` applies through `_is_under` (line 175), as the error text "not under logs_dir" says | not executed | `BacktestServer.RunAndPlotAsWritten`, shown by `BacktestServer.RunAndPlotEscapes` | `BacktestServer.RunAndPlotGate`, related by `BacktestServer.GateRefinesAsWritten` |
