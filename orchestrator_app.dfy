/**
  The multi-run orchestrator (chat/orchestrator_app.py): the allow/deny policy,
  the per-(tool, hour) rate counter, the dispatch order of a tool call made by
  the model, the run registry with its QUEUED -> RUNNING -> terminal state
  machine, the multi-run job over strategies x symbols with its summary, and
  the keyword context builder.

  The wall clock, run ids, the model call and the tools themselves are
  parameters; FastAPI's background task is the separate method `MultiRunJob`,
  to be called after `StartMultiRun`.
*/
module OrchestratorApp {
  import opened Wrappers
  import opened Json
  import opened PyStr
  import opened Grid

  // ---------------------------------------------------------------------
  // Policy
  // ---------------------------------------------------------------------

  /**
    The policy file: `tools.allow`, `tools.deny` (a missing list is empty) and
    `rate_limits.backtest_per_hour` (`None` when missing or null).
  */
  datatype Policy = Policy(allow: seq<string>, deny: seq<string>, backtestPerHour: Option<int>)

  /** `allowed_tool`: listed in `allow` and not listed in `deny`. */
  predicate AllowedTool(p: Policy, name: string) {
    name in p.allow && name !in p.deny
  }

  /** Deny wins over allow, and an empty allow list rejects every name. */
  lemma AllowedToolPolicy(p: Policy, name: string)
    ensures name in p.deny ==> !AllowedTool(p, name)
    ensures p.allow == [] ==> !AllowedTool(p, name)
    ensures AllowedTool(p, name) <==> name in p.allow && name !in p.deny
  {
  }

  // ---------------------------------------------------------------------
  // Rate limiting
  // ---------------------------------------------------------------------

  /** A `.runtime/rate_<tool>_<hour>.txt` file is identified by the tool name and the hour index. */
  type Bucket = (string, int)

  const RateLimitedTool: string := "backtest.run"

  /** `int(time.time() // 3600)`. */
  function HourOf(now: real): int {
    (now / 3600.0).Floor
  }

  /** The limit that applies to `name`: only "backtest.run" has one. */
  function LimitFor(p: Policy, name: string): Option<int> {
    if name == RateLimitedTool then p.backtestPerHour else None
  }

  /** `not limit`: a missing limit or a limit of 0 switches rate limiting off. */
  predicate NoLimit(limit: Option<int>) {
    limit.None? || limit.value == 0
  }

  /** The stored count of a bucket; a missing file counts 0. */
  function CountOf(counts: map<Bucket, int>, b: Bucket): int {
    if b in counts then counts[b] else 0
  }

  datatype RateStep = RateStep(limited: bool, counts: map<Bucket, int>)

  /** One `rate_limited` call: read the bucket, compare with the limit, write count + 1 if below it. */
  function RateLimitStep(p: Policy, counts: map<Bucket, int>, name: string, hour: int): (r: RateStep)
    ensures NoLimit(LimitFor(p, name)) ==> r == RateStep(false, counts)
    ensures !NoLimit(LimitFor(p, name)) ==>
      var limit, c := LimitFor(p, name).value, CountOf(counts, (name, hour));
      && r.limited == (c >= limit)
      && CountOf(r.counts, (name, hour)) == (if c >= limit then c else c + 1)
    ensures forall b :: b != (name, hour) ==> CountOf(r.counts, b) == CountOf(counts, b)
  {
    var limit := LimitFor(p, name);
    if NoLimit(limit) then RateStep(false, counts)
    else
      var c := CountOf(counts, (name, hour));
      if c >= limit.value then RateStep(true, counts)
      else RateStep(false, counts[(name, hour) := c + 1])
  }

  /** `n` consecutive `rate_limited(name)` calls in hour `hour`: their answers and the final counters. */
  function Replay(p: Policy, counts: map<Bucket, int>, name: string, hour: int, n: nat): (r: (seq<bool>, map<Bucket, int>))
    ensures |r.0| == n
    decreases n
  {
    if n == 0 then ([], counts)
    else
      var s := RateLimitStep(p, counts, name, hour);
      var rest := Replay(p, s.counts, name, hour, n - 1);
      ([s.limited] + rest.0, rest.1)
  }

  /**
    With a limit L > 0 and a bucket holding c <= L, call i of a run of calls in
    that hour is refused exactly when c + i >= L; the bucket ends at
    min(c + n, L) and no other bucket changes.
  */
  lemma {:induction false} ReplayBudget(p: Policy, counts: map<Bucket, int>, hour: int, n: nat)
    requires p.backtestPerHour.Some? && p.backtestPerHour.value > 0
    requires 0 <= CountOf(counts, (RateLimitedTool, hour)) <= p.backtestPerHour.value
    ensures var r := Replay(p, counts, RateLimitedTool, hour, n);
      var limit, c := p.backtestPerHour.value, CountOf(counts, (RateLimitedTool, hour));
      && (forall i :: 0 <= i < n ==> r.0[i] == (c + i >= limit))
      && CountOf(r.1, (RateLimitedTool, hour)) == (if c + n <= limit then c + n else limit)
      && (forall b :: b != (RateLimitedTool, hour) ==> CountOf(r.1, b) == CountOf(counts, b))
    decreases n
  {
    if n > 0 {
      var s := RateLimitStep(p, counts, RateLimitedTool, hour);
      ReplayBudget(p, s.counts, hour, n - 1);
      var r := Replay(p, counts, RateLimitedTool, hour, n);
      var rest := Replay(p, s.counts, RateLimitedTool, hour, n - 1);
      assert r.0 == [s.limited] + rest.0;
      forall i | 1 <= i < n ensures r.0[i] == rest.0[i - 1] { }
    }
  }

  /** Any tool other than "backtest.run" is never limited and touches no counter. */
  lemma {:induction false} OtherToolsUnlimited(p: Policy, counts: map<Bucket, int>, name: string, hour: int, n: nat)
    requires name != RateLimitedTool
    ensures var r := Replay(p, counts, name, hour, n);
      r.1 == counts && forall i :: 0 <= i < n ==> !r.0[i]
    decreases n
  {
    if n > 0 {
      OtherToolsUnlimited(p, counts, name, hour, n - 1);
      var rest := Replay(p, counts, name, hour, n - 1);
      assert Replay(p, counts, name, hour, n).0 == [false] + rest.0;
    }
  }

  /**
    The example of a limit of 5: the sixth call in an hour is refused, and the
    first call in the next hour is admitted with that hour's bucket set to 1.
  */
  lemma SixthCallLimited(p: Policy, counts: map<Bucket, int>, hour: int)
    requires p.backtestPerHour == Some(5)
    requires CountOf(counts, (RateLimitedTool, hour)) == 0 && CountOf(counts, (RateLimitedTool, hour + 1)) == 0
    ensures Replay(p, counts, RateLimitedTool, hour, 6).0 == [false, false, false, false, false, true]
    ensures var after := Replay(p, counts, RateLimitedTool, hour, 6).1;
      && RateLimitStep(p, after, RateLimitedTool, hour + 1).limited == false
      && CountOf(RateLimitStep(p, after, RateLimitedTool, hour + 1).counts, (RateLimitedTool, hour + 1)) == 1
  {
    ReplayBudget(p, counts, hour, 6);
    var r := Replay(p, counts, RateLimitedTool, hour, 6);
    assert CountOf(r.1, (RateLimitedTool, hour + 1)) == 0;
  }

  // ---------------------------------------------------------------------
  // The multi-run job
  // ---------------------------------------------------------------------

  /** `MultiRunRequest`. */
  datatype MultiRunRequest = MultiRunRequest(
    name: string, symbols: seq<string>, strategies: seq<string>,
    timeframe: string, start: Option<string>, end: Option<string>)

  /** The request the pydantic defaults describe. */
  const DefaultRequest: MultiRunRequest :=
    MultiRunRequest("default", ["SPY"], ["sma_baseline"], "1d", None, None)

  /** `TOOLS["backtest.run"](strategy=..., symbols=..., params=...)`: an output, or the raised exception's text. */
  type BacktestTool = (string, seq<string>, Option<map<string, Json>>) -> Result<Json, string>

  datatype PairSuccess = PairSuccess(strategy: string, symbol: string, output: Json)
  datatype PairError = PairError(strategy: string, symbol: string, error: string)

  /** The call the job makes for one pair: that strategy, that one symbol, no parameters. */
  function Attempt(tool: BacktestTool, pair: (string, string)): Result<Json, string> {
    tool(pair.0, [pair.1], None)
  }

  /** The success records of the attempted pairs, in attempt order. */
  function Successes(tool: BacktestTool, pairs: seq<(string, string)>): seq<PairSuccess> {
    if pairs == [] then []
    else
      var p := pairs[|pairs| - 1];
      Successes(tool, pairs[..|pairs| - 1])
      + (match Attempt(tool, p) case Success(out) => [PairSuccess(p.0, p.1, out)] case Failure(_) => [])
  }

  /** The failure records of the attempted pairs, in attempt order. */
  function Failures(tool: BacktestTool, pairs: seq<(string, string)>): seq<PairError> {
    if pairs == [] then []
    else
      var p := pairs[|pairs| - 1];
      Failures(tool, pairs[..|pairs| - 1])
      + (match Attempt(tool, p) case Success(_) => [] case Failure(e) => [PairError(p.0, p.1, e)])
  }

  /** Every attempted pair lands in exactly one of the two lists. */
  lemma {:induction false} OutcomesPartition(tool: BacktestTool, pairs: seq<(string, string)>)
    ensures |Successes(tool, pairs)| + |Failures(tool, pairs)| == |pairs|
  {
    if pairs != [] { OutcomesPartition(tool, pairs[..|pairs| - 1]); }
  }

  lemma OutcomesSnoc(tool: BacktestTool, pairs: seq<(string, string)>, p: (string, string))
    ensures Successes(tool, pairs + [p]) == Successes(tool, pairs)
      + (match Attempt(tool, p) case Success(out) => [PairSuccess(p.0, p.1, out)] case Failure(_) => [])
    ensures Failures(tool, pairs + [p]) == Failures(tool, pairs)
      + (match Attempt(tool, p) case Success(_) => [] case Failure(e) => [PairError(p.0, p.1, e)])
  {
    assert (pairs + [p])[..|pairs|] == pairs;
  }

  lemma {:induction false} SuccessesAppend(tool: BacktestTool, a: seq<(string, string)>, b: seq<(string, string)>)
    ensures Successes(tool, a + b) == Successes(tool, a) + Successes(tool, b)
    decreases |b|
  {
    if b == [] {
      assert a + b == a;
    } else {
      var init := b[..|b| - 1];
      SuccessesAppend(tool, a, init);
      assert (a + b)[..|a + b| - 1] == a + init;
    }
  }

  lemma {:induction false} FailuresAppend(tool: BacktestTool, a: seq<(string, string)>, b: seq<(string, string)>)
    ensures Failures(tool, a + b) == Failures(tool, a) + Failures(tool, b)
    decreases |b|
  {
    if b == [] {
      assert a + b == a;
    } else {
      var init := b[..|b| - 1];
      FailuresAppend(tool, a, init);
      assert (a + b)[..|a + b| - 1] == a + init;
    }
  }

  /** A pair is among the failures exactly when its call raised. */
  lemma {:induction false} FailuresEmpty(tool: BacktestTool, pairs: seq<(string, string)>)
    ensures Failures(tool, pairs) == [] <==> forall k :: 0 <= k < |pairs| ==> Attempt(tool, pairs[k]).Success?
  {
    if pairs != [] {
      var init := pairs[..|pairs| - 1];
      FailuresEmpty(tool, init);
      assert forall k :: 0 <= k < |init| ==> init[k] == pairs[k];
    }
  }

  /** `isinstance(out, dict)` and `isinstance(out.get(key), (int, float))`, with the value. */
  function NumericField(out: Json, key: string): Option<real> {
    if out.JObj? then AsNumber(Get(out.fields, key)) else None
  }

  /** The numeric values of `key` across the successes, in order; other values are skipped. */
  function NumericValues(results: seq<PairSuccess>, key: string): (xs: seq<real>)
    ensures |xs| <= |results|
  {
    if results == [] then []
    else
      NumericValues(results[..|results| - 1], key)
      + (match NumericField(results[|results| - 1].output, key) case Some(v) => [v] case None => [])
  }

  function Sum(xs: seq<real>): real {
    if xs == [] then 0.0 else Sum(xs[..|xs| - 1]) + xs[|xs| - 1]
  }

  /** `sum(xs) / len(xs) if xs else None`. */
  function Mean(xs: seq<real>): Option<real> {
    if xs == [] then None else Some(Sum(xs) / |xs| as real)
  }

  /** `max(xs) if xs else None`. */
  function Max(xs: seq<real>): (r: Option<real>)
    ensures r.Some? <==> xs != []
    ensures r.Some? ==> r.value in xs && forall k :: 0 <= k < |xs| ==> xs[k] <= r.value
  {
    if xs == [] then None
    else
      var m := Max(xs[..|xs| - 1]);
      var last := xs[|xs| - 1];
      assert forall k :: 0 <= k < |xs| - 1 ==> xs[k] == xs[..|xs| - 1][k];
      if m.Some? && m.value >= last then m else Some(last)
  }

  datatype Summary = Summary(
    requestedRuns: int, successfulRuns: int, failedRuns: int,
    meanSharpe: Option<real>, worstMaxDD: Option<real>)

  function SummaryOf(req: MultiRunRequest, results: seq<PairSuccess>, errors: seq<PairError>): Summary {
    Summary(
      |req.strategies| * |req.symbols|, |results|, |errors|,
      Mean(NumericValues(results, "sharpe")), Max(NumericValues(results, "maxDD")))
  }

  datatype Status = Queued | Running | Complete | CompleteWithErrors {
    predicate Terminal() { Complete? || CompleteWithErrors? }
    function Name(): string {
      match this
      case Queued => "QUEUED"
      case Running => "RUNNING"
      case Complete => "COMPLETE"
      case CompleteWithErrors => "COMPLETE_WITH_ERRORS"
    }
  }

  /** `"COMPLETE" if not errors else "COMPLETE_WITH_ERRORS"`. */
  function TerminalStatus(errors: seq<PairError>): (s: Status)
    ensures s.Terminal()
    ensures s == Complete <==> errors == []
  {
    if errors == [] then Complete else CompleteWithErrors
  }

  /** The persisted artifact of a finished run. */
  datatype Artifact = Artifact(
    runId: string, status: Status, request: MultiRunRequest,
    results: seq<PairSuccess>, errors: seq<PairError>, summary: Summary, completedAt: string)

  /** The artifact the job writes for `req`, given what each call of `tool` does. */
  function JobArtifact(runId: string, req: MultiRunRequest, tool: BacktestTool, completedAt: string): Artifact {
    var pairs := Cross(req.strategies, req.symbols);
    var results, errors := Successes(tool, pairs), Failures(tool, pairs);
    Artifact(runId, TerminalStatus(errors), req, results, errors, SummaryOf(req, results, errors), completedAt)
  }

  /**
    What the artifact's summary says about the attempted pairs: every pair is
    counted once as a success or a failure, the status is COMPLETE exactly when
    no call raised, and the two aggregates are None exactly when no success
    carried a numeric field.
  */
  lemma JobSummary(runId: string, req: MultiRunRequest, tool: BacktestTool, completedAt: string)
    ensures var a, pairs := JobArtifact(runId, req, tool, completedAt), Cross(req.strategies, req.symbols);
      && a.summary.requestedRuns == |pairs| == a.summary.successfulRuns + a.summary.failedRuns
      && a.summary.successfulRuns == |a.results| && a.summary.failedRuns == |a.errors|
      && (a.status == Complete <==> forall k :: 0 <= k < |pairs| ==> Attempt(tool, pairs[k]).Success?)
      && (a.summary.meanSharpe.None? <==> NumericValues(a.results, "sharpe") == [])
      && (a.summary.worstMaxDD.None? <==> NumericValues(a.results, "maxDD") == [])
  {
    var pairs := Cross(req.strategies, req.symbols);
    CrossLength(req.strategies, req.symbols);
    OutcomesPartition(tool, pairs);
    FailuresEmpty(tool, pairs);
  }

  /** A value is averaged or maximised exactly when some success's output holds it as a number under `key`. */
  lemma {:induction false} NumericValuesMembers(results: seq<PairSuccess>, key: string, v: real)
    ensures v in NumericValues(results, key) <==>
      exists k :: 0 <= k < |results| && NumericField(results[k].output, key) == Some(v)
  {
    if results != [] {
      var init := results[..|results| - 1];
      NumericValuesMembers(init, key, v);
      assert forall k :: 0 <= k < |init| ==> init[k] == results[k];
    }
  }

  /** A success record is in the results exactly when its pair was attempted and its call returned that output. */
  lemma {:induction false} SuccessesMembers(tool: BacktestTool, pairs: seq<(string, string)>, s: PairSuccess)
    ensures s in Successes(tool, pairs) <==>
      exists k :: 0 <= k < |pairs| && pairs[k] == (s.strategy, s.symbol) && Attempt(tool, pairs[k]) == Success(s.output)
  {
    if pairs != [] {
      var init := pairs[..|pairs| - 1];
      SuccessesMembers(tool, init, s);
      assert forall k :: 0 <= k < |init| ==> init[k] == pairs[k];
    }
  }

  /** An error record is in the errors exactly when its pair was attempted and its call raised that text. */
  lemma {:induction false} FailuresMembers(tool: BacktestTool, pairs: seq<(string, string)>, e: PairError)
    ensures e in Failures(tool, pairs) <==>
      exists k :: 0 <= k < |pairs| && pairs[k] == (e.strategy, e.symbol) && Attempt(tool, pairs[k]) == Failure(e.error)
  {
    if pairs != [] {
      var init := pairs[..|pairs| - 1];
      FailuresMembers(tool, init, e);
      assert forall k :: 0 <= k < |init| ==> init[k] == pairs[k];
    }
  }

  /** The registry record of a run. */
  datatype RunRecord = RunRecord(
    runId: string, status: Status, createdAt: string, updatedAt: string,
    request: MultiRunRequest, artifact: Option<string>)

  lemma UpdateTwice<K, V>(m: map<K, V>, k: K, v1: V, v2: V)
    ensures m[k := v1][k := v2] == m[k := v2]
  {
  }

  /** The record once the job has picked the run up. */
  function Started(rec: RunRecord, now: string): RunRecord {
    rec.(status := Running, updatedAt := now)
  }

  /** The record once the job has written its artifact. */
  function Finished(rec: RunRecord, status: Status, now: string, path: string): RunRecord {
    rec.(status := status, updatedAt := now, artifact := Some(path))
  }

  datatype StartResponse = StartResponse(runId: string, status: string, createdAt: string)

  /** `RUNS_DIR / f"{run_id}.json"`. */
  function ArtifactPath(runsDir: string, runId: string): string {
    runsDir + "/" + runId + ".json"
  }

  lemma ArtifactPathInjective(runsDir: string, a: string, b: string)
    requires ArtifactPath(runsDir, a) == ArtifactPath(runsDir, b)
    ensures a == b
  {
    var pa, pb := ArtifactPath(runsDir, a), ArtifactPath(runsDir, b);
    var k := |runsDir| + 1;
    assert |a| == |b|;
    assert a == pa[k..k + |a|];
    assert b == pb[k..k + |b|];
  }

  /** The status sequences a run can have been through: QUEUED, then RUNNING, then one terminal status. */
  ghost predicate LegalHistory(h: seq<Status>) {
    || h == [Queued]
    || h == [Queued, Running]
    || (|h| == 3 && h[0] == Queued && h[1] == Running && h[2].Terminal())
  }

  // ---------------------------------------------------------------------
  // The context builder
  // ---------------------------------------------------------------------

  /** An entry of the RAG index: `item.get("text")` and `item.get("path")`. */
  datatype IndexItem = IndexItem(text: Option<string>, path: Option<string>)

  /** `x or default` for an optional string. */
  function OrDefault(x: Option<string>, default: string): string {
    if x.None? || x.value == [] then default else x.value
  }

  /** The first five whitespace-separated words of the lowered question. */
  function QuestionTokens(question: string): (toks: seq<string>)
    ensures |toks| <= 5
  {
    var words := SplitWhitespace(Lower(question));
    if |words| <= 5 then words else words[..5]
  }

  /** `any(tok in text.lower() for tok in toks)`. */
  predicate Mentions(text: string, toks: seq<string>) {
    exists k :: 0 <= k < |toks| && Contains(Lower(text), toks[k])
  }

  /** `f"[{p}]\n{text[:400]}"`. */
  function ContextChunk(item: IndexItem): string {
    var text := OrDefault(item.text, "");
    "[" + OrDefault(item.path, "?") + "]\n" + (if |text| <= 400 then text else text[..400])
  }

  /** The chunks of the items that mention a token, in index order. */
  function ContextChunks(items: seq<IndexItem>, toks: seq<string>): (cs: seq<string>)
    ensures |cs| <= |items|
  {
    if items == [] then []
    else
      var last := items[|items| - 1];
      ContextChunks(items[..|items| - 1], toks)
      + (if Mentions(OrDefault(last.text, ""), toks) then [ContextChunk(last)] else [])
  }

  /** The positions of the items that mention a token, in increasing order. */
  function Mentioning(items: seq<IndexItem>, toks: seq<string>): (ix: seq<nat>)
    ensures forall j :: 0 <= j < |ix| ==> ix[j] < |items| && Mentions(OrDefault(items[ix[j]].text, ""), toks)
    ensures forall j, j' :: 0 <= j < j' < |ix| ==> ix[j] < ix[j']
    ensures forall i :: 0 <= i < |items| && Mentions(OrDefault(items[i].text, ""), toks) ==> i in ix
  {
    if items == [] then []
    else
      var init := items[..|items| - 1];
      var last := items[|items| - 1];
      assert forall i :: 0 <= i < |init| ==> init[i] == items[i];
      Mentioning(init, toks) + (if Mentions(OrDefault(last.text, ""), toks) then [|items| - 1] else [])
  }

  /** Chunk j is the chunk of the j-th mentioning item. */
  lemma {:induction false} ContextChunksAt(items: seq<IndexItem>, toks: seq<string>)
    ensures var cs, ix := ContextChunks(items, toks), Mentioning(items, toks);
      |cs| == |ix| && forall j :: 0 <= j < |ix| ==> cs[j] == ContextChunk(items[ix[j]])
  {
    if items != [] {
      var init, last := items[..|items| - 1], items[|items| - 1];
      ContextChunksAt(init, toks);
      var cs0, ix0 := ContextChunks(init, toks), Mentioning(init, toks);
      var cs, ix := ContextChunks(items, toks), Mentioning(items, toks);
      var hit := Mentions(OrDefault(last.text, ""), toks);
      assert cs == cs0 + (if hit then [ContextChunk(last)] else []);
      assert ix == ix0 + (if hit then [|items| - 1] else []);
      forall j | 0 <= j < |ix|
        ensures cs[j] == ContextChunk(items[ix[j]])
      {
        if j < |ix0| {
          assert cs[j] == cs0[j] && ix[j] == ix0[j];
          assert items[ix0[j]] == init[ix0[j]];
        }
      }
    }
  }

  /** A chunk is in the list iff it is the chunk of an item that mentions a token. */
  lemma ContextChunksMembers(items: seq<IndexItem>, toks: seq<string>, c: string)
    ensures c in ContextChunks(items, toks) <==>
      exists i :: 0 <= i < |items| && Mentions(OrDefault(items[i].text, ""), toks) && c == ContextChunk(items[i])
  {
    ContextChunksAt(items, toks);
    var cs, ix := ContextChunks(items, toks), Mentioning(items, toks);
    if c in cs {
      var j :| 0 <= j < |cs| && cs[j] == c;
      assert 0 <= ix[j] < |items| && Mentions(OrDefault(items[ix[j]].text, ""), toks);
    }
    if exists i :: 0 <= i < |items| && Mentions(OrDefault(items[i].text, ""), toks) && c == ContextChunk(items[i]) {
      var i :| 0 <= i < |items| && Mentions(OrDefault(items[i].text, ""), toks) && c == ContextChunk(items[i]);
      var j :| 0 <= j < |ix| && ix[j] == i;
      assert cs[j] == c;
    }
  }

  /** The chunks `make_context` joins: `chunks[:3]` over the first ten items. */
  function ContextParts(question: string, items: seq<IndexItem>): seq<string> {
    var first := if |items| <= 10 then items else items[..10];
    var cs := ContextChunks(first, QuestionTokens(question));
    if |cs| <= 3 then cs else cs[..3]
  }

  /** `"\n\n".join(chunks[:3])` over the first ten items. */
  function Context(question: string, items: seq<IndexItem>): string {
    Join(ContextParts(question, items), "\n\n")
  }

  /**
    The context joins the chunks of the first mentioning items among the
    first ten, in index order: all of them when there are at most three,
    otherwise the first three.
  */
  lemma ContextPartsSpec(question: string, items: seq<IndexItem>)
    ensures var first, toks := (if |items| <= 10 then items else items[..10]), QuestionTokens(question);
      var ix, ps := Mentioning(first, toks), ContextParts(question, items);
      && |ps| == (if |ix| <= 3 then |ix| else 3)
      && forall j :: 0 <= j < |ps| ==>
           (ix[j] < 10 && ix[j] < |items|
            && Mentions(OrDefault(items[ix[j]].text, ""), toks) && ps[j] == ContextChunk(items[ix[j]]))
  {
    var first := if |items| <= 10 then items else items[..10];
    ContextChunksAt(first, QuestionTokens(question));
    assert forall i :: 0 <= i < |first| ==> first[i] == items[i];
  }

  /** A question without words matches nothing: the context is empty. */
  lemma {:induction false} NoWordsNoContext(question: string, items: seq<IndexItem>)
    requires SplitWhitespace(Lower(question)) == []
    ensures Context(question, items) == ""
  {
    var first := if |items| <= 10 then items else items[..10];
    NoTokensNoChunks(first);
    assert ContextParts(question, items) == [];
  }

  lemma {:induction false} NoTokensNoChunks(items: seq<IndexItem>)
    ensures ContextChunks(items, []) == []
  {
    if items != [] { NoTokensNoChunks(items[..|items| - 1]); }
  }

  lemma ContextChunksSnoc(items: seq<IndexItem>, item: IndexItem, toks: seq<string>)
    ensures ContextChunks(items + [item], toks) == ContextChunks(items, toks)
      + (if Mentions(OrDefault(item.text, ""), toks) then [ContextChunk(item)] else [])
  {
    assert (items + [item])[..|items|] == items;
  }

  /** `any(tok in low for tok in toks)`, short-circuiting. */
  method AnyTokenIn(low: string, toks: seq<string>) returns (hit: bool)
    ensures hit <==> exists k :: 0 <= k < |toks| && Contains(low, toks[k])
  {
    hit := false;
    var k := 0;
    while k < |toks| && !hit
      invariant 0 <= k <= |toks|
      invariant hit <==> exists t :: 0 <= t < k && Contains(low, toks[t])
    {
      hit := Contains(low, toks[k]);
      k := k + 1;
    }
  }

  /** `make_context`: scan the first ten items, keep those that mention a question word, join three. */
  method MakeContext(question: string, items: seq<IndexItem>) returns (ctx: string)
    ensures ctx == Context(question, items)
  {
    var words := SplitWhitespace(Lower(question));
    var toks := if |words| <= 5 then words else words[..5];
    var first := if |items| <= 10 then items else items[..10];
    var chunks := MatchingChunks(first, toks);
    ctx := Join(if |chunks| <= 3 then chunks else chunks[..3], "\n\n");
  }

  /** The loop of `make_context` over the items. */
  method MatchingChunks(items: seq<IndexItem>, toks: seq<string>) returns (chunks: seq<string>)
    ensures chunks == ContextChunks(items, toks)
  {
    chunks := [];
    var i := 0;
    while i < |items|
      invariant 0 <= i <= |items|
      invariant chunks == ContextChunks(items[..i], toks)
    {
      var item := items[i];
      var text := OrDefault(item.text, "");
      var hit := AnyTokenIn(Lower(text), toks);
      ghost var prev := chunks;
      if hit {
        var p := OrDefault(item.path, "?");
        chunks := chunks + ["[" + p + "]\n" + (if |text| <= 400 then text else text[..400])];
      }
      assert items[..i + 1] == items[..i] + [item];
      ContextChunksSnoc(items[..i], item, toks);
      i := i + 1;
    }
    assert items[..i] == items;
  }

  // ---------------------------------------------------------------------
  // The tool call of `ask`
  // ---------------------------------------------------------------------

  /** The keys of `TOOLS`. */
  const KnownTools: set<string> := {"data.fetch", "backtest.run", "train.run", "risk.simulate"}

  /**
    Calling a registered tool with the call's arguments: its result or the
    raised error's text. The call includes the source's retry: `fn(**args)`,
    and `fn(args)` when that raises `TypeError`.
  */
  type ToolInvoker = (string, Json) -> Result<Json, string>

  datatype AskResult = ToolUsed(name: string, args: Json, result: Json) | Answered(answer: string)

  /** What `ask` does with the model's answer and the tool call parsed from it, and the new counters. */
  function AskOutcome(p: Policy, counts: map<Bucket, int>, answer: string, call: Option<(string, Json)>,
                      hour: int, invoke: ToolInvoker): (Result<AskResult, HttpError>, map<Bucket, int>)
  {
    match call
    case None => (Success(Answered(answer)), counts)
    case Some((name, args)) =>
      if !AllowedTool(p, name) then (Failure(HttpError(403, "Tool not allowed by policy: " + name)), counts)
      else
        var s := RateLimitStep(p, counts, name, hour);
        if s.limited then (Failure(HttpError(429, "Rate limit exceeded for " + name)), s.counts)
        else if name !in KnownTools then (Failure(HttpError(400, "Unknown tool: " + name)), s.counts)
        else
          match invoke(name, args)
          case Success(out) => (Success(ToolUsed(name, args, out)), s.counts)
          case Failure(e) => (Failure(HttpError(500, e)), s.counts)
  }

  /**
    The policy check comes first (403) and spends no rate budget; the rate
    check comes next (429, budget untouched); an unknown tool (400) is never
    rate limited, so it spends nothing either; a known tool runs, and only a
    "backtest.run" call that runs spends one unit of its hour's budget.
  */
  lemma AskCheckOrder(p: Policy, counts: map<Bucket, int>, answer: string, name: string, args: Json,
                      hour: int, invoke: ToolInvoker)
    ensures var (r, c) := AskOutcome(p, counts, answer, Some((name, args)), hour, invoke);
      && (!AllowedTool(p, name) ==> r == Failure(HttpError(403, "Tool not allowed by policy: " + name)) && c == counts)
      && (AllowedTool(p, name) && RateLimitStep(p, counts, name, hour).limited ==>
            r.Failure? && r.error.code == 429 && c == counts)
      && (AllowedTool(p, name) && name !in KnownTools ==> r.Failure? && r.error.code == 400 && c == counts)
      && (r.Success? ==> AllowedTool(p, name) && name in KnownTools && r.value == ToolUsed(name, args, r.value.result))
      && (name != RateLimitedTool ==> c == counts)
  {
  }

  /** The invariant of one registry entry `id`, with status history `h`. */
  ghost predicate RecordOk(runsDir: string, id: string, rec: RunRecord, h: seq<Status>, artifacts: map<string, Artifact>) {
    && rec.runId == id
    && LegalHistory(h)
    && h[|h| - 1] == rec.status
    && (rec.artifact.Some? <==> rec.status.Terminal())
    && (rec.artifact.Some? ==>
          && rec.artifact.value == ArtifactPath(runsDir, id)
          && rec.artifact.value in artifacts
          && artifacts[rec.artifact.value].runId == id
          && artifacts[rec.artifact.value].status == rec.status)
  }

  /** A queued record has the history `[QUEUED]`, and once started it is a good RUNNING record. */
  lemma StartedOk(runsDir: string, id: string, rec: RunRecord, h: seq<Status>, artifacts: map<string, Artifact>,
                  now: string)
    requires RecordOk(runsDir, id, rec, h, artifacts) && rec.status == Queued
    ensures h == [Queued] && h + [Running] == [Queued, Running]
    ensures RecordOk(runsDir, id, Started(rec, now), h + [Running], artifacts)
  {
  }

  // ---------------------------------------------------------------------
  // The application state
  // ---------------------------------------------------------------------

  class Orchestrator {
    /** The policy, loaded once at start-up. */
    const policy: Policy
    /** The directory artifacts are written to. */
    const runsDir: string
    /** The `.runtime` rate-counter files. */
    var rateCounts: map<Bucket, int>
    /** `RUN_REGISTRY`. */
    var registry: map<string, RunRecord>
    /** The artifact files under `runsDir`, by path. */
    var artifacts: map<string, Artifact>
    /** The statuses each run has been through. */
    ghost var history: map<string, seq<Status>>

    /**
      Every registered run has a legal status history ending in its current
      status; a run has an artifact exactly when it is terminal, and that
      artifact carries the same status.
    */
    ghost predicate Valid()
      reads this
    {
      && registry.Keys == history.Keys
      && forall id :: id in registry ==> RecordOk(runsDir, id, registry[id], history[id], artifacts)
    }

    constructor (policy: Policy, runsDir: string, rateCounts: map<Bucket, int>)
      ensures Valid()
      ensures this.policy == policy && this.runsDir == runsDir && this.rateCounts == rateCounts
      ensures registry == map[] && artifacts == map[]
    {
      this.policy := policy;
      this.runsDir := runsDir;
      this.rateCounts := rateCounts;
      registry := map[];
      artifacts := map[];
      history := map[];
    }

    /** `rate_limited(name)` at wall-clock time `now`. */
    method RateLimited(name: string, now: real) returns (limited: bool)
      modifies this
      ensures RateStep(limited, rateCounts) == RateLimitStep(policy, old(rateCounts), name, HourOf(now))
      ensures registry == old(registry) && artifacts == old(artifacts) && history == old(history)
    {
      var limit := LimitFor(policy, name);
      if NoLimit(limit) {
        return false;
      }
      var hour := HourOf(now);
      var count := if (name, hour) in rateCounts then rateCounts[(name, hour)] else 0;
      if count >= limit.value {
        return true;
      }
      rateCounts := rateCounts[(name, hour) := count + 1];
      return false;
    }

    /** The tool-call part of `ask`: policy, then rate limit, then the tool table. */
    method Ask(answer: string, call: Option<(string, Json)>, now: real, invoke: ToolInvoker)
      returns (r: Result<AskResult, HttpError>)
      modifies this
      ensures (r, rateCounts) == AskOutcome(policy, old(rateCounts), answer, call, HourOf(now), invoke)
      ensures registry == old(registry) && artifacts == old(artifacts) && history == old(history)
    {
      if call.None? {
        return Success(Answered(answer));
      }
      var (name, args) := call.value;
      if !AllowedTool(policy, name) {
        return Failure(HttpError(403, "Tool not allowed by policy: " + name));
      }
      var limited := RateLimited(name, now);
      if limited {
        return Failure(HttpError(429, "Rate limit exceeded for " + name));
      }
      if name !in KnownTools {
        return Failure(HttpError(400, "Unknown tool: " + name));
      }
      var out := invoke(name, args);
      match out
      case Success(v) => r := Success(ToolUsed(name, args, v));
      case Failure(e) => r := Failure(HttpError(500, e));
    }

    /** `start_multi_run`: register the run as QUEUED and return at once. */
    method StartMultiRun(req: MultiRunRequest, runId: string, now: string) returns (resp: StartResponse)
      requires Valid()
      modifies this
      ensures Valid()
      ensures registry == old(registry)[runId := RunRecord(runId, Queued, now, now, req, None)]
      ensures history == old(history)[runId := [Queued]]
      ensures resp == StartResponse(runId, "QUEUED", now)
      ensures rateCounts == old(rateCounts) && artifacts == old(artifacts)
    {
      registry := registry[runId := RunRecord(runId, Queued, now, now, req, None)];
      history := history[runId := [Queued]];
      resp := StartResponse(runId, Queued.Name(), now);
    }

    /** `get_multi_run`: the record, or 404 for an unknown id. */
    method GetMultiRun(runId: string) returns (r: Result<RunRecord, HttpError>)
      ensures runId in registry ==> r == Success(registry[runId])
      ensures runId !in registry ==> r == Failure(HttpError(404, "run_id not found"))
    {
      if runId in registry {
        r := Success(registry[runId]);
      } else {
        r := Failure(HttpError(404, "run_id not found"));
      }
    }

    /**
      `_multi_run_job`: mark the run RUNNING, attempt every pair, summarise,
      write the artifact and record the terminal status and the artifact path.
      It calls the tool directly: no policy check and no rate counter.
    */
    method MultiRunJob(runId: string, req: MultiRunRequest, tool: BacktestTool,
                       startedAt: string, completedAt: string, finishedAt: string)
      requires Valid()
      requires runId in registry && registry[runId].status == Queued
      modifies this
      ensures Valid()
      ensures var a := JobArtifact(runId, req, tool, completedAt);
        && artifacts == old(artifacts)[ArtifactPath(runsDir, runId) := a]
        && registry == old(registry)[runId :=
             Finished(old(registry)[runId], a.status, finishedAt, ArtifactPath(runsDir, runId))]
        && history == old(history)[runId := [Queued, Running, a.status]]
      ensures rateCounts == old(rateCounts)
    {
      ghost var r0, h0 := registry, history;
      MarkRunning(runId, startedAt);
      var payload := RunJob(runId, req, tool, completedAt);
      var path := ArtifactPath(runsDir, runId);
      Finish(runId, path, payload, finishedAt);
      ghost var rec := Finished(r0[runId], payload.status, finishedAt, path);
      assert Finished(Started(r0[runId], startedAt), payload.status, finishedAt, path) == rec;
      UpdateTwice(r0, runId, Started(r0[runId], startedAt), rec);
      UpdateTwice(h0, runId, [Queued, Running], [Queued, Running, payload.status]);
    }

    /** The first registry update of the job: RUNNING. */
    method MarkRunning(runId: string, now: string)
      requires Valid()
      requires runId in registry && registry[runId].status == Queued
      modifies this
      ensures Valid()
      ensures registry == old(registry)[runId := Started(old(registry)[runId], now)]
      ensures history == old(history)[runId := [Queued, Running]]
      ensures artifacts == old(artifacts) && rateCounts == old(rateCounts)
    {
      StartedOk(runsDir, runId, registry[runId], history[runId], artifacts, now);
      registry := registry[runId := Started(registry[runId], now)];
      history := history[runId := history[runId] + [Running]];
    }

    /** Write the artifact, then record the terminal status and the artifact path. */
    method Finish(runId: string, path: string, payload: Artifact, now: string)
      requires Valid()
      requires runId in registry && registry[runId].status == Running
      requires path == ArtifactPath(runsDir, runId) && payload.runId == runId && payload.status.Terminal()
      modifies this
      ensures Valid()
      ensures artifacts == old(artifacts)[path := payload]
      ensures registry == old(registry)[runId := Finished(old(registry)[runId], payload.status, now, path)]
      ensures history == old(history)[runId := [Queued, Running, payload.status]]
      ensures rateCounts == old(rateCounts)
    {
      assert RecordOk(runsDir, runId, registry[runId], history[runId], artifacts);
      assert history[runId] == [Queued, Running];
      ghost var before := artifacts;
      WriteArtifact(path, payload);
      registry := registry[runId := Finished(registry[runId], payload.status, now, path)];
      history := history[runId := [Queued, Running, payload.status]];
      forall id | id in registry ensures RecordOk(runsDir, id, registry[id], history[id], artifacts) {
        if id != runId {
          assert RecordOk(runsDir, id, registry[id], history[id], before);
          if registry[id].artifact.Some? && registry[id].artifact.value == path {
            ArtifactPathInjective(runsDir, id, runId);
          }
        }
      }
    }

    /** `_write_run_artifact`: (over)write the one file for this path. */
    method WriteArtifact(path: string, payload: Artifact)
      modifies this
      ensures artifacts == old(artifacts)[path := payload]
      ensures registry == old(registry) && history == old(history) && rateCounts == old(rateCounts)
    {
      artifacts := artifacts[path := payload];
    }
  }

  /** The nested loops of `_multi_run_job`: every strategy on every symbol, splitting outcomes. */
  method RunPairs(strategies: seq<string>, symbols: seq<string>, tool: BacktestTool)
    returns (results: seq<PairSuccess>, errors: seq<PairError>)
    ensures results == Successes(tool, Cross(strategies, symbols))
    ensures errors == Failures(tool, Cross(strategies, symbols))
  {
    results, errors := [], [];
    var i := 0;
    while i < |strategies|
      invariant 0 <= i <= |strategies|
      invariant results == Successes(tool, Cross(strategies[..i], symbols))
      invariant errors == Failures(tool, Cross(strategies[..i], symbols))
    {
      var rs, es := RunStrategy(strategies[i], symbols, tool);
      SuccessesAppend(tool, Cross(strategies[..i], symbols), Row(strategies[i], symbols));
      FailuresAppend(tool, Cross(strategies[..i], symbols), Row(strategies[i], symbols));
      CrossSnoc(strategies, symbols, i);
      results, errors := results + rs, errors + es;
      i := i + 1;
    }
    assert strategies[..i] == strategies;
  }

  /** The inner loop: one strategy on every symbol. */
  method RunStrategy(strategy: string, symbols: seq<string>, tool: BacktestTool)
    returns (results: seq<PairSuccess>, errors: seq<PairError>)
    ensures results == Successes(tool, Row(strategy, symbols))
    ensures errors == Failures(tool, Row(strategy, symbols))
  {
    results, errors := [], [];
    var j := 0;
    while j < |symbols|
      invariant 0 <= j <= |symbols|
      invariant results == Successes(tool, Row(strategy, symbols[..j]))
      invariant errors == Failures(tool, Row(strategy, symbols[..j]))
    {
      var symbol := symbols[j];
      RowSnoc(strategy, symbols, j);
      OutcomesSnoc(tool, Row(strategy, symbols[..j]), (strategy, symbol));
      var output := tool(strategy, [symbol], None);
      match output {
        case Success(out) =>
          results := results + [PairSuccess(strategy, symbol, out)];
        case Failure(e) =>
          errors := errors + [PairError(strategy, symbol, e)];
      }
      j := j + 1;
    }
    assert symbols[..j] == symbols;
  }

  /** The work of `_multi_run_job` between the two registry updates: the artifact it writes. */
  method RunJob(runId: string, req: MultiRunRequest, tool: BacktestTool, completedAt: string) returns (payload: Artifact)
    ensures payload == JobArtifact(runId, req, tool, completedAt)
  {
    var results, errors := RunPairs(req.strategies, req.symbols, tool);
    var summary := Summarize(req, results, errors);
    var status := TerminalStatus(errors);
    payload := Artifact(runId, status, req, results, errors, summary, completedAt);
  }

  /** The summary loop of `_multi_run_job`: collect the numeric sharpe and maxDD fields. */
  method Summarize(req: MultiRunRequest, results: seq<PairSuccess>, errors: seq<PairError>)
    returns (summary: Summary)
    ensures summary == SummaryOf(req, results, errors)
  {
    var sharpes: seq<real> := [];
    var maxdds: seq<real> := [];
    var k := 0;
    while k < |results|
      invariant 0 <= k <= |results|
      invariant sharpes == NumericValues(results[..k], "sharpe")
      invariant maxdds == NumericValues(results[..k], "maxDD")
    {
      var out := results[k].output;
      if out.JObj? {
        var s := AsNumber(Get(out.fields, "sharpe"));
        if s.Some? { sharpes := sharpes + [s.value]; }
        var d := AsNumber(Get(out.fields, "maxDD"));
        if d.Some? { maxdds := maxdds + [d.value]; }
      }
      assert results[..k + 1][..k] == results[..k];
      k := k + 1;
    }
    assert results[..k] == results;
    summary := Summary(|req.strategies| * |req.symbols|, |results|, |errors|, Mean(sharpes), Max(maxdds));
  }
}
