/**
  The tool gateway of chat/orchestrator_stub.py: a line-based reader for the
  policy file, the allow-list test, the order in which `/tool/run` and the
  direct-JSON branch of `/chat` check a tool call before dispatching it to the
  backtest API, and the keyword-overlap retriever over the chunk index.
*/
module OrchestratorStub {
  import opened Wrappers
  import opened Json
  import opened PyStr
  import opened Ranking

  // ---------------------------------------------------------------------
  // read_policy
  // ---------------------------------------------------------------------

  /** The dictionary `read_policy` returns. */
  datatype StubPolicy = StubPolicy(mode: string, allowedTools: seq<string>, rateLimits: map<string, Json>)

  /** The policy when there is no policy file. */
  const DefaultPolicy := StubPolicy("paper", [], map[])

  /** A line whose stripped text starts with "mode:". */
  predicate IsModeLine(line: string) {
    StartsWith(Strip(line), "mode:")
  }

  /** `s.split(":", 1)[1].strip()`: "mode" holds no colon, so the first colon is the fifth character. */
  function ModeValue(line: string): string
    requires IsModeLine(line)
  {
    Strip(Strip(line)[5..])
  }

  /** A line that adds a tool: its stripped text starts with "- " and it is not a mode line. */
  predicate IsItemLine(line: string) {
    !IsModeLine(line) && StartsWith(Strip(line), "- ")
  }

  /** `s[2:].strip()`. */
  function ItemValue(line: string): string
    requires IsItemLine(line)
  {
    Strip(Strip(line)[2..])
  }

  /** One iteration of the loop over the file's lines. */
  function PolicyStep(p: StubPolicy, line: string): StubPolicy {
    if IsModeLine(line) then p.(mode := ModeValue(line))
    else if IsItemLine(line) then p.(allowedTools := p.allowedTools + [ItemValue(line)])
    else p
  }

  /** The policy after the loop has read `lines`. */
  function ParsePolicy(lines: seq<string>): StubPolicy {
    if lines == [] then DefaultPolicy else PolicyStep(ParsePolicy(lines[..|lines| - 1]), lines[|lines| - 1])
  }

  /** `read_policy()`, given the policy file's text (`None`: the file does not exist). */
  function ReadPolicy(file: Option<string>): StubPolicy {
    match file
    case None => DefaultPolicy
    case Some(text) => ParsePolicy(SplitLines(text))
  }

  /** `read_policy()`. */
  method ReadPolicyFile(file: Option<string>) returns (p: StubPolicy)
    ensures p == ReadPolicy(file)
    ensures file.None? ==> p.mode == "paper" && p.allowedTools == [] && p.rateLimits == map[]
  {
    var mode := "paper";
    var allowed: seq<string> := [];
    var rates: map<string, Json> := map[];
    if file.None? {
      return StubPolicy(mode, allowed, rates);
    }
    var lines := SplitLines(file.value);
    for i := 0 to |lines|
      invariant ParsePolicy(lines[..i]) == StubPolicy(mode, allowed, rates)
    {
      assert lines[..i + 1][..i] == lines[..i];
      var s := Strip(lines[i]);
      if StartsWith(s, "mode:") {
        mode := Strip(s[5..]);
      } else if StartsWith(s, "- ") {
        allowed := allowed + [Strip(s[2..])];
      }
    }
    assert lines[..|lines|] == lines;
    p := StubPolicy(mode, allowed, rates);
  }

  /** The tool a line adds, if any. */
  function ItemOf(line: string): seq<string> {
    if IsItemLine(line) then [ItemValue(line)] else []
  }

  /** `f` applied to every element, front to back, the results concatenated. */
  function FlatMap<T, U>(xs: seq<T>, f: T -> seq<U>): seq<U> {
    if xs == [] then [] else f(xs[0]) + FlatMap(xs[1..], f)
  }

  lemma {:induction false} FlatMapAppend<T, U>(a: seq<T>, b: seq<T>, f: T -> seq<U>)
    ensures FlatMap(a + b, f) == FlatMap(a, f) + FlatMap(b, f)
  {
    if a == [] {
      assert a + b == b;
    } else {
      assert (a + b)[1..] == a[1..] + b;
      FlatMapAppend(a[1..], b, f);
    }
  }

  lemma {:induction false} FlatMapMembers<T, U>(xs: seq<T>, f: T -> seq<U>, u: U)
    ensures u in FlatMap(xs, f) <==> exists k :: 0 <= k < |xs| && u in f(xs[k])
  {
    if xs != [] {
      FlatMapMembers(xs[1..], f, u);
      if u in FlatMap(xs[1..], f) {
        var k :| 0 <= k < |xs| - 1 && u in f(xs[1..][k]);
        assert xs[k + 1] == xs[1..][k];
      }
      if exists k :: 0 <= k < |xs| && u in f(xs[k]) {
        var k :| 0 <= k < |xs| && u in f(xs[k]);
        if k > 0 {
          assert xs[1..][k - 1] == xs[k];
        }
      }
    }
  }

  /** The tools the item lines name, read front to back. */
  function Items(lines: seq<string>): seq<string> {
    FlatMap(lines, ItemOf)
  }

  /**
    The allowed list is the value of every "- " line, in file order, with
    duplicates kept, whatever key the line sits under; mode lines add nothing.
  */
  lemma {:induction false} AllowedAreItems(lines: seq<string>)
    ensures ParsePolicy(lines).allowedTools == Items(lines)
  {
    if lines != [] {
      var init, last := lines[..|lines| - 1], lines[|lines| - 1];
      AllowedAreItems(init);
      FlatMapAppend(init, [last], ItemOf);
      assert lines == init + [last];
    }
  }

  lemma ItemsMembers(lines: seq<string>, t: string)
    ensures t in Items(lines) <==> exists k :: 0 <= k < |lines| && IsItemLine(lines[k]) && ItemValue(lines[k]) == t
  {
    FlatMapMembers(lines, ItemOf, t);
    assert forall k :: 0 <= k < |lines| ==> (t in ItemOf(lines[k]) <==> IsItemLine(lines[k]) && ItemValue(lines[k]) == t);
  }

  /** Without a mode line the mode stays "paper". */
  lemma {:induction false} ModeDefault(lines: seq<string>)
    requires forall k :: 0 <= k < |lines| ==> !IsModeLine(lines[k])
    ensures ParsePolicy(lines).mode == "paper"
  {
    if lines != [] {
      ModeDefault(lines[..|lines| - 1]);
    }
  }

  /** The last mode line decides the mode. */
  lemma {:induction false} ModeLastWins(lines: seq<string>, k: nat)
    requires k < |lines| && IsModeLine(lines[k])
    requires forall j :: k < j < |lines| ==> !IsModeLine(lines[j])
    ensures ParsePolicy(lines).mode == ModeValue(lines[k])
  {
    if k < |lines| - 1 {
      ModeLastWins(lines[..|lines| - 1], k);
    }
  }

  /** The rate limits are never filled in. */
  lemma {:induction false} RateLimitsEmpty(lines: seq<string>)
    ensures ParsePolicy(lines).rateLimits == map[]
  {
    if lines != [] {
      RateLimitsEmpty(lines[..|lines| - 1]);
    }
  }

  /** No allowed tool is the empty string: an item line's stripped text ends in a non-space after "- ". */
  lemma ItemsNonEmpty(lines: seq<string>)
    ensures forall t :: t in Items(lines) ==> t != []
  {
    forall t | t in Items(lines)
      ensures t != []
    {
      ItemsMembers(lines, t);
      var k :| 0 <= k < |lines| && IsItemLine(lines[k]) && ItemValue(lines[k]) == t;
      ItemValueNonEmpty(lines[k]);
    }
  }

  /** The value of one item line is not empty. */
  lemma ItemValueNonEmpty(line: string)
    requires IsItemLine(line)
    ensures ItemValue(line) != []
  {
    var s := Strip(line);
    StripBounds(line);
    assert s[..2] == "- ";
    assert IsSpace(s[1]);
    StripKeepsNonSpaceEnd(s[2..]);
  }

  /** A string ending in a non-space character does not strip to nothing. */
  lemma StripKeepsNonSpaceEnd(x: string)
    requires x != [] && !IsSpace(x[|x| - 1])
    ensures Strip(x) != []
  {
    LStripSpec(x);
    var r := LStrip(x);
    assert r[|r| - 1] == x[|x| - 1];
  }

  // ---------------------------------------------------------------------
  // tool_allowed and the dispatch order
  // ---------------------------------------------------------------------

  /** `tool_allowed(name)`: list membership; a name that is not a string is never a member. */
  predicate ToolAllowed(p: StubPolicy, name: Json) {
    name.JStr? && name.s in p.allowedTools
  }

  /** A policy file allows exactly the names its "- " lines give. */
  lemma AllowedFromFile(text: string, lines: seq<string>, name: string)
    requires lines == SplitLines(text)
    ensures ToolAllowed(ReadPolicy(Some(text)), JStr(name)) <==>
      exists k :: 0 <= k < |lines| && IsItemLine(lines[k]) && ItemValue(lines[k]) == name
  {
    AllowedAreItems(lines);
    ItemsMembers(lines, name);
  }

  /** The endpoints of the backtest API. */
  datatype Endpoint = RunBacktest | PlotEquity | RunAndPlot | RunAndPlotSave

  /**
    The exceptions binding a call's arguments can raise: `Model(**args)` on a
    value that is not a mapping (TypeError), pydantic's ValidationError for a
    missing required field, and the KeyError of `args['fast']`.
  */
  datatype PyError = TypeErr | ValidationErr | KeyErr

  /**
    What a tool call comes to: an HTTP error; the endpoints called in order;
    an exception (500) raised after the listed endpoints were called; or, in
    `/chat` only, the fall-through to the model path.
  */
  datatype Dispatch =
    | Refused(status: int)
    | Calls(tool: string, endpoints: seq<Endpoint>)
    | Raises(error: PyError, tool: string, endpoints: seq<Endpoint>)
    | FallsThrough

  const KnownTools: set<string> := {"backtest.run", "plot.equity", "run_and_plot", "run_and_plot_save"}

  /** The name a payload gives: `payload.get("tool", "")`. */
  function ToolName(payload: map<string, Json>): Json {
    GetOr(payload, "tool", JStr(""))
  }

  /** The arguments a payload gives: `payload.get("args", {})`. */
  function ToolArgs(payload: map<string, Json>): Json {
    GetOr(payload, "args", JObj(map[]))
  }

  /**
    The fields without a default of the request model a tool binds its
    arguments to: PlotRequest for "plot.equity", ToolBacktest or RunPlotArgs
    (the same fields) for the other three.
  */
  function RequiredFields(tool: string): set<string> {
    if tool == "plot.equity" then {"csv_path"} else {"symbol", "start", "end"}
  }

  /** The exception `Model(**args)` raises for `tool`, if any. */
  function BindError(tool: string, args: Json): (e: Option<PyError>)
    ensures e == Some(TypeErr) <==> !args.JObj?
    ensures e == Some(ValidationErr) <==> args.JObj? && !(RequiredFields(tool) <= args.fields.Keys)
    ensures e.None? <==> args.JObj? && RequiredFields(tool) <= args.fields.Keys
  {
    if !args.JObj? then Some(TypeErr)
    else if !(RequiredFields(tool) <= args.fields.Keys) then Some(ValidationErr)
    else None
  }

  /**
    `tool_run(payload)`: the combined tools run a backtest and then a plot
    whose title reads `args['fast']` and `args['slow']`, which raises once the
    backtest has run when either was left to its default.
  */
  function ToolRun(p: StubPolicy, payload: map<string, Json>): Dispatch {
    var name := ToolName(payload);
    var args := ToolArgs(payload);
    if !ToolAllowed(p, name) then Refused(403)
    else if name.s !in KnownTools then Refused(400)
    else if BindError(name.s, args).Some? then Raises(BindError(name.s, args).value, name.s, [])
    else if name.s == "backtest.run" then Calls(name.s, [RunBacktest])
    else if name.s == "plot.equity" then Calls(name.s, [PlotEquity])
    else if "fast" !in args.fields || "slow" !in args.fields then Raises(KeyErr, name.s, [RunBacktest])
    else Calls(name.s, [RunBacktest, PlotEquity])
  }

  /**
    The direct tool-JSON branch of `/chat`: each combined tool goes to its own
    endpoint, and the TypeError of arguments that are not a mapping is caught
    and ends in the model path.
  */
  function ChatToolCall(p: StubPolicy, call: map<string, Json>): Dispatch {
    var name := ToolName(call);
    var args := ToolArgs(call);
    if !ToolAllowed(p, name) then Refused(403)
    else if name.s !in KnownTools then Refused(400)
    else if BindError(name.s, args) == Some(TypeErr) then FallsThrough
    else if BindError(name.s, args).Some? then Raises(BindError(name.s, args).value, name.s, [])
    else if name.s == "backtest.run" then Calls(name.s, [RunBacktest])
    else if name.s == "plot.equity" then Calls(name.s, [PlotEquity])
    else if name.s == "run_and_plot" then Calls(name.s, [RunAndPlot])
    else Calls(name.s, [RunAndPlotSave])
  }

  /**
    The policy is checked before anything else: a name off the list gets 403
    and calls nothing; an allowed name outside the four tools gets 400; then
    the arguments are bound, and a binding error raises before any call;
    a combined tool whose arguments lack "fast" or "slow" raises KeyError
    after the backtest; every other call reaches the API under its own name.
  */
  lemma ToolRunOrder(p: StubPolicy, payload: map<string, Json>)
    ensures ToolRun(p, payload) == Refused(403) <==> !ToolAllowed(p, ToolName(payload))
    ensures ToolRun(p, payload) == Refused(400) <==>
      ToolAllowed(p, ToolName(payload)) && ToolName(payload).s !in KnownTools
    ensures ToolRun(p, payload).Refused? ==> ToolRun(p, payload).status in {400, 403}
    ensures !ToolRun(p, payload).Refused? ==>
      ToolName(payload).JStr? && ToolAllowed(p, ToolName(payload)) && ToolName(payload).s in KnownTools
    ensures ToolRun(p, payload) != FallsThrough
    ensures ToolRun(p, payload).Raises? && ToolRun(p, payload).error != KeyErr <==>
      !ToolRun(p, payload).Refused? && BindError(ToolName(payload).s, ToolArgs(payload)).Some?
    ensures ToolRun(p, payload).Raises? && ToolRun(p, payload).error != KeyErr ==>
      ToolRun(p, payload).error == BindError(ToolName(payload).s, ToolArgs(payload)).value &&
      ToolRun(p, payload).endpoints == []
    ensures ToolRun(p, payload).Raises? && ToolRun(p, payload).error == KeyErr <==>
      !ToolRun(p, payload).Refused? && BindError(ToolName(payload).s, ToolArgs(payload)).None? &&
      ToolName(payload).s in {"run_and_plot", "run_and_plot_save"} &&
      ("fast" !in ToolArgs(payload).fields || "slow" !in ToolArgs(payload).fields)
    ensures ToolRun(p, payload).Raises? && ToolRun(p, payload).error == KeyErr ==>
      ToolRun(p, payload).endpoints == [RunBacktest]
    ensures ToolRun(p, payload).Calls? ==>
      ToolName(payload) == JStr(ToolRun(p, payload).tool) && ToolRun(p, payload).endpoints != [] &&
      BindError(ToolRun(p, payload).tool, ToolArgs(payload)).None?
  {
  }

  /**
    `/chat` refuses exactly the calls `/tool/run` refuses, with the same
    status; arguments that are not a mapping send `/chat` to the model path
    where `/tool/run` raises; a missing required field raises in both; and
    a call `/chat` makes, `/tool/run` makes under the same name, or it raises
    KeyError after the backtest.
  */
  lemma ChatMatchesToolRun(p: StubPolicy, call: map<string, Json>)
    ensures ChatToolCall(p, call).Refused? <==> ToolRun(p, call).Refused?
    ensures ChatToolCall(p, call).Refused? ==> ChatToolCall(p, call) == ToolRun(p, call)
    ensures ChatToolCall(p, call) == FallsThrough <==> ToolRun(p, call).Raises? && ToolRun(p, call).error == TypeErr
    ensures ChatToolCall(p, call).Raises? <==> ToolRun(p, call).Raises? && ToolRun(p, call).error == ValidationErr
    ensures ChatToolCall(p, call).Raises? ==> ChatToolCall(p, call) == ToolRun(p, call)
    ensures ChatToolCall(p, call).Calls? <==>
      ToolRun(p, call).Calls? || (ToolRun(p, call).Raises? && ToolRun(p, call).error == KeyErr)
    ensures ChatToolCall(p, call).Calls? ==> ChatToolCall(p, call).tool == ToolRun(p, call).tool
  {
  }

  /** A non-mapping `args` for an allowed "backtest.run": `/tool/run` raises TypeError, `/chat` moves on to the model. */
  lemma NonMappingArgs(p: StubPolicy, args: Json)
    requires "backtest.run" in p.allowedTools && !args.JObj?
    ensures ToolRun(p, map["tool" := JStr("backtest.run"), "args" := args]) == Raises(TypeErr, "backtest.run", [])
    ensures ChatToolCall(p, map["tool" := JStr("backtest.run"), "args" := args]) == FallsThrough
  {
    assert ToolName(map["tool" := JStr("backtest.run"), "args" := args]) == JStr("backtest.run");
  }

  /**
    "run_and_plot" with only the required fields: `/chat` calls the combined
    endpoint, `/tool/run` runs the backtest and then raises KeyError on `args['fast']`.
  */
  lemma DefaultedFastRaises(p: StubPolicy, symbol: Json, start: Json, end: Json)
    requires "run_and_plot" in p.allowedTools
    ensures var call := map["tool" := JStr("run_and_plot"),
                            "args" := JObj(map["symbol" := symbol, "start" := start, "end" := end])];
      ToolRun(p, call) == Raises(KeyErr, "run_and_plot", [RunBacktest]) &&
      ChatToolCall(p, call) == Calls("run_and_plot", [RunAndPlot])
  {
    var call := map["tool" := JStr("run_and_plot"),
                    "args" := JObj(map["symbol" := symbol, "start" := start, "end" := end])];
    assert ToolName(call) == JStr("run_and_plot");
    assert ToolArgs(call).fields.Keys == {"symbol", "start", "end"};
  }

  /** `/tool/run` never reaches the combined endpoints; "run_and_plot_save" does exactly what "run_and_plot" does. */
  lemma ToolRunSkipsCombinedEndpoints(p: StubPolicy, payload: map<string, Json>)
    ensures ToolRun(p, payload).Calls? || ToolRun(p, payload).Raises? ==>
      RunAndPlot !in ToolRun(p, payload).endpoints && RunAndPlotSave !in ToolRun(p, payload).endpoints
    ensures ToolRun(p, payload).Calls? && ToolRun(p, payload).tool in {"run_and_plot", "run_and_plot_save"} ==>
      ToolRun(p, payload).endpoints == [RunBacktest, PlotEquity]
  {
  }

  /** A payload without "tool" is refused with 403 under every policy the file reader can produce. */
  lemma MissingToolForbidden(file: Option<string>, payload: map<string, Json>)
    requires "tool" !in payload
    ensures ToolRun(ReadPolicy(file), payload) == Refused(403)
  {
    if file.Some? {
      AllowedAreItems(SplitLines(file.value));
      ItemsNonEmpty(SplitLines(file.value));
    }
  }

  // ---------------------------------------------------------------------
  // search_chunks
  // ---------------------------------------------------------------------

  /** `set(re.findall(r"\w+", s.lower()))`. */
  function TokenSet(s: string): set<string> {
    set t | t in WordTokens(Lower(s))
  }

  /** `rec["text"]` as a string; `None` when the lookup or the `.lower()` after it raises. */
  function RecordText(rec: Option<Json>): Option<string> {
    if rec.Some? && rec.value.JObj? && "text" in rec.value.fields && rec.value.fields["text"].JStr? then
      Some(rec.value.fields["text"].s)
    else None
  }

  /** `len(q & t)` for one record. */
  function Overlap(q: set<string>, text: string): nat {
    |q * TokenSet(text)|
  }

  const BadRecord := "index record without a text string"

  /**
    The (score, record) pairs of the records that share a token with the
    query, in index order; `rec` is `None` for a line that is not valid JSON.
    The first bad line raises.
  */
  function Scored(q: set<string>, recs: seq<Option<Json>>): Result<seq<(int, Json)>, string> {
    if recs == [] then Success([])
    else
      match Scored(q, recs[..|recs| - 1])
      case Failure(e) => Failure(e)
      case Success(sc) =>
        var rec := recs[|recs| - 1];
        match RecordText(rec)
        case None => Failure(BadRecord)
        case Some(text) =>
          var score := Overlap(q, text);
          Success(if score != 0 then sc + [(score, rec.value)] else sc)
  }

  /** The sort key. */
  function ScoreKey(e: (int, Json)): real { e.0 as real }

  /** The records of the pairs, in order. */
  function Records(ps: seq<(int, Json)>): (rs: seq<Json>)
    ensures |rs| == |ps| && forall i :: 0 <= i < |ps| ==> rs[i] == ps[i].1
  {
    seq(|ps|, i requires 0 <= i < |ps| => ps[i].1)
  }

  /** `search_chunks(query, k)` over the index's decoded lines (`None`: no index file). */
  function SearchResult(query: string, k: int, index: Option<seq<Option<Json>>>): Result<seq<Json>, string> {
    match index
    case None => Success([])
    case Some(recs) =>
      match Scored(TokenSet(query), recs)
      case Failure(e) => Failure(e)
      case Success(sc) => Success(Answer(sc, k))
  }

  /** `[r for _, r in scored[:k]]` after the sort. */
  function Answer(sc: seq<(int, Json)>, k: int): seq<Json> {
    Records(TakePrefix(SortDesc(sc, ScoreKey), k))
  }

  /** `search_chunks(query, k)`. */
  method SearchChunks(query: string, k: int, index: Option<seq<Option<Json>>>) returns (r: Result<seq<Json>, string>)
    ensures r == SearchResult(query, k, index)
  {
    if index.None? {
      return Success([]);
    }
    var recs := index.value;
    var q := TokenSet(query);
    var scored: seq<(int, Json)> := [];
    for i := 0 to |recs|
      invariant Scored(q, recs[..i]) == Success(scored)
    {
      assert recs[..i + 1][..i] == recs[..i];
      var text := RecordText(recs[i]);
      if text.None? {
        ScoredFails(q, recs);
        return Failure(BadRecord);
      }
      var score := |q * TokenSet(text.value)|;
      if score != 0 {
        scored := scored + [(score, recs[i].value)];
      }
    }
    assert recs[..|recs|] == recs;
    r := Success(Answer(scored, k));
  }

  /** The score `search_chunks` gives a decoded record (0 for one it cannot read). */
  function AnswerScore(q: set<string>, rec: Json): int {
    match RecordText(Some(rec))
    case None => 0
    case Some(text) => Overlap(q, text)
  }

  /** The call raises, with the one message, exactly when some line is bad. */
  lemma {:induction false} ScoredFails(q: set<string>, recs: seq<Option<Json>>)
    ensures Scored(q, recs).Success? <==> forall i :: 0 <= i < |recs| ==> RecordText(recs[i]).Some?
    ensures Scored(q, recs).Failure? ==> Scored(q, recs).error == BadRecord
  {
    if recs != [] {
      var init := recs[..|recs| - 1];
      ScoredFails(q, init);
      assert forall i :: 0 <= i < |init| ==> init[i] == recs[i];
    }
  }

  /**
    Every scored pair holds a record of the index with a positive score that
    is its overlap with the query, and every record that overlaps the query
    is scored.
  */
  lemma ScoredSpec(q: set<string>, recs: seq<Option<Json>>, sc: seq<(int, Json)>)
    requires Scored(q, recs) == Success(sc)
    ensures forall e :: e in sc ==> e.0 > 0 && e.0 == AnswerScore(q, e.1) && Some(e.1) in recs
    ensures forall i :: 0 <= i < |recs| && recs[i].Some? && AnswerScore(q, recs[i].value) > 0 ==> (AnswerScore(q, recs[i].value), recs[i].value) in sc
  {
    ScoredSound(q, recs, sc);
    ScoredComplete(q, recs, sc);
  }

  /** Every scored pair is a record of the index with its positive overlap. */
  lemma {:induction false} ScoredSound(q: set<string>, recs: seq<Option<Json>>, sc: seq<(int, Json)>)
    requires Scored(q, recs) == Success(sc)
    ensures forall e :: e in sc ==> e.0 > 0 && e.0 == AnswerScore(q, e.1) && Some(e.1) in recs
  {
    if recs != [] {
      var init := recs[..|recs| - 1];
      ScoredStep(q, recs);
      ScoredSound(q, init, Scored(q, init).value);
      assert forall e :: e in init ==> e in recs;
    }
  }

  /** Every record of the index with a positive overlap is scored. */
  lemma {:induction false} ScoredComplete(q: set<string>, recs: seq<Option<Json>>, sc: seq<(int, Json)>)
    requires Scored(q, recs) == Success(sc)
    ensures forall i :: 0 <= i < |recs| && recs[i].Some? && AnswerScore(q, recs[i].value) > 0 ==> (AnswerScore(q, recs[i].value), recs[i].value) in sc
  {
    if recs != [] {
      var init := recs[..|recs| - 1];
      ScoredStep(q, recs);
      ScoredComplete(q, init, Scored(q, init).value);
      assert forall i :: 0 <= i < |init| ==> init[i] == recs[i];
    }
  }

  /** The last record of a successful scan is readable, and it is appended exactly when it scores above 0. */
  lemma ScoredStep(q: set<string>, recs: seq<Option<Json>>)
    requires recs != [] && Scored(q, recs).Success?
    ensures var n := |recs| - 1; var last := recs[n];
      && Scored(q, recs[..n]).Success? && last.Some?
      && var a := AnswerScore(q, last.value);
      && (a > 0 ==> Scored(q, recs).value == Scored(q, recs[..n]).value + [(a, last.value)])
      && (a <= 0 ==> Scored(q, recs).value == Scored(q, recs[..n]).value)
  {
  }

  /** Sorting keeps the pairs' properties and orders them by score, ties in index order. */
  lemma SortedScores(q: set<string>, recs: seq<Option<Json>>, sc: seq<(int, Json)>)
    requires Scored(q, recs) == Success(sc)
    ensures var sorted := SortDesc(sc, ScoreKey);
      && NonIncreasing(sorted, ScoreKey)
      && (forall v :: WithKey(sorted, ScoreKey, v) == WithKey(sc, ScoreKey, v))
      && forall i :: 0 <= i < |sorted| ==>
           sorted[i].0 > 0 && sorted[i].0 == AnswerScore(q, sorted[i].1) && Some(sorted[i].1) in recs
  {
    ScoredSpec(q, recs, sc);
    SortDescCorrect(sc, ScoreKey);
    var sorted := SortDesc(sc, ScoreKey);
    forall i | 0 <= i < |sorted|
      ensures sorted[i] in sc
    {
      assert sorted[i] in multiset(sorted);
    }
  }

  /**
    The answer holds at most `k` records (for `k >= 0`) and no more
    than overlap the query; each is a record of the index sharing a token
    with the query, and their overlaps never increase down the list.
  */
  lemma SearchAnswer(query: string, k: int, recs: seq<Option<Json>>)
    requires Scored(TokenSet(query), recs).Success?
    ensures var q := TokenSet(query);
      var r := SearchResult(query, k, Some(recs)).value;
      && |r| <= |Scored(q, recs).value| && (k >= 0 ==> |r| <= k)
      && (forall i :: 0 <= i < |r| ==> AnswerScore(q, r[i]) > 0 && Some(r[i]) in recs)
      && forall i, j :: 0 <= i < j < |r| ==> AnswerScore(q, r[i]) >= AnswerScore(q, r[j])
  {
    var q := TokenSet(query);
    AnswerSpec(q, recs, Scored(q, recs).value, k);
  }

  lemma AnswerSpec(q: set<string>, recs: seq<Option<Json>>, sc: seq<(int, Json)>, k: int)
    requires Scored(q, recs) == Success(sc)
    ensures var r := Answer(sc, k);
      && |r| <= |sc| && (k >= 0 ==> |r| <= k)
      && (forall i :: 0 <= i < |r| ==> AnswerScore(q, r[i]) > 0 && Some(r[i]) in recs)
      && forall i, j :: 0 <= i < j < |r| ==> AnswerScore(q, r[i]) >= AnswerScore(q, r[j])
  {
    var sorted := SortDesc(sc, ScoreKey);
    SortedScores(q, recs, sc);
    var ranked := TakePrefix(sorted, k);
    assert forall i :: 0 <= i < |ranked| ==> ranked[i] == sorted[i];
  }
}
