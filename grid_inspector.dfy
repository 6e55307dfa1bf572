/**
  The sweep ranker of strategies/grid_inspector.py: read every per-run record
  of the sweep directory, recover (fast, slow) and the three metrics from
  whichever of the two record shapes is present, score each run with
  `sharpe * abs(total_return)`, and rank the runs best first.
*/
module GridInspector {
  import opened Wrappers
  import opened Json
  import opened PyStr
  import opened Ranking
  import Sweep
  import MultiRunSmaCross

  // ---------------------------------------------------------------------
  // The ranked row
  // ---------------------------------------------------------------------

  /** `RunRow`. */
  datatype RunRow = RunRow(fast: int, slow: int, totalReturn: real, volAnnual: real, sharpe: real, score: real)

  /** The header row of the ranked CSV. */
  const Header: seq<string> := ["fast", "slow", "total_return", "vol_annual", "sharpe", "score"]

  /** The field of a row that a header column names. */
  function Field(r: RunRow, column: string): real {
    match column
    case "fast" => r.fast as real
    case "slow" => r.slow as real
    case "total_return" => r.totalReturn
    case "vol_annual" => r.volAnnual
    case "sharpe" => r.sharpe
    case "score" => r.score
    case _ => 0.0
  }

  /** `RunRow.to_list`. */
  function ToList(r: RunRow): seq<real> {
    [r.fast as real, r.slow as real, r.totalReturn, r.volAnnual, r.sharpe, r.score]
  }

  /** Column k of a CSV line holds the field that column k of the header names. */
  lemma ToListMatchesHeader(r: RunRow)
    ensures |ToList(r)| == |Header|
    ensures forall k :: 0 <= k < |Header| ==> ToList(r)[k] == Field(r, Header[k])
  {
  }

  /** The ranking key. */
  function Score(r: RunRow): real { r.score }

  // ---------------------------------------------------------------------
  // The file-name fallback: re.search(r"fast(\d+)_slow(\d+)", name)
  // ---------------------------------------------------------------------

  /** The length of the run of decimal digits at the start of `s`. */
  function DigitRun(s: string): (n: nat)
    ensures n <= |s|
    ensures forall j :: 0 <= j < n ==> IsDigit(s[j])
    ensures n < |s| ==> !IsDigit(s[n])
  {
    if s == [] || !IsDigit(s[0]) then 0 else 1 + DigitRun(s[1..])
  }

  /**
    The pattern matched at the start of `t`: "fast", digits, "_slow", digits.
    The greedy `\d+` takes the whole digit run, and a shorter run could not
    be followed by "_", so no other split matches.
  */
  function MatchHere(t: string): Option<(int, int)> {
    if !StartsWith(t, "fast") then None
    else
      var a := t[4..];
      var n := DigitRun(a);
      if n == 0 || !StartsWith(a[n..], "_slow") then None
      else
        var c := a[n + 5..];
        var m := DigitRun(c);
        if m == 0 then None
        else Some((DigitsValue(a[..n]), DigitsValue(c[..m])))
  }

  /** `re.search`: the first match of `at` at position `i` or later (a match may be empty, so `|s|` is tried too). */
  function SearchFrom<T>(s: string, i: nat, at: string -> Option<T>): Option<T>
    requires i <= |s|
    decreases |s| - i
  {
    if at(s[i..]).Some? then at(s[i..])
    else if i == |s| then None
    else SearchFrom(s, i + 1, at)
  }

  /** `parse_fast_slow_from_name`; `None` stands for the ValueError. */
  function ParseFastSlow(name: string): Option<(int, int)> {
    SearchFrom(name, 0, MatchHere)
  }

  /** The search returns the match at the leftmost position where the pattern matches, and fails when it matches nowhere. */
  lemma {:induction false} SearchFromSpec<T>(s: string, i: nat, at: string -> Option<T>)
    requires i <= |s|
    ensures SearchFrom(s, i, at).Some? ==>
      exists k :: i <= k <= |s| && at(s[k..]) == SearchFrom(s, i, at) &&
        forall j :: i <= j < k ==> at(s[j..]).None?
    ensures SearchFrom(s, i, at).None? ==> forall j :: i <= j <= |s| ==> at(s[j..]).None?
    decreases |s| - i
  {
    if at(s[i..]).None? && i < |s| {
      SearchFromSpec(s, i + 1, at);
      if SearchFrom(s, i, at).Some? {
        var k :| i + 1 <= k <= |s| && at(s[k..]) == SearchFrom(s, i + 1, at) &&
          forall j :: i + 1 <= j < k ==> at(s[j..]).None?;
        assert forall j :: i <= j < k ==> at(s[j..]).None?;
      }
    }
  }

  lemma {:induction false} SearchSkips<T>(s: string, i: nat, k: nat, at: string -> Option<T>)
    requires i <= k <= |s|
    requires forall j :: i <= j < k ==> at(s[j..]).None?
    ensures SearchFrom(s, i, at) == SearchFrom(s, k, at)
    decreases k - i
  {
    if i < k {
      SearchSkips(s, i + 1, k, at);
    }
  }

  lemma {:induction false} DigitRunOf(d: string, rest: string)
    requires AllDigits(d)
    requires rest != [] && !IsDigit(rest[0])
    ensures DigitRun(d + rest) == |d|
  {
    if d != [] {
      assert (d + rest)[1..] == d[1..] + rest;
      DigitRunOf(d[1..], rest);
    }
  }

  /** Nothing matches at a position that does not hold an `f`. */
  lemma NoMatchWithoutF(t: string)
    requires t != [] && t[0] != 'f'
    ensures MatchHere(t).None?
  {
  }

  /** The pattern reads the two digit strings back out of "fast{df}_slow{ds}" and whatever follows a non-digit. */
  lemma MatchWritten(df: string, ds: string, tail: string)
    requires |df| >= 1 && AllDigits(df) && |ds| >= 1 && AllDigits(ds)
    requires tail != [] && !IsDigit(tail[0])
    ensures MatchHere("fast" + (df + ("_slow" + (ds + tail)))) == Some((DigitsValue(df), DigitsValue(ds)))
  {
    var t := "fast" + (df + ("_slow" + (ds + tail)));
    assert StartsWith(t, "fast") by { assert t[..4] == "fast"; }
    var a := t[4..];
    assert a == df + ("_slow" + (ds + tail));
    DigitRunOf(df, "_slow" + (ds + tail));
    assert a[..|df|] == df;
    assert a[|df|..] == "_slow" + (ds + tail);
    assert StartsWith(a[|df|..], "_slow") by { assert a[|df|..][..5] == "_slow"; }
    var c := a[|df| + 5..];
    assert c == ds + tail;
    DigitRunOf(ds, tail);
    assert c[..|ds|] == ds;
  }

  /**
    The name every producer writes parses back to its fast and slow, for
    natural numbers: nothing before "fast" can start a match, and each digit
    run ends where the writer put "_slow" and ".json".
  */
  lemma ParseRunFileName(fast: nat, slow: nat)
    ensures ParseFastSlow(Sweep.RunFileName(fast, slow)) == Some((fast, slow))
  {
    var df, ds := NatToString(fast), NatToString(slow);
    var rest := "fast" + (df + ("_slow" + (ds + ".json")));
    assert Sweep.RunFileName(fast, slow) == "sma_cross_" + rest;
    MatchWritten(df, ds, ".json");
    DigitsValueOfNatToString(fast);
    DigitsValueOfNatToString(slow);
    ParsePrefixed(rest, (fast, slow));
  }

  /** A name "sma_cross_" + rest parses as `rest` matches at its start. */
  lemma ParsePrefixed(rest: string, v: (int, int))
    requires MatchHere(rest) == Some(v)
    ensures ParseFastSlow("sma_cross_" + rest) == Some(v)
  {
    var name := "sma_cross_" + rest;
    forall j | 0 <= j < 10 ensures MatchHere(name[j..]).None? {
      assert name[j..][0] == name[j] == "sma_cross_"[j];
      NoMatchWithoutF(name[j..]);
    }
    assert name[10..] == rest;
    SearchSkips(name, 0, 10, MatchHere);
  }

  /** Distinct pairs of natural numbers get distinct run files, so no run overwrites another's record. */
  lemma RunFileNameInjective(f1: nat, s1: nat, f2: nat, s2: nat)
    requires Sweep.RunFileName(f1, s1) == Sweep.RunFileName(f2, s2)
    ensures f1 == f2 && s1 == s2
  {
    ParseRunFileName(f1, s1);
    ParseRunFileName(f2, s2);
  }

  // ---------------------------------------------------------------------
  // load_run
  // ---------------------------------------------------------------------

  /**
    What `load_run` does with one file: a row, `None` (the file is skipped,
    with the reason printed), or an exception that escapes it and ends `main`.
  */
  datatype Load = Loaded(row: RunRow) | Skip(reason: string) | Crash(error: string)

  const JsonLoadError: string := "JSON load error"
  const NoFastSlow: string := "cannot get fast/slow"
  const BadFastSlow: string := "bad fast/slow"
  const BadMetrics: string := "bad metrics"
  const NoGet: string := "object has no attribute 'get'"

  /**
    `data.get(key, {}) or {}` followed by `.get` calls on it: a falsy value
    counts as `{}`, and any other non-object raises AttributeError.
  */
  function SubObject(data: map<string, Json>, key: string): Result<map<string, Json>, string> {
    var v := GetOr(data, key, JObj(map[]));
    if !Truthy(v) then Success(map[])
    else if v.JObj? then Success(v.fields)
    else Failure(NoGet)
  }

  /** `primary.get(key)`, and if that is `None`, `data.get(key, default)`. */
  function Fallback(primary: map<string, Json>, data: map<string, Json>, key: string, default: Json): Json {
    if Get(primary, key).JNull? then GetOr(data, key, default) else Get(primary, key)
  }

  /** The (fast, slow) values after both fallbacks; `None` when the file name does not parse either. */
  function FastSlowValues(name: string, data: map<string, Json>, params: map<string, Json>): Option<(Json, Json)> {
    var fast, slow := Fallback(params, data, "fast", JNull), Fallback(params, data, "slow", JNull);
    if fast.JNull? || slow.JNull? then
      match ParseFastSlow(name)
      case None => None
      case Some(p) => Some((JInt(p.0), JInt(p.1)))
    else Some((fast, slow))
  }

  /** `int(fast)`, `int(slow)`: both values, or the exception of either. */
  function Ints(f: Option<int>, s: Option<int>): Option<(int, int)> {
    if f.Some? && s.Some? then Some((f.value, s.value)) else None
  }

  function FastSlowInts(v: (Json, Json)): Option<(int, int)> {
    Ints(PyInt(v.0), PyInt(v.1))
  }

  /** `float()` of the three metrics: all three values, or the exception of any. */
  function Floats(tr: Option<real>, va: Option<real>, sh: Option<real>): Option<(real, real, real)> {
    if tr.Some? && va.Some? && sh.Some? then Some((tr.value, va.value, sh.value)) else None
  }

  /** The three metrics after their fallbacks, converted. */
  function MetricValues(data: map<string, Json>, metrics: map<string, Json>): Option<(real, real, real)> {
    Floats(PyFloat(Fallback(metrics, data, "total_return", JReal(0.0))),
           PyFloat(Fallback(metrics, data, "vol_annual", JReal(0.0))),
           PyFloat(Fallback(metrics, data, "sharpe", JReal(0.0))))
  }

  /** fast and slow as integers, or why the file is skipped. */
  function FastSlowOf(name: string, data: map<string, Json>, params: map<string, Json>): Result<(int, int), string> {
    match FastSlowValues(name, data, params)
    case None => Failure(NoFastSlow)
    case Some(v) =>
      match FastSlowInts(v)
      case None => Failure(BadFastSlow)
      case Some(fs) => Success(fs)
  }

  /** The result of `load_run` on a file called `name` whose decoded content is `data` (`None`: not valid JSON). */
  function LoadResult(name: string, data: Option<Json>): Load {
    if data.None? then Skip(JsonLoadError)
    else if !data.value.JObj? then Crash(NoGet)
    else
      var d := data.value.fields;
      match SubObject(d, "params")
      case Failure(e) => Crash(e)
      case Success(params) =>
        match FastSlowOf(name, d, params)
        case Failure(why) => Skip(why)
        case Success(fs) =>
          match SubObject(d, "metrics")
          case Failure(e) => Crash(e)
          case Success(metrics) =>
            match MetricValues(d, metrics)
            case None => Skip(BadMetrics)
            case Some(ms) => Loaded(RunRow(fs.0, fs.1, ms.0, ms.1, ms.2, Sweep.AbsScore(ms.2, ms.0)))
  }

  /** `load_run(file_path)`. */
  method LoadRun(name: string, data: Option<Json>) returns (r: Load)
    ensures r == LoadResult(name, data)
  {
    if data.None? {
      return Skip(JsonLoadError);
    }
    var d := data.value;
    if !d.JObj? {
      return Crash(NoGet);
    }
    var ps := SubObject(d.fields, "params");
    if ps.Failure? {
      return Crash(ps.error);
    }
    var fs := ReadFastSlow(name, d.fields, ps.value);
    if fs.Failure? {
      return Skip(fs.error);
    }
    var mo := SubObject(d.fields, "metrics");
    if mo.Failure? {
      return Crash(mo.error);
    }
    var ms := ReadMetrics(d.fields, mo.value);
    if ms.None? {
      return Skip(BadMetrics);
    }
    var (tr, va, sh) := ms.value;
    r := Loaded(RunRow(fs.value.0, fs.value.1, tr, va, sh, Sweep.AbsScore(sh, tr)));
  }

  /** The fast/slow part of `load_run`: params, then the flat keys, then the file name, then `int()`. */
  method ReadFastSlow(name: string, data: map<string, Json>, params: map<string, Json>) returns (r: Result<(int, int), string>)
    ensures r == FastSlowOf(name, data, params)
  {
    var fast := Get(params, "fast");
    var slow := Get(params, "slow");
    if fast.JNull? {
      fast := Get(data, "fast");
    }
    if slow.JNull? {
      slow := Get(data, "slow");
    }
    if fast.JNull? || slow.JNull? {
      var parsed := ParseFastSlow(name);
      if parsed.None? {
        return Failure(NoFastSlow);
      }
      fast, slow := JInt(parsed.value.0), JInt(parsed.value.1);
    }
    var f, s := PyInt(fast), PyInt(slow);
    if f.None? || s.None? {
      return Failure(BadFastSlow);
    }
    r := Success((f.value, s.value));
  }

  /** The metrics part of `load_run`: the metrics block, then the flat keys, then 0.0, then `float()`. */
  method ReadMetrics(data: map<string, Json>, metrics: map<string, Json>) returns (r: Option<(real, real, real)>)
    ensures r == MetricValues(data, metrics)
  {
    var tr, va, sh := Get(metrics, "total_return"), Get(metrics, "vol_annual"), Get(metrics, "sharpe");
    if tr.JNull? {
      tr := GetOr(data, "total_return", JReal(0.0));
    }
    if va.JNull? {
      va := GetOr(data, "vol_annual", JReal(0.0));
    }
    if sh.JNull? {
      sh := GetOr(data, "sharpe", JReal(0.0));
    }
    var trv, vav, shv := PyFloat(tr), PyFloat(va), PyFloat(sh);
    if trv.None? || vav.None? || shv.None? {
      return None;
    }
    r := Some((trv.value, vav.value, shv.value));
  }

  /** A loaded row is always scored `sharpe * abs(total_return)`. */
  lemma LoadedScore(name: string, data: Option<Json>)
    ensures LoadResult(name, data).Loaded? ==>
      var r := LoadResult(name, data).row; r.score == Sweep.AbsScore(r.sharpe, r.totalReturn)
  {
  }

  /**
    Only a file that decodes to something other than an object, or whose
    "params" or "metrics" value is truthy but not an object, makes `load_run`
    raise; every other defect skips the file.
  */
  lemma LoadCrashes(name: string, data: Option<Json>)
    ensures LoadResult(name, data).Crash? ==>
      data.Some? &&
      (!data.value.JObj? ||
       SubObject(data.value.fields, "params").Failure? ||
       SubObject(data.value.fields, "metrics").Failure?)
    ensures (data.Some? && data.value.JObj? && SubObject(data.value.fields, "params").Success? &&
             SubObject(data.value.fields, "metrics").Success?) ==> !LoadResult(name, data).Crash?
  {
  }

  /**
    A record with no "fast" or no "slow" in either place takes both from the
    file name; a name without the pattern then skips the file.
  */
  lemma NameFallback(name: string, d: map<string, Json>)
    requires SubObject(d, "params").Success?
    requires Fallback(SubObject(d, "params").value, d, "fast", JNull).JNull?
    ensures ParseFastSlow(name).None? ==> LoadResult(name, Some(JObj(d))) == Skip(NoFastSlow)
    ensures ParseFastSlow(name).Some? && LoadResult(name, Some(JObj(d))).Loaded? ==>
      (LoadResult(name, Some(JObj(d))).row.fast, LoadResult(name, Some(JObj(d))).row.slow) == ParseFastSlow(name).value
  {
  }

  /**
    A flat row file of chat/strategy_grid.py, under the name it is written
    to, loads back to the same fast, slow and metrics; the score is
    recomputed with `abs`, where the writer used `max(total_return, 0)`.
  */
  lemma StrategyGridRecordLoads(row: Sweep.SummaryRow)
    ensures LoadResult(Sweep.RunFileName(row.fast, row.slow), Some(Sweep.RowJson(row))) ==
      Loaded(RunRow(row.fast, row.slow, row.totalReturn, row.volAnnual, row.sharpe, Sweep.AbsScore(row.sharpe, row.totalReturn)))
  {
    var d := Sweep.RowJson(row).fields;
    assert "params" !in d && "metrics" !in d;
    assert SubObject(d, "params") == Success(map[]);
    assert SubObject(d, "metrics") == Success(map[]);
    assert FastSlowValues(Sweep.RunFileName(row.fast, row.slow), d, map[]) == Some((JInt(row.fast), JInt(row.slow)));
    assert MetricValues(d, map[]) == Some((row.totalReturn, row.volAnnual, row.sharpe));
  }

  /** A metric of a strategy result the two producers read alike: absent, null or a number. */
  predicate PlainMetric(m: map<string, Json>, key: string) {
    key in m ==> m[key].JNull? || m[key].JInt? || m[key].JReal?
  }

  /**
    A hierarchical record of strategies/multi_run_sma_cross.py whose params
    are `{"fast": fast, "slow": slow}` (as the SMA strategy returns them) and
    whose metrics are plain loads back to exactly the producer's summary row.
  */
  lemma SmaRecordLoads(fast: int, slow: int, res: Sweep.StrategyResult)
    requires res.params == map["fast" := JInt(fast), "slow" := JInt(slow)]
    requires PlainMetric(res.metrics, "total_return") && PlainMetric(res.metrics, "vol_annual")
    requires PlainMetric(res.metrics, "sharpe")
    ensures var row := MultiRunSmaCross.SmaRow(fast, slow, res.metrics);
      LoadResult(Sweep.RunFileName(fast, slow),
                 Some(MultiRunSmaCross.RunRecord(res, MultiRunSmaCross.ScoredMetrics(res.metrics, row.score)))) ==
      Loaded(RunRow(fast, slow, row.totalReturn, row.volAnnual, row.sharpe, row.score))
  {
    var row := MultiRunSmaCross.SmaRow(fast, slow, res.metrics);
    var metrics := MultiRunSmaCross.ScoredMetrics(res.metrics, row.score);
    var d := MultiRunSmaCross.RunRecord(res, metrics).fields;
    assert d.Keys == {"name", "params", "metrics", "equity_curve", "trades"};
    assert d["params"] == JObj(res.params) && d["metrics"] == JObj(metrics);
    NestedLoads(Sweep.RunFileName(fast, slow), d, fast, slow, res.metrics, row);
  }

  /**
    A record without flat keys, whose params are exactly fast and slow and
    whose metrics are the plain ones plus the score, loads as the row.
  */
  lemma NestedLoads(name: string, d: map<string, Json>, fast: int, slow: int, m: map<string, Json>,
                    row: Sweep.SummaryRow)
    requires row == MultiRunSmaCross.SmaRow(fast, slow, m)
    requires PlainMetric(m, "total_return") && PlainMetric(m, "vol_annual") && PlainMetric(m, "sharpe")
    requires "params" in d && d["params"] == JObj(map["fast" := JInt(fast), "slow" := JInt(slow)])
    requires "metrics" in d && d["metrics"] == JObj(MultiRunSmaCross.ScoredMetrics(m, row.score))
    requires "fast" !in d && "slow" !in d
    requires "total_return" !in d && "vol_annual" !in d && "sharpe" !in d
    ensures LoadResult(name, Some(JObj(d))) == Loaded(RunRow(fast, slow, row.totalReturn, row.volAnnual, row.sharpe, row.score))
  {
    var params := map["fast" := JInt(fast), "slow" := JInt(slow)];
    var metrics := MultiRunSmaCross.ScoredMetrics(m, row.score);
    assert SubObject(d, "params") == Success(params);
    assert SubObject(d, "metrics") == Success(metrics);
    ExplicitFastSlow(name, d, fast, slow);
    PlainMetrics(d, m, row);
    StagesLoad(name, d, params, metrics, (fast, slow), (row.totalReturn, row.volAnnual, row.sharpe));
  }

  /** Integer params, with no flat keys beside them, are what the fast/slow stage returns. */
  lemma ExplicitFastSlow(name: string, d: map<string, Json>, fast: int, slow: int)
    requires "fast" !in d && "slow" !in d
    ensures FastSlowOf(name, d, map["fast" := JInt(fast), "slow" := JInt(slow)]) == Success((fast, slow))
  {
    assert FastSlowValues(name, d, map["fast" := JInt(fast), "slow" := JInt(slow)]) == Some((JInt(fast), JInt(slow)));
  }

  /** Plain metrics, with no flat keys beside them, convert to the producer's row values. */
  lemma PlainMetrics(d: map<string, Json>, m: map<string, Json>, row: Sweep.SummaryRow)
    requires row == MultiRunSmaCross.SmaRow(row.fast, row.slow, m)
    requires PlainMetric(m, "total_return") && PlainMetric(m, "vol_annual") && PlainMetric(m, "sharpe")
    requires "total_return" !in d && "vol_annual" !in d && "sharpe" !in d
    ensures MetricValues(d, MultiRunSmaCross.ScoredMetrics(m, row.score)) == Some((row.totalReturn, row.volAnnual, row.sharpe))
  {
    var metrics := MultiRunSmaCross.ScoredMetrics(m, row.score);
    SameMetric(m, metrics, d, "total_return", row.score);
    SameMetric(m, metrics, d, "vol_annual", row.score);
    SameMetric(m, metrics, d, "sharpe", row.score);
  }

  /** When every stage succeeds, the file loads with the stages' values and the product score. */
  lemma StagesLoad(name: string, d: map<string, Json>, params: map<string, Json>, metrics: map<string, Json>,
                   fs: (int, int), ms: (real, real, real))
    requires SubObject(d, "params") == Success(params) && FastSlowOf(name, d, params) == Success(fs)
    requires SubObject(d, "metrics") == Success(metrics) && MetricValues(d, metrics) == Some(ms)
    ensures LoadResult(name, Some(JObj(d))) == Loaded(RunRow(fs.0, fs.1, ms.0, ms.1, ms.2, Sweep.AbsScore(ms.2, ms.0)))
  {
  }

  /** One plain metric converts the same under `_as_float` and under the ranker's fallbacks. */
  lemma SameMetric(m: map<string, Json>, metrics: map<string, Json>, d: map<string, Json>, key: string, score: real)
    requires key != "score" && metrics == MultiRunSmaCross.ScoredMetrics(m, score)
    requires key !in d && PlainMetric(m, key)
    ensures PyFloat(Fallback(metrics, d, key, JReal(0.0))) == Some(MultiRunSmaCross.MetricOf(m, key))
  {
  }

  // ---------------------------------------------------------------------
  // main
  // ---------------------------------------------------------------------

  /** What `load_run` returns for each file, in order. */
  function Loads(files: seq<(string, Option<Json>)>): (ls: seq<Load>)
    ensures |ls| == |files| && forall k :: 0 <= k < |files| ==> ls[k] == LoadResult(files[k].0, files[k].1)
  {
    seq(|files|, k requires 0 <= k < |files| => LoadResult(files[k].0, files[k].1))
  }

  /** The rows of the loaded files in order; the first exception ends the loop. */
  function Collect(loads: seq<Load>): Result<seq<RunRow>, string> {
    if loads == [] then Success([])
    else
      match Collect(loads[..|loads| - 1])
      case Failure(e) => Failure(e)
      case Success(rows) =>
        match loads[|loads| - 1]
        case Loaded(r) => Success(rows + [r])
        case Skip(_) => Success(rows)
        case Crash(e) => Failure(e)
  }

  /**
    The loop raises exactly when some file's `load_run` raises; otherwise its
    rows are exactly the rows of the files that loaded.
  */
  lemma {:induction false} CollectSpec(loads: seq<Load>)
    ensures Collect(loads).Failure? <==> exists k :: 0 <= k < |loads| && loads[k].Crash?
    ensures Collect(loads).Success? ==>
      forall r :: r in Collect(loads).value <==> exists k :: 0 <= k < |loads| && loads[k] == Loaded(r)
  {
    if loads != [] {
      var n := |loads| - 1;
      var init := loads[..n];
      CollectSpec(init);
      assert forall k :: 0 <= k < n ==> init[k] == loads[k];
      if Collect(init).Success? && Collect(loads).Success? {
        forall r | r in Collect(loads).value
          ensures exists k :: 0 <= k < |loads| && loads[k] == Loaded(r)
        {
          if r !in Collect(init).value {
            assert loads[n] == Loaded(r);
          }
        }
      }
    }
  }

  /** Once a file has raised, later files change nothing. */
  lemma {:induction false} CollectStops(loads: seq<Load>, i: nat, k: nat)
    requires i <= k <= |loads|
    requires Collect(loads[..i]).Failure?
    ensures Collect(loads[..k]) == Collect(loads[..i])
    decreases k - i
  {
    if i < k {
      CollectStops(loads, i, k - 1);
      assert loads[..k][..k - 1] == loads[..k - 1];
    }
  }

  /** How `main` ends. */
  datatype Inspection =
    | NoMultiDir
    | NoRunFiles
    | NoValidRuns
    | Ranked(rows: seq<RunRow>, csv: seq<seq<real>>)
    | Raised(error: string)

  /** `main`, given whether the sweep directory exists and its run files in `sorted()` order with their decoded contents. */
  function InspectResult(dirExists: bool, files: seq<(string, Option<Json>)>): Inspection {
    if !dirExists then NoMultiDir
    else if files == [] then NoRunFiles
    else
      match Collect(Loads(files))
      case Failure(e) => Raised(e)
      case Success(rows) =>
        if rows == [] then NoValidRuns
        else
          var ranked := SortDesc(rows, Score);
          Ranked(ranked, seq(|ranked|, k requires 0 <= k < |ranked| => ToList(ranked[k])))
  }

  /**
    The ranked rows are a permutation of the loaded rows, best score first,
    with equally scored rows in file order, and the CSV has one line per
    ranked row, in the same order.
  */
  lemma RankedCorrect(dirExists: bool, files: seq<(string, Option<Json>)>)
    ensures var out := InspectResult(dirExists, files);
      out.Ranked? ==>
        var loaded := Collect(Loads(files)).value;
        && Collect(Loads(files)).Success? && loaded != []
        && multiset(out.rows) == multiset(loaded)
        && NonIncreasing(out.rows, Score)
        && (forall v :: WithKey(out.rows, Score, v) == WithKey(loaded, Score, v))
        && |out.csv| == |out.rows|
        && (forall k :: 0 <= k < |out.rows| ==> out.csv[k] == ToList(out.rows[k]))
  {
    if InspectResult(dirExists, files).Ranked? {
      SortDescCorrect(Collect(Loads(files)).value, Score);
    }
  }

  /** `main`: load every run file, keep the rows, rank them and build the CSV lines. */
  method Inspect(dirExists: bool, files: seq<(string, Option<Json>)>) returns (out: Inspection)
    ensures out == InspectResult(dirExists, files)
  {
    if !dirExists {
      return NoMultiDir;
    }
    if files == [] {
      return NoRunFiles;
    }
    var loaded := LoadAll(files);
    if loaded.Failure? {
      return Raised(loaded.error);
    }
    var rows := loaded.value;
    if rows == [] {
      return NoValidRuns;
    }
    var ranked := SortDesc(rows, Score);
    var csv := CsvLines(ranked);
    out := Ranked(ranked, csv);
  }

  /** The loop of `main` over the run files: the first exception ends it. */
  method LoadAll(files: seq<(string, Option<Json>)>) returns (r: Result<seq<RunRow>, string>)
    ensures r == Collect(Loads(files))
  {
    ghost var loads := Loads(files);
    var rows: seq<RunRow> := [];
    var i := 0;
    while i < |files|
      invariant 0 <= i <= |files|
      invariant Collect(loads[..i]) == Success(rows)
    {
      var l := LoadRun(files[i].0, files[i].1);
      assert loads[..i + 1][..i] == loads[..i];
      match l {
        case Loaded(row) =>
          rows := rows + [row];
        case Skip(_) =>
        case Crash(e) =>
          CollectStops(loads, i + 1, |loads|);
          assert loads[..|loads|] == loads;
          return Failure(e);
      }
      i := i + 1;
    }
    assert loads[..i] == loads;
    r := Success(rows);
  }

  /** `row.to_list()` of every ranked row, in order. */
  method CsvLines(ranked: seq<RunRow>) returns (csv: seq<seq<real>>)
    ensures |csv| == |ranked| && forall k :: 0 <= k < |ranked| ==> csv[k] == ToList(ranked[k])
  {
    csv := [];
    var k := 0;
    while k < |ranked|
      invariant 0 <= k <= |ranked|
      invariant |csv| == k && forall j :: 0 <= j < k ==> csv[j] == ToList(ranked[j])
    {
      csv := csv + [ToList(ranked[k])];
      k := k + 1;
    }
  }
}
