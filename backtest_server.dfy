/**
  The helpers of the backtest HTTP service (chat/backtest_server.py): the scan
  of the backtest script's standard output for its `CSV_PATH::` line, the
  choice of the column to plot, the `tail_logs` line count, the command
  assembly of `run_task`, and the checks `run_and_plot` makes before plotting.

  Running processes, reading CSV files and configuration, resolving paths and
  drawing charts happen outside this model: their results (standard output,
  the CSV's columns with their dtypes, resolved paths as component sequences,
  whether a path is a regular file) are parameters.
*/
module BacktestServer {
  import opened Wrappers
  import opened PyStr
  import opened Json
  import opened Paths

  // ---------------------------------------------------------------------
  // The CSV_PATH:: marker
  // ---------------------------------------------------------------------

  /** The marker the backtest script prints in front of the CSV it saved. */
  const Marker := "CSV_PATH::"

  /** `line.strip().startswith("CSV_PATH::")`. */
  predicate IsMarkerLine(line: string) {
    StartsWith(Strip(line), Marker)
  }

  /** A marker at the start of the stripped line occurs in the line itself. */
  lemma MarkerOccurs(line: string)
    requires IsMarkerLine(line)
    ensures Contains(line, Marker)
  {
    LStripSpec(line);
    var l := LStrip(line);
    RStripSpec(l);
    var r := RStrip(l);
    var a := |line| - |l|;
    assert line[a..a + |Marker|] == r[..|Marker|];
    assert OccursAt(line, Marker, a);
  }

  /** `line.split("CSV_PATH::", 1)[1].strip()`: the stripped text after the first marker of the line. */
  function MarkerValue(line: string): (v: string)
    requires IsMarkerLine(line)
    ensures v == [] || (!IsSpace(v[0]) && !IsSpace(v[|v| - 1]))
  {
    MarkerOccurs(line);
    var after := AfterFirst(line, Marker);
    StripBounds(after);
    Strip(after)
  }

  /** The value of the first marker line, if there is one (the loop at lines 137-140 stops there). */
  function CsvPathOf(lines: seq<string>): (r: Option<string>)
    ensures r.None? <==> forall j :: 0 <= j < |lines| ==> !IsMarkerLine(lines[j])
  {
    if lines == [] then None
    else if IsMarkerLine(lines[0]) then Some(MarkerValue(lines[0]))
    else
      assert forall j :: 1 <= j < |lines| ==> lines[j] == lines[1..][j - 1];
      CsvPathOf(lines[1..])
  }

  /** The first marker line decides the path. */
  lemma {:induction false} CsvPathFirst(lines: seq<string>, i: nat)
    requires i < |lines| && IsMarkerLine(lines[i])
    requires forall j :: 0 <= j < i ==> !IsMarkerLine(lines[j])
    ensures CsvPathOf(lines) == Some(MarkerValue(lines[i]))
  {
    if i > 0 {
      var rest := lines[1..];
      assert rest[i - 1] == lines[i];
      forall j | 0 <= j < i - 1
        ensures !IsMarkerLine(rest[j])
      {
        assert rest[j] == lines[j + 1];
      }
      CsvPathFirst(rest, i - 1);
    }
  }

  /** Output printed after a marker line does not change the path. */
  lemma {:induction false} CsvPathIgnoresLater(lines: seq<string>, more: seq<string>)
    requires CsvPathOf(lines).Some?
    ensures CsvPathOf(lines + more) == CsvPathOf(lines)
  {
    assert (lines + more)[0] == lines[0];
    if !IsMarkerLine(lines[0]) {
      assert (lines + more)[1..] == lines[1..] + more;
      CsvPathIgnoresLater(lines[1..], more);
    }
  }

  /** The scan of `run_backtest`: the loop over `stdout.splitlines()` with its `break`. */
  method ScanCsvPath(stdout: string) returns (csv: Option<string>)
    ensures csv == CsvPathOf(SplitLines(stdout))
  {
    var lines := SplitLines(stdout);
    csv := None;
    var i := 0;
    while i < |lines|
      invariant 0 <= i <= |lines|
      invariant CsvPathOf(lines) == CsvPathOf(lines[i..])
    {
      assert lines[i..][0] == lines[i];
      if IsMarkerLine(lines[i]) {
        csv := Some(MarkerValue(lines[i]));
        break;
      }
      assert lines[i..][1..] == lines[i + 1..];
      i := i + 1;
    }
  }

  lemma NoBreakCat(a: string, b: string)
    requires NoLineBreak(a) && NoLineBreak(b)
    ensures NoLineBreak(a + b)
  {
    forall j | 0 <= j < |a + b|
      ensures !IsLineBreak((a + b)[j])
    {
      if j >= |a| {
        assert (a + b)[j] == b[j - |a|];
      }
    }
  }

  /** A line whose first character is neither whitespace nor `C` is no marker line. */
  lemma NotMarkerByHead(line: string)
    requires line != [] && !IsSpace(line[0]) && line[0] != 'C'
    ensures !IsMarkerLine(line)
  {
    RStripSpec(line);
  }

  /** The marker line the script prints carries back the path it printed. */
  lemma MarkerLineValue(path: string)
    requires path == [] || (!IsSpace(path[0]) && !IsSpace(path[|path| - 1]))
    ensures IsMarkerLine(Marker + path) && MarkerValue(Marker + path) == path
  {
    var line := Marker + path;
    assert line[0] == 'C' && line[|line| - 1] == if path == [] then ':' else path[|path| - 1];
    StripNoSurroundingSpace(line);
    assert StartsWith(line, Marker);
    AfterFirstAtStart(line, Marker);
    assert line[|Marker|..] == path;
    StripNoSurroundingSpace(path);
  }

  /**
    Printed output in which a marker line for `path` follows lines that carry
    no marker parses back to `path`, whatever follows it.
  */
  lemma CsvPathRoundTrip(before: seq<string>, path: string, after: seq<string>)
    requires forall k :: 0 <= k < |before| ==> NoLineBreak(before[k]) && !IsMarkerLine(before[k])
    requires forall k :: 0 <= k < |after| ==> NoLineBreak(after[k])
    requires NoLineBreak(path) && (path == [] || (!IsSpace(path[0]) && !IsSpace(path[|path| - 1])))
    ensures CsvPathOf(SplitLines(Printed(before + [Marker + path] + after))) == Some(path)
  {
    NoBreakCat(Marker, path);
    MarkerLineValue(path);
    FirstMarkerAt(before, Marker + path, after);
  }

  /** Lines without breaks whose first marker line is `line` parse back to that line's value. */
  lemma FirstMarkerAt(before: seq<string>, line: string, after: seq<string>)
    requires forall k :: 0 <= k < |before| ==> NoLineBreak(before[k]) && !IsMarkerLine(before[k])
    requires forall k :: 0 <= k < |after| ==> NoLineBreak(after[k])
    requires NoLineBreak(line) && IsMarkerLine(line)
    ensures CsvPathOf(SplitLines(Printed(before + [line] + after))) == Some(MarkerValue(line))
  {
    var lines := before + [line] + after;
    LinesOneLine(before, line, after);
    SplitLinesPrinted(lines);
    BeforeCarriesNoMarker(before, line, after);
    CsvPathFirst(lines, |before|);
  }

  lemma LinesOneLine(before: seq<string>, line: string, after: seq<string>)
    requires forall k :: 0 <= k < |before| ==> NoLineBreak(before[k])
    requires forall k :: 0 <= k < |after| ==> NoLineBreak(after[k])
    requires NoLineBreak(line)
    ensures forall k :: 0 <= k < |before + [line] + after| ==> NoLineBreak((before + [line] + after)[k])
  {
    var lines := before + [line] + after;
    forall k | 0 <= k < |lines|
      ensures NoLineBreak(lines[k])
    {
      if k < |before| {
        assert lines[k] == before[k];
      } else if k > |before| {
        assert lines[k] == after[k - |before| - 1];
      }
    }
  }

  lemma BeforeCarriesNoMarker(before: seq<string>, line: string, after: seq<string>)
    requires forall k :: 0 <= k < |before| ==> !IsMarkerLine(before[k])
    ensures (before + [line] + after)[|before|] == line
    ensures forall k :: 0 <= k < |before| ==> !IsMarkerLine((before + [line] + after)[k])
  {
    var lines := before + [line] + after;
    forall k | 0 <= k < |before|
      ensures !IsMarkerLine(lines[k])
    {
      assert lines[k] == before[k];
    }
  }

  /** The formatted statistics `run_backtest.py` prints on success. */
  datatype ScriptRun = ScriptRun(
    symbol: string, start: string, end: string,
    totalReturnPct: string, sharpe: string, maxDrawdownPct: string, trades: string)

  predicate ScriptFieldsOneLine(run: ScriptRun) {
    NoLineBreak(run.symbol) && NoLineBreak(run.start) && NoLineBreak(run.end)
    && NoLineBreak(run.totalReturnPct) && NoLineBreak(run.sharpe)
    && NoLineBreak(run.maxDrawdownPct) && NoLineBreak(run.trades)
  }

  /** The summary lines the script prints before its marker line. */
  function ScriptSummary(run: ScriptRun, outCsv: string): seq<string> {
    [ "Backtest complete for " + run.symbol + " " + run.start + "->" + run.end,
      "Total Return: " + run.totalReturnPct + "%",
      "Sharpe (daily->annualized): " + run.sharpe,
      "Max Drawdown: " + run.maxDrawdownPct + "%",
      "Trades: " + run.trades,
      "Saved equity/series CSV: " + outCsv ]
  }

  /** The standard output of a successful script run. */
  function ScriptOutput(run: ScriptRun, outCsv: string): string {
    Printed(ScriptSummary(run, outCsv) + [Marker + outCsv])
  }

  /** None of the summary lines holds a line break. */
  lemma SummaryOneLine(run: ScriptRun, outCsv: string)
    requires ScriptFieldsOneLine(run) && NoLineBreak(outCsv)
    ensures forall k :: 0 <= k < 6 ==> NoLineBreak(ScriptSummary(run, outCsv)[k])
  {
    FirstLineOneLine(run);
    StatLinesOneLine(run, outCsv);
  }

  lemma FirstLineOneLine(run: ScriptRun)
    requires ScriptFieldsOneLine(run)
    ensures NoLineBreak("Backtest complete for " + run.symbol + " " + run.start + "->" + run.end)
  {
    NoBreakCat("Backtest complete for ", run.symbol);
    NoBreakCat("Backtest complete for " + run.symbol, " ");
    NoBreakCat("Backtest complete for " + run.symbol + " ", run.start);
    NoBreakCat("Backtest complete for " + run.symbol + " " + run.start, "->");
    NoBreakCat("Backtest complete for " + run.symbol + " " + run.start + "->", run.end);
  }

  lemma StatLinesOneLine(run: ScriptRun, outCsv: string)
    requires ScriptFieldsOneLine(run) && NoLineBreak(outCsv)
    ensures forall k :: 1 <= k < 6 ==> NoLineBreak(ScriptSummary(run, outCsv)[k])
  {
    ReturnLinesOneLine(run);
    NoBreakCat("Trades: ", run.trades);
    NoBreakCat("Saved equity/series CSV: ", outCsv);
  }

  lemma ReturnLinesOneLine(run: ScriptRun)
    requires ScriptFieldsOneLine(run)
    ensures NoLineBreak("Total Return: " + run.totalReturnPct + "%")
    ensures NoLineBreak("Sharpe (daily->annualized): " + run.sharpe)
    ensures NoLineBreak("Max Drawdown: " + run.maxDrawdownPct + "%")
  {
    NoBreakCat("Total Return: ", run.totalReturnPct);
    NoBreakCat("Total Return: " + run.totalReturnPct, "%");
    NoBreakCat("Sharpe (daily->annualized): ", run.sharpe);
    NoBreakCat("Max Drawdown: ", run.maxDrawdownPct);
    NoBreakCat("Max Drawdown: " + run.maxDrawdownPct, "%");
  }

  /** Every summary line begins with a letter other than `C`, so none carries the marker. */
  lemma SummaryNoMarker(run: ScriptRun, outCsv: string)
    ensures forall k :: 0 <= k < 6 ==> !IsMarkerLine(ScriptSummary(run, outCsv)[k])
  {
    var s := ScriptSummary(run, outCsv);
    assert s[0][0] == 'B' && s[1][0] == 'T' && s[2][0] == 'S' && s[3][0] == 'M' && s[4][0] == 'T' && s[5][0] == 'S';
    NotMarkerByHead(s[0]);
    NotMarkerByHead(s[1]);
    NotMarkerByHead(s[2]);
    NotMarkerByHead(s[3]);
    NotMarkerByHead(s[4]);
    NotMarkerByHead(s[5]);
  }

  /**
    The round trip with `run_backtest.py`: the server's scan of the script's
    output recovers the CSV path the script printed, given a path without
    surrounding whitespace and single-line fields.
  */
  lemma ScriptOutputRoundTrip(run: ScriptRun, outCsv: string)
    requires ScriptFieldsOneLine(run) && NoLineBreak(outCsv)
    requires outCsv == [] || (!IsSpace(outCsv[0]) && !IsSpace(outCsv[|outCsv| - 1]))
    ensures CsvPathOf(SplitLines(ScriptOutput(run, outCsv))) == Some(outCsv)
  {
    SummaryOneLine(run, outCsv);
    SummaryNoMarker(run, outCsv);
    CsvPathRoundTrip(ScriptSummary(run, outCsv), outCsv, []);
    assert ScriptSummary(run, outCsv) + [Marker + outCsv] + [] == ScriptSummary(run, outCsv) + [Marker + outCsv];
  }

  // ---------------------------------------------------------------------
  // Choosing the column to plot
  // ---------------------------------------------------------------------

  /** A CSV column: its header and whether pandas gave it a numeric dtype. */
  datatype Column = Column(name: string, numeric: bool)

  /** `{c.lower(): c for c in df.columns}`: a later column overwrites an earlier one with the same lower-cased name. */
  function LowerMap(cols: seq<Column>): (m: map<string, string>)
    ensures forall i :: 0 <= i < |cols| ==> Lower(cols[i].name) in m
    ensures forall k :: k in m ==> Lower(m[k]) == k
    ensures forall k :: k in m ==> exists i :: 0 <= i < |cols| && cols[i].name == m[k]
  {
    if cols == [] then map[]
    else
      var init := cols[..|cols| - 1];
      var c := cols[|cols| - 1];
      assert forall i :: 0 <= i < |init| ==> init[i] == cols[i];
      LowerMap(init)[Lower(c.name) := c.name]
  }

  /** Among columns with the same lower-cased name, the last one is the one mapped. */
  lemma {:induction false} LowerMapLast(cols: seq<Column>, i: nat)
    requires i < |cols|
    requires forall j :: i < j < |cols| ==> Lower(cols[j].name) != Lower(cols[i].name)
    ensures LowerMap(cols)[Lower(cols[i].name)] == cols[i].name
  {
    if i < |cols| - 1 {
      var init := cols[..|cols| - 1];
      assert init[i] == cols[i];
      forall j | i < j < |init|
        ensures Lower(init[j].name) != Lower(init[i].name)
      {
        assert init[j] == cols[j];
      }
      LowerMapLast(init, i);
    }
  }

  /** A key no column lower-cases to is absent. */
  lemma LowerMapAbsent(cols: seq<Column>, k: string)
    requires forall i :: 0 <= i < |cols| ==> Lower(cols[i].name) != k
    ensures k !in LowerMap(cols)
  {
  }

  /** The position in `keys` of the first key present in `m`: `[m[k] for k in keys if k in m][0]`. */
  function FirstKey(keys: seq<string>, m: map<string, string>): (r: Option<nat>)
    ensures r.Some? ==> r.value < |keys| && keys[r.value] in m && forall j :: 0 <= j < r.value ==> keys[j] !in m
    ensures r.None? ==> forall j :: 0 <= j < |keys| ==> keys[j] !in m
  {
    if keys == [] then None
    else if keys[0] in m then Some(0)
    else
      match FirstKey(keys[1..], m)
      case None => None
      case Some(k) => Some(k + 1)
  }

  /** The position of the first numeric column: `num_cols[0]`, or `next(...)` of the numeric columns. */
  function FirstNumeric(cols: seq<Column>): (r: Option<nat>)
    ensures r.Some? ==> r.value < |cols| && cols[r.value].numeric && forall j :: 0 <= j < r.value ==> !cols[j].numeric
    ensures r.None? ==> forall j :: 0 <= j < |cols| ==> !cols[j].numeric
  {
    if cols == [] then None
    else if cols[0].numeric then Some(0)
    else
      match FirstNumeric(cols[1..])
      case None => None
      case Some(k) => Some(k + 1)
  }

  const EquityNames: seq<string> := ["equity", "equity_curve", "cumret", "cum_return"]
  const PriceNames: seq<string> := ["adj close", "adj_close", "close", "price"]

  /** The y column of `plot_equity` and `_plot_png_bytes`: equity names, then price names, then the first numeric column. */
  function PlotColumn(cols: seq<Column>): Result<string, HttpError> {
    var m := LowerMap(cols);
    match FirstKey(EquityNames, m)
    case Some(e) => Success(m[EquityNames[e]])
    case None =>
      match FirstKey(PriceNames, m)
      case Some(p) => Success(m[PriceNames[p]])
      case None =>
        match FirstNumeric(cols)
        case Some(n) => Success(cols[n].name)
        case None => Failure(HttpError(400, "No numeric columns to plot"))
  }

  /** Some column's lower-cased name is `k`. */
  predicate HasLowerName(cols: seq<Column>, k: string) {
    exists i :: 0 <= i < |cols| && Lower(cols[i].name) == k
  }

  /** The chosen column is one of the CSV's columns. */
  lemma PlotColumnIsColumn(cols: seq<Column>)
    ensures PlotColumn(cols).Success? ==> exists i :: 0 <= i < |cols| && cols[i].name == PlotColumn(cols).value
  {
  }

  /** The plot is refused exactly when no column has a preferred name and none is numeric. */
  lemma PlotColumnFails(cols: seq<Column>)
    ensures PlotColumn(cols).Failure? <==>
      forall i :: 0 <= i < |cols| ==> Lower(cols[i].name) !in EquityNames && Lower(cols[i].name) !in PriceNames && !cols[i].numeric
  {
    var m := LowerMap(cols);
    if PlotColumn(cols).Failure? {
      forall i | 0 <= i < |cols|
        ensures Lower(cols[i].name) !in EquityNames && Lower(cols[i].name) !in PriceNames && !cols[i].numeric
      {
        assert Lower(cols[i].name) in m;
      }
    }
  }

  /**
    The first equity name (in preference order) that some column lower-cases
    to wins, and of the columns with that name the last one is taken.
  */
  lemma PlotColumnEquity(cols: seq<Column>, e: nat, i: nat)
    requires e < |EquityNames| && i < |cols| && Lower(cols[i].name) == EquityNames[e]
    requires forall j :: i < j < |cols| ==> Lower(cols[j].name) != EquityNames[e]
    requires forall f :: 0 <= f < e ==> !HasLowerName(cols, EquityNames[f])
    ensures PlotColumn(cols) == Success(cols[i].name)
  {
    var m := LowerMap(cols);
    LowerMapLast(cols, i);
    forall f | 0 <= f < e
      ensures EquityNames[f] !in m
    {
    }
    assert FirstKey(EquityNames, m) == Some(e);
  }

  /** With no equity column, the first present price name wins, again the last column of that name. */
  lemma PlotColumnPrice(cols: seq<Column>, p: nat, i: nat)
    requires forall f :: 0 <= f < |EquityNames| ==> !HasLowerName(cols, EquityNames[f])
    requires p < |PriceNames| && i < |cols| && Lower(cols[i].name) == PriceNames[p]
    requires forall j :: i < j < |cols| ==> Lower(cols[j].name) != PriceNames[p]
    requires forall f :: 0 <= f < p ==> !HasLowerName(cols, PriceNames[f])
    ensures PlotColumn(cols) == Success(cols[i].name)
  {
    var m := LowerMap(cols);
    LowerMapLast(cols, i);
    forall f | 0 <= f < |EquityNames|
      ensures EquityNames[f] !in m
    {
    }
    forall f | 0 <= f < p
      ensures PriceNames[f] !in m
    {
    }
    assert FirstKey(EquityNames, m) == None;
    assert FirstKey(PriceNames, m) == Some(p);
  }

  /** With no equity or price column, the first numeric column is plotted. */
  lemma PlotColumnNumeric(cols: seq<Column>, i: nat)
    requires forall j :: 0 <= j < |cols| ==> Lower(cols[j].name) !in EquityNames && Lower(cols[j].name) !in PriceNames
    requires i < |cols| && cols[i].numeric && forall j :: 0 <= j < i ==> !cols[j].numeric
    ensures PlotColumn(cols) == Success(cols[i].name)
  {
    var m := LowerMap(cols);
    forall k | k in m
      ensures k !in EquityNames && k !in PriceNames
    {
      var j :| 0 <= j < |cols| && cols[j].name == m[k];
      assert Lower(cols[j].name) == k;
    }
    assert FirstKey(EquityNames, m) == None;
    assert FirstKey(PriceNames, m) == None;
  }

  /**
    The y column of `run_and_plot_save`: `lower.get("equity") or
    lower.get("equity_curve") or` the first numeric column, refused when the
    pick is falsy.
  */
  function SaveColumn(cols: seq<Column>): Result<string, HttpError> {
    var m := LowerMap(cols);
    var pick :=
      if "equity" in m && m["equity"] != [] then m["equity"]
      else if "equity_curve" in m && m["equity_curve"] != [] then m["equity_curve"]
      else match FirstNumeric(cols) case Some(n) => cols[n].name case None => [];
    if pick == [] then Failure(HttpError(400, "No numeric column to plot")) else Success(pick)
  }

  /** An `equity` column wins in the narrower rule too, the last one of that name. */
  lemma SaveColumnEquity(cols: seq<Column>, i: nat)
    requires i < |cols| && Lower(cols[i].name) == "equity"
    requires forall j :: i < j < |cols| ==> Lower(cols[j].name) != "equity"
    ensures SaveColumn(cols) == Success(cols[i].name)
  {
    LowerMapLast(cols, i);
    assert |cols[i].name| == |"equity"|;
  }

  /**
    Without an `equity` or `equity_curve` column the narrower rule takes the
    first numeric column, whatever price or `cumret` columns exist; it refuses
    when there is none or when that column's header is empty.
  */
  lemma SaveColumnNumeric(cols: seq<Column>)
    requires !HasLowerName(cols, "equity") && !HasLowerName(cols, "equity_curve")
    ensures FirstNumeric(cols).Some? && cols[FirstNumeric(cols).value].name != []
      ==> SaveColumn(cols) == Success(cols[FirstNumeric(cols).value].name)
    ensures (FirstNumeric(cols).None? || cols[FirstNumeric(cols).value].name == [])
      ==> SaveColumn(cols) == Failure(HttpError(400, "No numeric column to plot"))
  {
    var m := LowerMap(cols);
  }

  /** A name without upper-case letters is its own lower case. */
  lemma LowerFixed(s: string)
    requires forall i :: 0 <= i < |s| ==> !('A' <= s[i] <= 'Z')
    ensures Lower(s) == s
  {
  }

  /** The two rules differ: a numeric `close` column after another numeric column is plotted by one rule and not the other. */
  lemma PlotAndSaveDiffer()
    ensures PlotColumn([Column("x", true), Column("close", true)]) == Success("close")
    ensures SaveColumn([Column("x", true), Column("close", true)]) == Success("x")
  {
    var cols := [Column("x", true), Column("close", true)];
    LowerFixed("x");
    LowerFixed("close");
    PlotColumnPrice(cols, 2, 1);
    SaveColumnNumeric(cols);
  }

  // ---------------------------------------------------------------------
  // tail_logs
  // ---------------------------------------------------------------------

  /** `n = max(1, min(int(req.tail or 200), 5000))`. */
  function TailCount(tail: Option<int>): (n: int)
    ensures 1 <= n <= 5000
    ensures tail.None? || tail.value == 0 ==> n == 200
    ensures tail.Some? && 1 <= tail.value <= 5000 ==> n == tail.value
    ensures tail.Some? && tail.value > 5000 ==> n == 5000
    ensures tail.Some? && tail.value < 0 ==> n == 1
  {
    var t := if tail.None? || tail.value == 0 then 200 else tail.value;
    var capped := if t < 5000 then t else 5000;
    if capped < 1 then 1 else capped
  }

  /** `lines[-n:]` for a positive `n`: the last `n` lines, or all of them. */
  function LastLines(lines: seq<string>, n: int): (r: seq<string>)
    requires n >= 1
    ensures |r| == if n <= |lines| then n else |lines|
    ensures r == lines[|lines| - |r|..]
  {
    if n >= |lines| then lines else lines[|lines| - n..]
  }

  /** The `stdout` of `tail_logs`: the last lines of the newest log file, joined by newlines. */
  function TailLog(text: string, tail: Option<int>): string {
    Join(LastLines(SplitLines(text), TailCount(tail)), "\n")
  }

  lemma {:induction false} JoinPrinted(parts: seq<string>)
    requires parts != []
    ensures Join(parts, "\n") + "\n" == Printed(parts)
  {
    if |parts| > 1 {
      JoinPrinted(parts[1..]);
    }
  }

  /** The tail reads back, line for line, as the last `TailCount(tail)` lines of the log. */
  lemma TailLogReadsBack(text: string, tail: Option<int>)
    ensures var ls := LastLines(SplitLines(text), TailCount(tail));
      ls != [] ==> SplitLines(TailLog(text, tail) + "\n") == ls
  {
    var lines := SplitLines(text);
    var ls := LastLines(lines, TailCount(tail));
    if ls != [] {
      JoinPrinted(ls);
      forall k | 0 <= k < |ls|
        ensures NoLineBreak(ls[k])
      {
        assert ls[k] == lines[|lines| - |ls| + k];
      }
      SplitLinesPrinted(ls);
    }
  }

  // ---------------------------------------------------------------------
  // run_task
  // ---------------------------------------------------------------------

  datatype TaskRequest = TaskRequest(name: string, args: Option<seq<string>>, tail: Option<int>)

  /** What `run_task` goes on to do: read the last `n` log lines, or run a command. */
  datatype TaskPlan = TailLogs(n: int) | RunCommand(cmd: seq<Json>, shell: bool)

  /** `list(s)` of a string: its characters. */
  function Chars(s: string): (r: seq<Json>)
    ensures |r| == |s| && forall i :: 0 <= i < |s| ==> r[i] == JStr([s[i]])
  {
    seq(|s|, i requires 0 <= i < |s| => JStr([s[i]]))
  }

  /** The request's arguments as list items. */
  function Strs(args: seq<string>): (r: seq<Json>)
    ensures |r| == |args| && forall i :: 0 <= i < |args| ==> r[i] == JStr(args[i])
  {
    seq(|args|, i requires 0 <= i < |args| => JStr(args[i]))
  }

  /** `list(spec.get("cmd", []))`; `None` where `spec.get` or `list()` raises. */
  function SpecCommand(spec: Json): (r: Option<seq<Json>>)
    ensures r.Some? ==> spec.JObj?
    ensures spec.JObj? && "cmd" !in spec.fields ==> r == Some([])
  {
    if !spec.JObj? then None
    else
      match GetOr(spec.fields, "cmd", JArr([]))
      case JArr(items) => Some(items)
      case JStr(s) => Some(Chars(s))
      case _ => None
  }

  /** `cmd.extend(req.args)` when the request has arguments. */
  method ExtendCommand(base: seq<Json>, args: Option<seq<string>>) returns (cmd: seq<Json>)
    ensures args.None? ==> cmd == base
    ensures args.Some? ==> |cmd| == |base| + |args.value| && cmd[..|base|] == base
    ensures args.Some? ==> forall i :: 0 <= i < |args.value| ==> cmd[|base| + i] == JStr(args.value[i])
  {
    cmd := base;
    if args.Some? && args.value != [] {
      cmd := cmd + Strs(args.value);
    }
  }

  /**
    `run_task`: 404 when the task is missing or its spec is falsy; the special
    `tail_logs` task reads the log tail; any other task runs the spec's
    command followed by the request's arguments, with the spec's shell flag.
  */
  method RunTask(tasks: map<string, Json>, req: TaskRequest) returns (r: Result<TaskPlan, HttpError>)
    ensures !Truthy(Get(tasks, req.name)) ==> r == Failure(HttpError(404, "Task '" + req.name + "' not found"))
    ensures Truthy(Get(tasks, req.name)) && req.name == "tail_logs" ==> r == Success(TailLogs(TailCount(req.tail)))
    ensures Truthy(Get(tasks, req.name)) && req.name != "tail_logs" ==> (
      match SpecCommand(Get(tasks, req.name))
      case None => r.Failure? && r.error.code == 500
      case Some(base) =>
        var extra := if req.args.Some? then req.args.value else [];
        && r.Success? && r.value.RunCommand?
        && r.value.cmd == base + Strs(extra)
        && r.value.shell == Truthy(GetOr(Get(tasks, req.name).fields, "shell", JBool(false))))
  {
    var spec := Get(tasks, req.name);
    if !Truthy(spec) {
      return Failure(HttpError(404, "Task '" + req.name + "' not found"));
    }
    if req.name == "tail_logs" {
      return Success(TailLogs(TailCount(req.tail)));
    }
    var base := SpecCommand(spec);
    if base.None? {
      return Failure(HttpError(500, "Internal Server Error"));
    }
    var cmd := ExtendCommand(base.value, req.args);
    var extra := if req.args.Some? then req.args.value else [];
    assert cmd == base.value + Strs(extra);
    var shell := Truthy(GetOr(spec.fields, "shell", JBool(false)));
    return Success(RunCommand(cmd, shell));
  }

  // ---------------------------------------------------------------------
  // run_and_plot and plot_equity: the checks before plotting
  // ---------------------------------------------------------------------

  /** `result.get("exit_code", 1) != 0`; Python compares numbers by value, and `False == 0`. */
  predicate ExitFailed(result: map<string, Json>) {
    var e := GetOr(result, "exit_code", JInt(1));
    !(e == JInt(0) || e == JReal(0.0) || e == JBool(false))
  }

  /** The condition of the 500 response: a non-zero exit code or a falsy `csv_path`. */
  predicate BacktestFailed(result: map<string, Json>) {
    ExitFailed(result) || !Truthy(Get(result, "csv_path"))
  }

  /** `result.get('stderr') or 'no csv_path'`, for string values. */
  function FailureDetail(result: map<string, Json>): string {
    match Get(result, "stderr")
    case JStr(s) => if s != [] then s else "no csv_path"
    case _ => "no csv_path"
  }

  /** As written at line 249: `str(csv_path).startswith(str(logs_dir))`. */
  predicate UnderByPrefix(root: seq<string>, child: seq<string>) {
    StartsWith(PathText(child), PathText(root))
  }

  /** The string test accepts every path the component test accepts. */
  lemma UnderImpliesPrefix(root: seq<string>, child: seq<string>)
    requires IsUnder(root, child)
    ensures UnderByPrefix(root, child)
  {
    var rest := child[|root|..];
    assert child == root + rest;
    SlashedAppend(root, rest);
    if root == [] && child != [] {
      assert PathText(child)[0] == '/';
    }
  }

  /** A sibling directory whose name extends the logs directory's name passes the string test. */
  lemma PrefixAcceptsSibling()
    ensures UnderByPrefix(["d", "logs"], ["d", "logs2", "x.csv"])
    ensures !IsUnder(["d", "logs"], ["d", "logs2", "x.csv"])
  {
    assert PathText(["d", "logs"]) == "/d/logs";
    assert PathText(["d", "logs2", "x.csv"]) == "/d/logs2/x.csv";
    assert ["d", "logs2", "x.csv"][..2] == ["d", "logs2"];
    assert "logs2" != "logs";
  }

  /** `run_and_plot`'s checks as written: the backtest result, then the string-prefix location test. */
  function RunAndPlotAsWritten(result: map<string, Json>, isFile: bool, csv: seq<string>, logs: seq<string>): (r: Result<seq<string>, HttpError>)
    ensures BacktestFailed(result) ==> r.Failure? && r.error.code == 500
    ensures r.Success? <==> !BacktestFailed(result) && isFile && UnderByPrefix(logs, csv)
    ensures r.Success? ==> r.value == csv
    ensures r.Failure? && !BacktestFailed(result) ==> r.error == HttpError(400, "csv_path invalid or not under logs_dir")
  {
    if BacktestFailed(result) then Failure(HttpError(500, "Backtest failed: " + FailureDetail(result)))
    else if !isFile || !UnderByPrefix(logs, csv) then Failure(HttpError(400, "csv_path invalid or not under logs_dir"))
    else Success(csv)
  }

  /** The as-written checks let a CSV from a sibling directory of the logs directory through. */
  lemma RunAndPlotEscapes()
    ensures var ok := map["exit_code" := JInt(0), "csv_path" := JStr("/d/logs2/x.csv")];
      && RunAndPlotAsWritten(ok, true, ["d", "logs2", "x.csv"], ["d", "logs"]).Success?
      && !IsUnder(["d", "logs"], ["d", "logs2", "x.csv"])
  {
    PrefixAcceptsSibling();
  }

  /** The location test of `plot_equity` (line 175): a regular file under the logs directory. */
  predicate CsvAcceptable(isFile: bool, csv: seq<string>, logs: seq<string>) {
    isFile && IsUnder(logs, csv)
  }

  /** `run_and_plot`'s checks with the component test `plot_equity` uses. */
  function RunAndPlotGate(result: map<string, Json>, isFile: bool, csv: seq<string>, logs: seq<string>): (r: Result<seq<string>, HttpError>)
    ensures r.Failure? && r.error.code == 500 <==> BacktestFailed(result)
    ensures r.Success? <==> !BacktestFailed(result) && CsvAcceptable(isFile, csv, logs)
    ensures r.Success? ==> r.value == csv
  {
    if BacktestFailed(result) then Failure(HttpError(500, "Backtest failed: " + FailureDetail(result)))
    else if !CsvAcceptable(isFile, csv, logs) then Failure(HttpError(400, "csv_path invalid or not under logs_dir"))
    else Success(csv)
  }

  /** Both versions answer 500 on a failed backtest, and they differ only by letting more paths through as written. */
  lemma GateRefinesAsWritten(result: map<string, Json>, isFile: bool, csv: seq<string>, logs: seq<string>)
    ensures BacktestFailed(result) ==> RunAndPlotAsWritten(result, isFile, csv, logs) == RunAndPlotGate(result, isFile, csv, logs)
    ensures RunAndPlotGate(result, isFile, csv, logs).Success? ==> RunAndPlotAsWritten(result, isFile, csv, logs) == RunAndPlotGate(result, isFile, csv, logs)
  {
    if IsUnder(logs, csv) {
      UnderImpliesPrefix(logs, csv);
    }
  }

  /** `run_and_plot_save`: 400 without a CSV path (the exit code is not looked at), then the narrower column rule. */
  function RunAndPlotSave(out: map<string, Json>, cols: seq<Column>): (r: Result<string, HttpError>)
    ensures !Truthy(Get(out, "csv_path")) ==> r == Failure(HttpError(400, "Backtest produced no CSV"))
    ensures r.Success? ==> exists i :: 0 <= i < |cols| && cols[i].name == r.value
  {
    if !Truthy(Get(out, "csv_path")) then Failure(HttpError(400, "Backtest produced no CSV"))
    else SaveColumn(cols)
  }
}
