/** The stub data tool `data_fetch` (tools/data_fetch.py). */
module DataFetchTool {
  import opened Wrappers
  import opened Json

  const DefaultSymbols: seq<string> := ["AAPL", "MSFT"]
  const DefaultRangeDays: int := 5
  /** Bars per trading day the stub assumes (one per minute of a 6.5-hour session). */
  const BarsPerDay: int := 390

  /**
    `symbols or ["AAPL", "MSFT"]`. The rule is the one of
    `BacktestRunTool.EffectiveSymbols` with this tool's own default: each
    source tool spells it out for itself.
  */
  function EffectiveSymbols(symbols: Option<seq<string>>): (r: seq<string>)
    ensures r != []
    ensures symbols.None? || symbols.value == [] ==> r == DefaultSymbols
    ensures symbols.Some? && symbols.value != [] ==> r == symbols.value
  {
    if symbols.None? || symbols.value == [] then DefaultSymbols else symbols.value
  }

  function DataFetch(symbols: Option<seq<string>>, rangeDays: int): (out: Json)
  {
    JObj(map[
      "symbols" := StrArray(EffectiveSymbols(symbols)),
      "range_days" := JInt(rangeDays),
      "rows" := JInt(BarsPerDay * rangeDays)])
  }

  /** Exactly three keys: the effective symbols, the echoed range and 390 rows per day. */
  lemma DataFetchShape(symbols: Option<seq<string>>, rangeDays: int)
    ensures var out := DataFetch(symbols, rangeDays);
      && out.JObj?
      && out.fields.Keys == {"symbols", "range_days", "rows"}
      && out.fields["symbols"] == StrArray(EffectiveSymbols(symbols))
      && out.fields["range_days"] == JInt(rangeDays)
      && out.fields["rows"] == JInt(390 * rangeDays)
  {
  }

  /** With the default range the stub reports 1950 rows. */
  lemma DefaultRows(symbols: Option<seq<string>>)
    ensures DataFetch(symbols, DefaultRangeDays).fields["rows"] == JInt(1950)
  {
  }
}
