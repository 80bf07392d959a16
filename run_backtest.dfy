/**
 * The backtest command line: the `--symbols` argument parsed into symbols,
 * and the cross-symbol summary that adds up each strategy's results over
 * every symbol it ran on.
 */
module BacktestCli {
  import opened Common
  import opened Text
  import opened Metrics

  // ---------------------------------------------------------------- the symbol list

  /** `[s.strip().upper() for s in arg.split(',')]`. */
  function ParseSymbols(arg: string): (r: seq<string>)
    ensures |r| == |Split(arg, ',')|
    ensures forall k :: 0 <= k < |r| ==> r[k] == Upper(Strip(Split(arg, ',')[k]))
  {
    var parts := Split(arg, ',');
    seq(|parts|, k requires 0 <= k < |parts| => Upper(Strip(parts[k])))
  }

  /**
   * Every parsed symbol is free of commas and of lower-case ASCII letters,
   * and neither starts nor ends with whitespace; there is one symbol per
   * comma-separated piece, so an argument without commas gives one symbol.
   */
  lemma ParsedSymbolsClean(arg: string)
    ensures ',' !in arg ==> |ParseSymbols(arg)| == 1
    ensures forall k :: 0 <= k < |ParseSymbols(arg)| ==>
      var s := ParseSymbols(arg)[k];
      && ',' !in s
      && (forall j :: 0 <= j < |s| ==> !('a' <= s[j] <= 'z'))
      && (|s| > 0 ==> !IsSpace(s[0]) && !IsSpace(s[|s| - 1]))
  {
    var parts := Split(arg, ',');
    if ',' !in arg {
      SplitWithoutSeparator(arg, ',');
    }
    SplitPiecesFree(arg, ',');
    forall k | 0 <= k < |parts|
      ensures var s := Upper(Strip(parts[k]));
        ',' !in s && (|s| > 0 ==> !IsSpace(s[0]) && !IsSpace(s[|s| - 1]))
    {
      CleanSymbol(parts[k]);
    }
  }

  /** One piece, stripped and upper-cased, keeps no comma and no surrounding whitespace. */
  lemma CleanSymbol(piece: string)
    requires ',' !in piece
    ensures var s := Upper(Strip(piece));
      ',' !in s && (|s| > 0 ==> !IsSpace(s[0]) && !IsSpace(s[|s| - 1]))
  {
    var stripped := Strip(piece);
    var s := Upper(stripped);
    StripIsTrimmedInfix(piece);
    var i := |piece| - |TrimLeft(piece)|;
    forall c | 0 <= c < |s| ensures s[c] != ',' {
      assert stripped[c] == piece[i + c];
      assert s[c] == UpperChar(stripped[c]);
    }
    if |s| > 0 {
      UpperKeepsSpace(stripped, 0);
      UpperKeepsSpace(stripped, |s| - 1);
    }
  }

  /** A string without the separator splits into itself alone. */
  lemma {:induction false} SplitWithoutSeparator(s: string, sep: char)
    requires sep !in s
    ensures Split(s, sep) == [s]
  {
    if |s| > 0 {
      SplitWithoutSeparator(s[1..], sep);
      assert s == [s[0]] + s[1..];
    }
  }

  /** Upper-casing never turns a non-space into a space. */
  lemma UpperKeepsSpace(s: string, k: nat)
    requires k < |s| && !IsSpace(s[k])
    ensures !IsSpace(Upper(s)[k])
  {
    if 'a' <= s[k] <= 'z' {
      assert Upper(s)[k] == UpperChar(s[k]);
    }
  }

  // ---------------------------------------------------------------- the cross-symbol summary

  /** One strategy's entry of `strategy_summary`. */
  datatype Summary = Summary(totalTrades: nat, winningTrades: nat, totalReturn: real, symbols: seq<string>)

  /** One loop iteration: the result's counts and return are added to its strategy's entry, created empty on first use. */
  function Add(m: map<string, Summary>, r: BacktestResult): map<string, Summary>
  {
    var cur := if r.strategyName in m then m[r.strategyName] else Summary(0, 0, 0.0, []);
    m[r.strategyName := Summary(cur.totalTrades + r.totalTrades, cur.winningTrades + r.winningTrades,
                                cur.totalReturn + r.totalReturn, cur.symbols + [r.symbol])]
  }

  /** `strategy_summary` after the loop over `results`. */
  function SummaryOf(results: seq<BacktestResult>): map<string, Summary>
  {
    if results == [] then map[]
    else Add(SummaryOf(results[..|results| - 1]), results[|results| - 1])
  }

  /** The results of one strategy, in order. */
  function ResultsOf(results: seq<BacktestResult>, name: string): (r: seq<BacktestResult>)
    ensures |r| <= |results|
    ensures forall k :: 0 <= k < |r| ==> r[k].strategyName == name
  {
    if results == [] then []
    else
      var rest := ResultsOf(results[..|results| - 1], name);
      var last := results[|results| - 1];
      if last.strategyName == name then rest + [last] else rest
  }

  function TotalTrades(rs: seq<BacktestResult>): nat
  {
    if rs == [] then 0 else TotalTrades(rs[..|rs| - 1]) + rs[|rs| - 1].totalTrades
  }

  function WinningTrades(rs: seq<BacktestResult>): nat
  {
    if rs == [] then 0 else WinningTrades(rs[..|rs| - 1]) + rs[|rs| - 1].winningTrades
  }

  function TotalReturn(rs: seq<BacktestResult>): real
  {
    if rs == [] then 0.0 else TotalReturn(rs[..|rs| - 1]) + rs[|rs| - 1].totalReturn
  }

  function SymbolsOf(rs: seq<BacktestResult>): (r: seq<string>)
    ensures |r| == |rs|
    ensures forall k :: 0 <= k < |rs| ==> r[k] == rs[k].symbol
  {
    if rs == [] then [] else SymbolsOf(rs[..|rs| - 1]) + [rs[|rs| - 1].symbol]
  }

  /**
   * A strategy has an entry exactly when some result belongs to it, and the
   * entry holds the sums of its results' trades, wins and returns, and their
   * symbols in result order.
   */
  lemma {:induction false} SummaryClosedForm(results: seq<BacktestResult>, name: string)
    ensures name in SummaryOf(results) <==> ResultsOf(results, name) != []
    ensures name in SummaryOf(results) ==>
      var rs := ResultsOf(results, name);
      SummaryOf(results)[name] == Summary(TotalTrades(rs), WinningTrades(rs), TotalReturn(rs), SymbolsOf(rs))
  {
    if results != [] {
      var init := results[..|results| - 1];
      var last := results[|results| - 1];
      SummaryClosedForm(init, name);
      var rs := ResultsOf(init, name);
      if last.strategyName == name {
        var rs' := rs + [last];
        assert rs'[..|rs'| - 1] == rs;
      }
    }
  }

  /** The combined win rate of an entry; 0 without trades. */
  function CombinedWinRate(s: Summary): (r: real)
    ensures s.totalTrades == 0 ==> r == 0.0
    ensures s.totalTrades > 0 ==> r * s.totalTrades as real == s.winningTrades as real
    ensures s.winningTrades <= s.totalTrades ==> 0.0 <= r <= 1.0
  {
    if s.totalTrades > 0 then s.winningTrades as real / s.totalTrades as real else 0.0
  }

  /** The average return per symbol of an entry; 0 without symbols. */
  function AvgReturn(s: Summary): (r: real)
    ensures s.symbols == [] ==> r == 0.0
    ensures s.symbols != [] ==> r * |s.symbols| as real == s.totalReturn
  {
    if s.symbols != [] then s.totalReturn / |s.symbols| as real else 0.0
  }

  /**
   * Every strategy in the summary has one symbol per result of its own, so
   * its average return (see `AvgReturn`) is its summed return over its
   * number of results.
   */
  lemma SummaryAverage(results: seq<BacktestResult>, name: string)
    requires name in SummaryOf(results)
    ensures var s := SummaryOf(results)[name];
      |s.symbols| == |ResultsOf(results, name)| > 0 && s.totalReturn == TotalReturn(ResultsOf(results, name))
  {
    SummaryClosedForm(results, name);
  }

  /** When no result has more wins than trades, every combined win rate lies in [0, 1]. */
  lemma SummaryWinRate(results: seq<BacktestResult>, name: string)
    requires name in SummaryOf(results)
    requires forall k :: 0 <= k < |results| ==> results[k].winningTrades <= results[k].totalTrades
    ensures 0.0 <= CombinedWinRate(SummaryOf(results)[name]) <= 1.0
  {
    SummaryClosedForm(results, name);
    WinsWithinTrades(results, name);
  }

  /** A strategy's summed wins never exceed its summed trades when that holds for each result. */
  lemma {:induction false} WinsWithinTrades(results: seq<BacktestResult>, name: string)
    requires forall k :: 0 <= k < |results| ==> results[k].winningTrades <= results[k].totalTrades
    ensures WinningTrades(ResultsOf(results, name)) <= TotalTrades(ResultsOf(results, name))
  {
    if results != [] {
      var init := results[..|results| - 1];
      WinsWithinTrades(init, name);
      var rs := ResultsOf(init, name);
      var last := results[|results| - 1];
      if last.strategyName == name {
        var rs' := rs + [last];
        assert rs'[..|rs'| - 1] == rs;
      }
    }
  }

  /** The aggregation loop of `main` over `all_results`. */
  method Aggregate(results: seq<BacktestResult>) returns (summary: map<string, Summary>)
    ensures summary == SummaryOf(results)
  {
    summary := map[];
    var k := 0;
    while k < |results|
      invariant 0 <= k <= |results|
      invariant summary == SummaryOf(results[..k])
    {
      var result := results[k];
      var name := result.strategyName;
      if name !in summary {
        summary := summary[name := Summary(0, 0, 0.0, [])];
      }
      var entry := summary[name];
      summary := summary[name := entry.(totalTrades := entry.totalTrades + result.totalTrades,
                                        winningTrades := entry.winningTrades + result.winningTrades,
                                        totalReturn := entry.totalReturn + result.totalReturn,
                                        symbols := entry.symbols + [result.symbol])];
      assert results[..k + 1][..k] == results[..k];
      k := k + 1;
    }
    assert results[..k] == results;
  }

  /** The cross-symbol summary is produced only for more than one symbol and at least one result. */
  method CrossSymbolSummary(symbols: seq<string>, results: seq<BacktestResult>) returns (r: Option<map<string, Summary>>)
    ensures r.Some? <==> |symbols| > 1 && results != []
    ensures r.Some? ==> r.value == SummaryOf(results)
  {
    if |symbols| > 1 && results != [] {
      var summary := Aggregate(results);
      r := Some(summary);
    } else {
      r := None;
    }
  }

  // ---------------------------------------------------------------- how `main` ends

  /** How a run of `main` ends: with its cross-symbol summary, if any, or with a `NameError` at a line. */
  datatype Exit = Finished(summary: Option<map<string, Summary>>) | NameError(line: nat)

  /**
   * `main` as written. The chart branch (taken unless `--no-chart`) and the
   * trade export (taken with `--save-trades`) both call `os.path`, and the
   * module never imports `os`, so the first symbol that gets that far ends the
   * run. `reachedTail` says whether any symbol did; every result comes from one.
   */
  function MainAsWritten(symbols: seq<string>, results: seq<BacktestResult>, reachedTail: bool,
                         noChart: bool, saveTrades: bool): (r: Exit)
    requires results != [] ==> reachedTail
    ensures r.NameError? <==> reachedTail && (!noChart || saveTrades)
    ensures r.Finished? && r.summary.Some? ==> noChart && !saveTrades && |symbols| > 1
  {
    if reachedTail && !noChart then NameError(418)
    else if reachedTail && saveTrades then NameError(426)
    else Finished(if |symbols| > 1 && results != [] then Some(SummaryOf(results)) else None)
  }

  /**
   * With the default flags, or with `--save-trades`, `main` never reaches the
   * summary once a symbol produced results, although `CrossSymbolSummary`
   * would produce one; only `--no-chart` alone gets there.
   */
  lemma SummaryOnlyWithoutChartOrExport(symbols: seq<string>, results: seq<BacktestResult>)
    requires |symbols| > 1 && results != []
    ensures MainAsWritten(symbols, results, true, false, false) == NameError(418)
    ensures MainAsWritten(symbols, results, true, false, true) == NameError(418)
    ensures MainAsWritten(symbols, results, true, true, true) == NameError(426)
    ensures MainAsWritten(symbols, results, true, true, false) == Finished(Some(SummaryOf(results)))
  {
  }
}
