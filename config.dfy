/** The live bot's settings (`TradingConfig`): defaults, and per-symbol overrides. */
module Config {
  import opened Common

  /** A per-symbol setting value: the source stores booleans and numbers. */
  datatype Setting = Flag(b: bool) | Number(x: real)

  /**
   * The dataclass fields the bot reads. `symbols` and `symbolSettings` are
   * `None` until `__post_init__` fills them; the indicator periods and API keys
   * are not modelled.
   */
  datatype TradingConfig = TradingConfig(
    testnet: bool,
    symbols: Option<seq<string>>,
    timeframe: string,
    leverage: int,
    riskPerTrade: real,
    maxPositions: int,
    longRsiOversold: real,
    longBbTouchMult: real,
    longVolumeMult: real,
    shortRsiOverbought: real,
    shortBbTouchMult: real,
    tpPct: real,
    slAtrMult: real,
    symbolSettings: Option<map<string, map<string, Setting>>>,
    checkInterval: int)

  /** The settings installed when none are supplied: BTCUSDT trades long only with a 0.3% take-profit. */
  const DefaultSymbolSettings: map<string, map<string, Setting>> :=
    map["BTCUSDT" := map["long_only" := Flag(true), "tp_pct" := Number(0.003)]]

  /** `__post_init__`: fills in only the fields left unset. */
  function PostInit(c: TradingConfig): (r: TradingConfig)
    ensures r.symbols == (if c.symbols.None? then Some(["BTCUSDT"]) else c.symbols)
    ensures r.symbolSettings == (if c.symbolSettings.None? then Some(DefaultSymbolSettings) else c.symbolSettings)
    ensures r.(symbols := c.symbols, symbolSettings := c.symbolSettings) == c
  {
    var withSymbols := if c.symbols.None? then c.(symbols := Some(["BTCUSDT"])) else c;
    if withSymbols.symbolSettings.None? then withSymbols.(symbolSettings := Some(DefaultSymbolSettings))
    else withSymbols
  }

  predicate Initialized(c: TradingConfig)
  {
    c.symbols.Some? && c.symbolSettings.Some?
  }

  /** `TradingConfig()` with every default. */
  function Default(): (c: TradingConfig)
    ensures Initialized(c) && c.symbols == Some(["BTCUSDT"]) && c.symbolSettings == Some(DefaultSymbolSettings)
    ensures c.leverage == 20 && c.maxPositions == 3 && c.timeframe == "15m" && c.testnet
  {
    PostInit(TradingConfig(true, None, "15m", 20, 0.02, 3, 35.0, 1.01, 1.3, 65.0, 0.99, 0.01, 1.5, None, 60))
  }

  /** Running `__post_init__` again changes nothing, and its result is always initialized. */
  lemma PostInitIdempotent(c: TradingConfig)
    ensures Initialized(PostInit(c)) && PostInit(PostInit(c)) == PostInit(c)
  {
  }

  /** `get_symbol_setting`: the stored value when the symbol and key are both present, else `default`. */
  function GetSymbolSetting(c: TradingConfig, symbol: string, key: string, default: Option<Setting>): (r: Option<Setting>)
    requires c.symbolSettings.Some?
    ensures symbol in c.symbolSettings.value && key in c.symbolSettings.value[symbol] ==>
      r == Some(c.symbolSettings.value[symbol][key])
    ensures !(symbol in c.symbolSettings.value && key in c.symbolSettings.value[symbol]) ==> r == default
  {
    var settings := c.symbolSettings.value;
    if symbol in settings then
      if key in settings[symbol] then Some(settings[symbol][key]) else default
    else default
  }

  /** With the default settings BTCUSDT is long-only with a 0.3% take-profit; other symbols get the caller's default. */
  lemma DefaultSettingsLookup(key: string, symbol: string, default: Option<Setting>)
    requires symbol != "BTCUSDT"
    ensures GetSymbolSetting(Default(), "BTCUSDT", "long_only", None) == Some(Flag(true))
    ensures GetSymbolSetting(Default(), "BTCUSDT", "tp_pct", None) == Some(Number(0.003))
    ensures GetSymbolSetting(Default(), symbol, key, default) == default
  {
  }
}
