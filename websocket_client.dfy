/**
 * `BinanceWebSocket`: the live bot's market-data cache. Each symbol has a
 * buffer of at most 500 closed candles (oldest first), its in-progress
 * candle, and its last price; kline and mark-price messages update them.
 *
 * The connection, the reconnect loop, the thread and JSON decoding are not
 * modelled: a message arrives already decoded, and the callbacks the source
 * invokes are returned as notifications.
 */
module MarketStream {
  import opened Common
  import opened Bars
  import opened Config
  import Text

  const TestnetWsUrl: string := "wss://stream.binancefuture.com"
  const MainnetWsUrl: string := "wss://fstream.binance.com"

  /** Closed candles kept per symbol (`deque(maxlen=500)`). */
  const KlineCapacity: nat := 500

  /** The `data` part of a combined-stream message, decoded; `Malformed` stands for a payload missing a key. */
  datatype Payload =
    | KlineData(symbol: string, candle: Candle)
    | PriceData(symbol: string, price: real)
    | Malformed

  /** A decoded message: the `stream` name when present, and its payload. */
  datatype Message = Message(stream: Option<string>, data: Payload)

  /** The callback the source would invoke: `on_kline_close` or `on_price_update`. */
  datatype Notification = KlineClosed(symbol: string, candle: Candle) | PriceUpdated(symbol: string, price: real)

  // ---------------------------------------------------------------- stream names and URL

  function BaseUrl(cfg: TradingConfig): string
  {
    if cfg.testnet then TestnetWsUrl else MainnetWsUrl
  }

  function KlineStream(symbol: string, timeframe: string): string
  {
    Text.Lower(symbol) + "@kline_" + timeframe
  }

  function PriceStream(symbol: string): string
  {
    Text.Lower(symbol) + "@markPrice@1s"
  }

  /** The streams subscribed for the symbols: per symbol, in order, its kline then its mark-price stream. */
  function Streams(symbols: seq<string>, timeframe: string): (r: seq<string>)
  {
    if symbols == [] then []
    else
      var init := symbols[..|symbols| - 1];
      var last := symbols[|symbols| - 1];
      Streams(init, timeframe) + [KlineStream(last, timeframe), PriceStream(last)]
  }

  /** Two streams per symbol, at positions 2k and 2k + 1. */
  lemma {:induction false} StreamsLayout(symbols: seq<string>, timeframe: string)
    ensures |Streams(symbols, timeframe)| == 2 * |symbols|
    ensures forall k :: 0 <= k < |symbols| ==>
      Streams(symbols, timeframe)[2 * k] == KlineStream(symbols[k], timeframe)
      && Streams(symbols, timeframe)[2 * k + 1] == PriceStream(symbols[k])
  {
    if symbols != [] {
      var init := symbols[..|symbols| - 1];
      StreamsLayout(init, timeframe);
      forall k | 0 <= k < |init| ensures symbols[k] == init[k] { }
    }
  }

  /** The combined-stream URL for the streams. */
  function StreamUrl(base: string, symbols: seq<string>, timeframe: string): string
  {
    base + "/stream?streams=" + Text.Join(Streams(symbols, timeframe), "/")
  }

  // ---------------------------------------------------------------- the candle buffer

  /** Appending to a `deque(maxlen=500)`: the oldest candle falls out when it is full. */
  function BoundedAppend(buffer: seq<Candle>, c: Candle): (r: seq<Candle>)
    requires |buffer| <= KlineCapacity
    ensures |r| <= KlineCapacity && r != [] && r[|r| - 1] == c
    ensures |buffer| < KlineCapacity ==> r == buffer + [c]
    ensures |buffer| == KlineCapacity ==> r == buffer[1..] + [c]
  {
    if |buffer| < KlineCapacity then buffer + [c] else buffer[1..] + [c]
  }

  /** The last `n` elements of `s` (all of them when there are fewer). */
  function LastN(s: seq<Candle>, n: nat): (r: seq<Candle>)
    ensures |r| == if |s| < n then |s| else n
  {
    if |s| <= n then s else s[|s| - n..]
  }

  /** The buffer after appending the candles, in order, to `buffer`. */
  function Extend(buffer: seq<Candle>, cs: seq<Candle>): (r: seq<Candle>)
    requires |buffer| <= KlineCapacity
    ensures |r| <= KlineCapacity
  {
    if cs == [] then buffer else BoundedAppend(Extend(buffer, cs[..|cs| - 1]), cs[|cs| - 1])
  }

  /** The buffer holds exactly the last 500 candles it has seen, oldest first. */
  lemma {:induction false} ExtendKeepsLatest(buffer: seq<Candle>, cs: seq<Candle>)
    requires |buffer| <= KlineCapacity
    ensures Extend(buffer, cs) == LastN(buffer + cs, KlineCapacity)
  {
    if cs != [] {
      var init := cs[..|cs| - 1];
      var c := cs[|cs| - 1];
      ExtendKeepsLatest(buffer, init);
      assert (buffer + init) + [c] == buffer + cs;
      var b := LastN(buffer + init, KlineCapacity);
      if |buffer + init| >= KlineCapacity {
        var all := buffer + cs;
        assert b[1..] + [c] == all[|all| - KlineCapacity..];
      }
    }
  }

  /** The candles as `_load_initial_data` stores them: each one marked closed. */
  function AsClosed(cs: seq<Candle>): (r: seq<Candle>)
    ensures |r| == |cs|
    ensures forall k :: 0 <= k < |r| ==> r[k] == cs[k].(isClosed := true)
  {
    seq(|cs|, k requires 0 <= k < |cs| => cs[k].(isClosed := true))
  }

  /** Every buffer within the capacity. */
  predicate Bounded(klines: map<string, seq<Candle>>)
  {
    forall s :: s in klines ==> |klines[s]| <= KlineCapacity
  }

  /**
   * The buffers after the downloaded candles of `symbol` are appended as
   * closed candles; a symbol gets a buffer only when some candle arrives.
   */
  function LoadInto(klines: map<string, seq<Candle>>, symbol: string, cs: seq<Candle>): (r: map<string, seq<Candle>>)
    requires Bounded(klines)
    ensures Bounded(r)
    ensures r.Keys == if cs == [] then klines.Keys else klines.Keys + {symbol}
    ensures forall s :: s in klines && s != symbol ==> r[s] == klines[s]
  {
    var buffer := if symbol in klines then klines[symbol] else [];
    if cs == [] then klines else klines[symbol := Extend(buffer, AsClosed(cs))]
  }

  /** Loading one more candle appends it, marked closed, to the symbol's buffer. */
  lemma LoadIntoStep(klines: map<string, seq<Candle>>, symbol: string, cs: seq<Candle>, c: Candle)
    requires Bounded(klines)
    ensures var m := LoadInto(klines, symbol, cs);
      LoadInto(klines, symbol, cs + [c])
      == m[symbol := BoundedAppend(if symbol in m then m[symbol] else [], c.(isClosed := true))]
  {
    var buffer := if symbol in klines then klines[symbol] else [];
    var all := AsClosed(cs + [c]);
    assert all[..|cs|] == AsClosed(cs) && all[|cs|] == c.(isClosed := true);
    assert Extend(buffer, all) == BoundedAppend(Extend(buffer, AsClosed(cs)), c.(isClosed := true));
  }

  /** The loaded symbol's buffer holds the last 500 of its old candles followed by the downloaded ones. */
  lemma LoadIntoLatest(klines: map<string, seq<Candle>>, symbol: string, cs: seq<Candle>)
    requires Bounded(klines) && cs != []
    ensures LoadInto(klines, symbol, cs)[symbol]
            == LastN((if symbol in klines then klines[symbol] else []) + AsClosed(cs), KlineCapacity)
  {
    ExtendKeepsLatest(if symbol in klines then klines[symbol] else [], AsClosed(cs));
  }

  // ---------------------------------------------------------------- the client object

  class MarketDataClient {
    const config: TradingConfig
    const baseUrl: string
    var klines: map<string, seq<Candle>>
    var currentCandles: map<string, Candle>
    var currentPrices: map<string, real>

    /** Each buffer is bounded and holds closed candles only. */
    ghost predicate Valid()
      reads this
    {
      forall s :: s in klines ==> |klines[s]| <= KlineCapacity && forall k :: 0 <= k < |klines[s]| ==> klines[s][k].isClosed
    }

    constructor(config: TradingConfig)
      ensures Valid() && this.config == config && baseUrl == BaseUrl(config)
      ensures klines == map[] && currentCandles == map[] && currentPrices == map[]
    {
      this.config := config;
      baseUrl := BaseUrl(config);
      klines := map[];
      currentCandles := map[];
      currentPrices := map[];
    }

    /** `_get_stream_url`: the loop appends two streams per symbol, then joins them with "/". */
    method GetStreamUrl(symbols: seq<string>, timeframe: string) returns (url: string)
      ensures url == StreamUrl(baseUrl, symbols, timeframe)
    {
      var streams: seq<string> := [];
      var k := 0;
      while k < |symbols|
        invariant 0 <= k <= |symbols|
        invariant streams == Streams(symbols[..k], timeframe)
      {
        var symbolLower := Text.Lower(symbols[k]);
        streams := streams + [symbolLower + "@kline_" + timeframe];
        streams := streams + [symbolLower + "@markPrice@1s"];
        assert symbols[..k + 1][..k] == symbols[..k];
        k := k + 1;
      }
      assert symbols[..k] == symbols;
      var streamPath := Text.Join(streams, "/");
      url := baseUrl + "/stream?streams=" + streamPath;
    }

    /**
     * `_handle_kline`: the price and the in-progress candle always follow the
     * message; a closed candle is also appended to the symbol's buffer
     * (created empty on first use) and announced.
     */
    method HandleKline(symbol: string, candle: Candle) returns (note: Option<Notification>)
      requires Valid()
      modifies this
      ensures Valid()
      ensures currentPrices == old(currentPrices)[symbol := candle.close]
      ensures currentCandles == old(currentCandles)[symbol := candle]
      ensures candle.isClosed ==>
        klines == old(klines)[symbol := BoundedAppend(if symbol in old(klines) then old(klines)[symbol] else [], candle)]
      ensures !candle.isClosed ==> klines == old(klines)
      ensures note == if candle.isClosed then Some(KlineClosed(symbol, candle)) else None
    {
      currentPrices := currentPrices[symbol := candle.close];
      currentCandles := currentCandles[symbol := candle];
      note := None;
      if candle.isClosed {
        Append(symbol, candle);
        note := Some(KlineClosed(symbol, candle));
      }
    }

    /** Append a closed candle to the symbol's buffer, creating the buffer on first use. */
    method Append(symbol: string, candle: Candle)
      requires Valid() && candle.isClosed
      modifies this
      ensures Valid()
      ensures klines == old(klines)[symbol := BoundedAppend(if symbol in old(klines) then old(klines)[symbol] else [], candle)]
      ensures currentCandles == old(currentCandles) && currentPrices == old(currentPrices)
    {
      if symbol !in klines {
        klines := klines[symbol := []];
      }
      klines := klines[symbol := BoundedAppend(klines[symbol], candle)];
    }

    /** `_handle_price`: only the symbol's last price changes. */
    method HandlePrice(symbol: string, price: real) returns (note: Notification)
      modifies this
      ensures currentPrices == old(currentPrices)[symbol := price]
      ensures klines == old(klines) && currentCandles == old(currentCandles)
      ensures note == PriceUpdated(symbol, price)
    {
      currentPrices := currentPrices[symbol := price];
      note := PriceUpdated(symbol, price);
    }

    /**
     * `_on_message`: a message without a stream name is ignored; kline
     * streams are routed before mark-price streams; a payload that does not
     * fit its route raises inside the handler and changes nothing.
     */
    method OnMessage(msg: Message) returns (note: Option<Notification>)
      requires Valid()
      modifies this
      ensures Valid()
      ensures msg.stream.None? ==> unchanged(this) && note.None?
      ensures Route(msg) == NoRoute ==> unchanged(this) && note.None?
      ensures Route(msg) == ToKline ==>
        var (symbol, candle) := (msg.data.symbol, msg.data.candle);
        && currentCandles == old(currentCandles)[symbol := candle]
        && currentPrices == old(currentPrices)[symbol := candle.close]
        && klines == (if candle.isClosed
                      then old(klines)[symbol := BoundedAppend(if symbol in old(klines) then old(klines)[symbol] else [], candle)]
                      else old(klines))
        && note == (if candle.isClosed then Some(KlineClosed(symbol, candle)) else None)
      ensures Route(msg) == ToPrice ==>
        currentPrices == old(currentPrices)[msg.data.symbol := msg.data.price] && klines == old(klines)
        && note == Some(PriceUpdated(msg.data.symbol, msg.data.price))
    {
      match Route(msg) {
        case NoRoute =>
          note := None;
        case ToKline =>
          note := HandleKline(msg.data.symbol, msg.data.candle);
        case ToPrice =>
          var n := HandlePrice(msg.data.symbol, msg.data.price);
          note := Some(n);
      }
    }

    /** The appending loop of `_load_initial_data` for one symbol's download. */
    method Preload(symbol: string, cs: seq<Candle>)
      requires Valid()
      modifies this
      ensures Valid()
      ensures klines == LoadInto(old(klines), symbol, cs)
      ensures currentCandles == old(currentCandles) && currentPrices == old(currentPrices)
    {
      var k := 0;
      while k < |cs|
        invariant 0 <= k <= |cs|
        invariant Valid()
        invariant currentCandles == old(currentCandles) && currentPrices == old(currentPrices)
        invariant klines == LoadInto(old(klines), symbol, cs[..k])
      {
        var candle := cs[k].(isClosed := true);
        LoadIntoStep(old(klines), symbol, cs[..k], cs[k]);
        assert cs[..k + 1] == cs[..k] + [cs[k]];
        Append(symbol, candle);
        k := k + 1;
      }
      assert cs[..k] == cs;
    }

    /** `get_current_price`. */
    function GetCurrentPrice(symbol: string): (r: Option<real>)
      reads this
      ensures r.Some? <==> symbol in currentPrices
      ensures r.Some? ==> r.value == currentPrices[symbol]
    {
      if symbol in currentPrices then Some(currentPrices[symbol]) else None
    }

    /** `get_klines`: the closed candles, oldest first, or none for an unknown symbol. */
    function GetKlines(symbol: string): (r: seq<Candle>)
      reads this
      ensures symbol !in klines ==> r == []
      ensures symbol in klines ==> r == klines[symbol]
    {
      if symbol in klines then klines[symbol] else []
    }

    /** `get_current_candle`. */
    function GetCurrentCandle(symbol: string): (r: Option<Candle>)
      reads this
      ensures r.Some? <==> symbol in currentCandles
      ensures r.Some? ==> r.value == currentCandles[symbol]
    {
      if symbol in currentCandles then Some(currentCandles[symbol]) else None
    }
  }

  /** Where `_on_message` sends a message. */
  datatype Handler = NoRoute | ToKline | ToPrice

  /** A handler runs only when the stream names its kind and the payload has that handler's keys. */
  function Route(msg: Message): (r: Handler)
    ensures r == ToKline ==> msg.data.KlineData?
    ensures r == ToPrice ==> msg.data.PriceData?
    ensures msg.stream.None? ==> r == NoRoute
    ensures msg.stream.Some? && Text.Contains(msg.stream.value, "@kline_") ==> r != ToPrice
    ensures msg.stream.Some? && Text.Contains(msg.stream.value, "@kline_") && msg.data.KlineData? ==> r == ToKline
    ensures (msg.stream.Some? && !Text.Contains(msg.stream.value, "@kline_")
             && Text.Contains(msg.stream.value, "@markPrice") && msg.data.PriceData?) ==> r == ToPrice
  {
    match msg.stream
    case None => NoRoute
    case Some(stream) =>
      if Text.Contains(stream, "@kline_") then (if msg.data.KlineData? then ToKline else NoRoute)
      else if Text.Contains(stream, "@markPrice") then (if msg.data.PriceData? then ToPrice else NoRoute)
      else NoRoute
  }
}
