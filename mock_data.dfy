/**
 * The mock quote provider: a fixed table of five configured symbols, which decides
 * symbol validity, and a per-symbol memory of the last price that quote generation
 * consults. The normal-distribution draw and the clock are parameters.
 */
module MockData {
  import opened Types

  datatype StockConfig = StockConfig(basePrice: real, volatility: real, trend: real)

  /** The provider's configuration table, fixed at construction. */
  function StockConfigs(): map<string, StockConfig>
  {
    map[
      "AAPL" := StockConfig(175.0, 0.002, 0.0001),
      "MSFT" := StockConfig(320.0, 0.0015, 0.00012),
      "GOOGL" := StockConfig(140.0, 0.0025, 0.00008),
      "AMZN" := StockConfig(130.0, 0.003, 0.00015),
      "META" := StockConfig(270.0, 0.0035, -0.00005)
    ]
  }

  /** Every configured base price is positive, so a walk never starts from 0.0. */
  lemma BasePricesPositive()
    ensures forall s :: s in StockConfigs() ==> StockConfigs()[s].basePrice > 0.0
  {
  }

  /** The table has exactly five keys. */
  lemma ConfiguredSymbols()
    ensures StockConfigs().Keys == {"AAPL", "MSFT", "GOOGL", "AMZN", "META"}
    ensures |StockConfigs()| == 5
  {
    var keys := StockConfigs().Keys;
    assert keys == {"AAPL"} + {"MSFT"} + {"GOOGL"} + {"AMZN"} + {"META"};
    assert |{"AAPL"} + {"MSFT"}| == 2;
    assert |{"AAPL"} + {"MSFT"} + {"GOOGL"}| == 3;
    assert |{"AAPL"} + {"MSFT"} + {"GOOGL"} + {"AMZN"}| == 4;
  }

  /** What `last_prices[symbol]` reads: the remembered price, or 0.0 (which it also inserts). */
  function Remembered(lastPrices: map<string, real>, symbol: string): real
  {
    if symbol in lastPrices then lastPrices[symbol] else 0.0
  }

  /** The price a walk step starts from: the remembered one, or the base price when none is remembered. */
  function StartPrice(config: StockConfig, last: real): real
  {
    if last == 0.0 then config.basePrice else last
  }

  class MockDataProvider {
    const stockConfigs: map<string, StockConfig> := StockConfigs()
    var lastPrices: map<string, real>

    /** Only configured symbols are ever remembered. */
    ghost predicate Valid()
      reads this
    {
      lastPrices.Keys <= stockConfigs.Keys
    }

    /** No remembered price has ever moved away from the 0.0 that `operator[]` inserts. */
    ghost predicate NeverAdvanced()
      reads this
    {
      forall s :: s in lastPrices ==> lastPrices[s] == 0.0
    }

    constructor ()
      ensures Valid() && NeverAdvanced()
      ensures lastPrices == map[]
    {
      lastPrices := map[];
    }

    /** A symbol is valid exactly when it is one of the five configured ones. */
    function IsValidSymbol(symbol: string): (valid: bool)
      ensures valid <==> symbol in {"AAPL", "MSFT", "GOOGL", "AMZN", "META"}
    {
      ConfiguredSymbols();
      symbol in stockConfigs
    }

    /** Lists every configured symbol exactly once, in the table's (unspecified) order. */
    method GetAvailableSymbols() returns (symbols: seq<string>)
      ensures |symbols| == 5
      ensures forall s :: s in symbols <==> IsValidSymbol(s)
      ensures forall i, j :: 0 <= i < j < |symbols| ==> symbols[i] != symbols[j]
    {
      ConfiguredSymbols();
      symbols := [];
      var rest := stockConfigs.Keys;
      while rest != {}
        invariant rest <= stockConfigs.Keys
        invariant forall s :: s in symbols <==> s in stockConfigs && s !in rest
        invariant forall i, j :: 0 <= i < j < |symbols| ==> symbols[i] != symbols[j]
        invariant |symbols| + |rest| == |stockConfigs.Keys|
        decreases rest
      {
        var s :| s in rest;
        symbols := symbols + [s];
        rest := rest - {s};
      }
    }

    /**
     * generateQuote as written: an unknown symbol throws before `last_prices` is touched;
     * a known one gets an entry in `last_prices` (0.0 if it had none), and the walk starts
     * from the remembered price or the base price. The new price only reaches a local copy,
     * so the remembered price is never updated.
     */
    method GenerateQuote(symbol: string, draw: real, now: int) returns (r: Result<Quote>)
      requires Valid()
      modifies this
      ensures Valid()
      ensures symbol !in stockConfigs ==> r == Err("Invalid symbol: " + symbol) && lastPrices == old(lastPrices)
      ensures symbol in stockConfigs ==>
        && lastPrices == old(lastPrices)[symbol := Remembered(old(lastPrices), symbol)]
        && r.Ok? && r.value.symbol == symbol
        && r.value.timestamp == now
        && r.value.price == StartPrice(stockConfigs[symbol], Remembered(old(lastPrices), symbol)) * (1.0 + draw)
      ensures old(NeverAdvanced()) ==> NeverAdvanced()
      ensures old(NeverAdvanced()) && symbol in stockConfigs ==>
        lastPrices[symbol] == 0.0 && r.value.price == stockConfigs[symbol].basePrice * (1.0 + draw)
    {
      if symbol !in stockConfigs {
        return Err("Invalid symbol: " + symbol);
      }
      BasePricesPositive();
      var config := stockConfigs[symbol];
      var lastPrice := Remembered(lastPrices, symbol);
      lastPrices := lastPrices[symbol := lastPrice];
      if lastPrice == 0.0 {
        lastPrice := config.basePrice;
      }
      var newPrice := lastPrice * (1.0 + draw);
      var percentChange := ((newPrice - lastPrice) / lastPrice) * 100.0;
      lastPrice := newPrice;
      r := Ok(Quote(symbol, newPrice, now, "USD", percentChange));
    }

    /**
     * generateQuote as evidently intended: the same, except that the new price is
     * remembered, so the next quote for the symbol continues the walk from it.
     */
    method GenerateQuoteTracked(symbol: string, draw: real, now: int) returns (r: Result<Quote>)
      requires Valid()
      modifies this
      ensures Valid()
      ensures symbol !in stockConfigs ==> r == Err("Invalid symbol: " + symbol) && lastPrices == old(lastPrices)
      ensures symbol in stockConfigs ==>
        && r.Ok? && r.value.symbol == symbol
        && r.value.timestamp == now
        && r.value.price == StartPrice(stockConfigs[symbol], Remembered(old(lastPrices), symbol)) * (1.0 + draw)
        && lastPrices == old(lastPrices)[symbol := r.value.price]
    {
      if symbol !in stockConfigs {
        return Err("Invalid symbol: " + symbol);
      }
      BasePricesPositive();
      var config := stockConfigs[symbol];
      var lastPrice := Remembered(lastPrices, symbol);
      if lastPrice == 0.0 {
        lastPrice := config.basePrice;
      }
      var newPrice := lastPrice * (1.0 + draw);
      var percentChange := ((newPrice - lastPrice) / lastPrice) * 100.0;
      lastPrices := lastPrices[symbol := newPrice];
      r := Ok(Quote(symbol, newPrice, now, "USD", percentChange));
    }
  }

  /**
   * Two quotes for AAPL from a fresh provider, the first drawing a 1% rise and the second
   * no change: as written, the second quote is back at the base price 175.0 instead of
   * staying at the first quote's 176.75.
   */
  method RepeatedQuotesRestartFromBase() returns (first: Quote, second: Quote)
    ensures first.price == 176.75
    ensures second.price == 175.0
    ensures second.price != first.price * (1.0 + 0.0)
  {
    var provider := new MockDataProvider();
    var r1 := provider.GenerateQuote("AAPL", 0.01, 0);
    var r2 := provider.GenerateQuote("AAPL", 0.0, 1);
    first, second := r1.value, r2.value;
  }

  /** The same two draws with the corrected generator: the second quote continues from the first. */
  method TrackedQuotesContinueWalk() returns (first: Quote, second: Quote)
    ensures first.price == 176.75
    ensures second.price == first.price * (1.0 + 0.0)
  {
    var provider := new MockDataProvider();
    var r1 := provider.GenerateQuoteTracked("AAPL", 0.01, 0);
    var r2 := provider.GenerateQuoteTracked("AAPL", 0.0, 1);
    first, second := r1.value, r2.value;
  }
}
