/**
 * The direct exchange client: the same two listings as the price server,
 * but gathered into maps keyed by symbol. A symbol listed twice keeps the
 * value of its later entry. `GetAccountInfo` is a bare library call and is
 * not part of this model.
 */
module BinanceApi {
  import opened Results
  import opened GoStrings
  import opened Exchange

  /** The price map of a listing: every USDT pair, the later entry winning. */
  function PriceMap(prices: seq<RawPrice>): map<string, real> {
    if prices == [] then map[]
    else
      var last := prices[|prices| - 1];
      var init := PriceMap(prices[..|prices| - 1]);
      if IsUsdtPair(last.symbol) then init[last.symbol := ParsedOrZero(last.price)] else init
  }

  /** The change map of a listing: every ticker whose change parsed, the later entry winning. */
  function ChangeMap(tickers: seq<RawTicker>): map<string, real> {
    if tickers == [] then map[]
    else
      var last := tickers[|tickers| - 1];
      var init := ChangeMap(tickers[..|tickers| - 1]);
      match last.priceChangePercent
      case Some(change) => init[last.symbol := change]
      case None => init
  }

  /** `GetUSDTPrices`: an upstream error is passed on; otherwise the price map. */
  method GetUSDTPrices(upstream: Result<seq<RawPrice>>) returns (response: Result<map<string, real>>)
    ensures upstream.Err? ==> response == Err(upstream.error)
    ensures upstream.Ok? ==> response == Ok(PriceMap(upstream.value))
  {
    if upstream.Err? {
      return Err(upstream.error);
    }
    var prices := upstream.value;
    var usdtPrices: map<string, real> := map[];
    for i := 0 to |prices|
      invariant usdtPrices == PriceMap(prices[..i])
    {
      assert prices[..i + 1][..i] == prices[..i];
      var price := prices[i];
      if HasSuffix(price.symbol, "USDT") {
        usdtPrices := usdtPrices[price.symbol := price.price.GetOr(0.0)];
      }
    }
    assert prices[..|prices|] == prices;
    return Ok(usdtPrices);
  }

  /** `Get24hChangePercent`: an upstream error is passed on; otherwise the change map. */
  method Get24hChangePercent(upstream: Result<seq<RawTicker>>) returns (response: Result<map<string, real>>)
    ensures upstream.Err? ==> response == Err(upstream.error)
    ensures upstream.Ok? ==> response == Ok(ChangeMap(upstream.value))
  {
    if upstream.Err? {
      return Err(upstream.error);
    }
    var ticker24h := upstream.value;
    var changePercent: map<string, real> := map[];
    for i := 0 to |ticker24h|
      invariant changePercent == ChangeMap(ticker24h[..i])
    {
      assert ticker24h[..i + 1][..i] == ticker24h[..i];
      var ticker := ticker24h[i];
      if ticker.priceChangePercent.None? {
        continue;
      }
      changePercent := changePercent[ticker.symbol := ticker.priceChangePercent.value];
    }
    assert ticker24h[..|ticker24h|] == ticker24h;
    return Ok(changePercent);
  }

  /** The price map holds a symbol exactly when the listing has it as a USDT pair. */
  lemma {:induction false} PriceMapKeys(prices: seq<RawPrice>, k: string)
    ensures k in PriceMap(prices) <==> IsUsdtPair(k) && exists i :: 0 <= i < |prices| && prices[i].symbol == k
  {
    if prices != [] {
      var n := |prices| - 1;
      var init := prices[..n];
      PriceMapKeys(init, k);
      if exists i :: 0 <= i < |prices| && prices[i].symbol == k {
        var i :| 0 <= i < |prices| && prices[i].symbol == k;
        if i < n {
          assert init[i].symbol == k;
        }
      }
      if exists i :: 0 <= i < n && init[i].symbol == k {
        var i :| 0 <= i < n && init[i].symbol == k;
        assert prices[i].symbol == k;
      }
    }
  }

  /** A symbol of the price map carries the price of its last entry in the listing. */
  lemma {:induction false} PriceMapLastEntryWins(prices: seq<RawPrice>, k: string)
    requires k in PriceMap(prices)
    ensures exists i ::
      && 0 <= i < |prices| && prices[i].symbol == k
      && PriceMap(prices)[k] == ParsedOrZero(prices[i].price)
      && forall j :: i < j < |prices| ==> prices[j].symbol != k
  {
    var n := |prices| - 1;
    var init := prices[..n];
    PriceMapKeys(prices, k);
    if prices[n].symbol == k {
      assert PriceMap(prices)[k] == ParsedOrZero(prices[n].price);
    } else {
      assert PriceMap(prices)[k] == PriceMap(init)[k];
      PriceMapLastEntryWins(init, k);
      var i :| 0 <= i < n && init[i].symbol == k && PriceMap(init)[k] == ParsedOrZero(init[i].price)
        && forall j :: i < j < n ==> init[j].symbol != k;
      assert prices[i] == init[i];
      assert forall j :: i < j < n ==> prices[j] == init[j];
    }
  }

  /** The change map holds a symbol exactly when some ticker for it parsed. */
  lemma {:induction false} ChangeMapKeys(tickers: seq<RawTicker>, k: string)
    ensures k in ChangeMap(tickers) <==> exists i :: 0 <= i < |tickers| && tickers[i].symbol == k && tickers[i].priceChangePercent.Some?
  {
    if tickers != [] {
      var n := |tickers| - 1;
      var init := tickers[..n];
      ChangeMapKeys(init, k);
      if exists i :: 0 <= i < |tickers| && tickers[i].symbol == k && tickers[i].priceChangePercent.Some? {
        var i :| 0 <= i < |tickers| && tickers[i].symbol == k && tickers[i].priceChangePercent.Some?;
        if i < n {
          assert init[i] == tickers[i];
        }
      }
      if exists i :: 0 <= i < n && init[i].symbol == k && init[i].priceChangePercent.Some? {
        var i :| 0 <= i < n && init[i].symbol == k && init[i].priceChangePercent.Some?;
        assert tickers[i] == init[i];
      }
    }
  }

  /**
   * A symbol of the change map carries the last change that parsed for it;
   * later tickers for the symbol that did not parse do not overwrite it.
   */
  lemma {:induction false} ChangeMapLastParsedWins(tickers: seq<RawTicker>, k: string)
    requires k in ChangeMap(tickers)
    ensures exists i ::
      && 0 <= i < |tickers| && tickers[i].symbol == k
      && tickers[i].priceChangePercent == Some(ChangeMap(tickers)[k])
      && forall j :: i < j < |tickers| && tickers[j].symbol == k ==> tickers[j].priceChangePercent.None?
  {
    var n := |tickers| - 1;
    var init := tickers[..n];
    if tickers[n].symbol == k && tickers[n].priceChangePercent.Some? {
      assert ChangeMap(tickers)[k] == tickers[n].priceChangePercent.value;
    } else {
      assert ChangeMap(tickers)[k] == ChangeMap(init)[k];
      ChangeMapLastParsedWins(init, k);
      var i :| 0 <= i < n && init[i].symbol == k && init[i].priceChangePercent == Some(ChangeMap(init)[k])
        && forall j :: i < j < n && init[j].symbol == k ==> init[j].priceChangePercent.None?;
      assert tickers[i] == init[i];
      assert forall j :: i < j < n ==> tickers[j] == init[j];
    }
  }

  /** Of two entries for the same pair, the later one's price is kept. */
  lemma DuplicateKeepsLater(symbol: string, first: real, second: real)
    requires IsUsdtPair(symbol)
    ensures PriceMap([RawPrice(symbol, Some(first)), RawPrice(symbol, Some(second))]) == map[symbol := second]
  {
    var prices := [RawPrice(symbol, Some(first)), RawPrice(symbol, Some(second))];
    assert prices[..1][..0] == [];
    assert PriceMap(prices[..1]) == map[symbol := first];
  }
}
