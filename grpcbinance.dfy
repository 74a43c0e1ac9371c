/**
 * The price server's two calls: each fetches a listing from the exchange
 * and filters it into a response. The exchange call is the `upstream`
 * parameter, either the listing or the error it failed with.
 */
module GrpcBinance {
  import opened Results
  import opened Proto
  import opened GoStrings
  import opened Exchange

  /**
   * `GetUSDTPrices`: an upstream error is passed on; otherwise the USDT
   * pairs of the listing, in order, an unparseable price kept as 0.
   */
  method GetUSDTPrices(upstream: Result<seq<RawPrice>>) returns (response: Result<seq<USDTPrice>>)
    ensures upstream.Err? ==> response == Err(upstream.error)
    ensures upstream.Ok? ==> response == Ok(UsdtPrices(upstream.value))
  {
    if upstream.Err? {
      return Err(upstream.error);
    }
    var prices := upstream.value;
    var usdtPrices: seq<USDTPrice> := [];
    for i := 0 to |prices|
      invariant usdtPrices == UsdtPrices(prices[..i])
    {
      assert prices[..i + 1][..i] == prices[..i];
      if HasSuffix(prices[i].symbol, "USDT") {
        usdtPrices := usdtPrices + [USDTPrice(prices[i].symbol, prices[i].price.GetOr(0.0))];
      }
    }
    assert prices[..|prices|] == prices;
    return Ok(usdtPrices);
  }

  /**
   * `Get24HChangePercent`: an upstream error is passed on; otherwise every
   * ticker whose change percent parsed, in order, whatever its symbol.
   */
  method Get24HChangePercent(upstream: Result<seq<RawTicker>>) returns (response: Result<seq<ChangePercent>>)
    ensures upstream.Err? ==> response == Err(upstream.error)
    ensures upstream.Ok? ==> response == Ok(ParsedChanges(upstream.value))
  {
    if upstream.Err? {
      return Err(upstream.error);
    }
    var ticker24h := upstream.value;
    var changePercents: seq<ChangePercent> := [];
    for i := 0 to |ticker24h|
      invariant changePercents == ParsedChanges(ticker24h[..i])
    {
      assert ticker24h[..i + 1][..i] == ticker24h[..i];
      var ticker := ticker24h[i];
      if ticker.priceChangePercent.None? {
        continue;
      }
      changePercents := changePercents + [ChangePercent(ticker.symbol, ticker.priceChangePercent.value)];
    }
    assert ticker24h[..|ticker24h|] == ticker24h;
    return Ok(changePercents);
  }
}
