/**
 * The second copy of the price server, identical in behaviour to
 * `GrpcBinance`; its calls are written as that module's.
 */
module GrpcBinanceInternal {
  import opened Results
  import opened Proto
  import opened Exchange
  import GrpcBinance

  /** `GetUSDTPrices`: the USDT pairs in order, unparseable prices as 0; errors passed on. */
  method GetUSDTPrices(upstream: Result<seq<RawPrice>>) returns (response: Result<seq<USDTPrice>>)
    ensures upstream.Err? ==> response == Err(upstream.error)
    ensures upstream.Ok? ==> response == Ok(UsdtPrices(upstream.value))
    ensures upstream.Ok? ==> |response.value| <= |upstream.value|
    ensures upstream.Ok? ==> forall x :: x in response.value <==>
      exists i :: 0 <= i < |upstream.value| && ListedAs(upstream.value[i], x)
  {
    response := GrpcBinance.GetUSDTPrices(upstream);
    if upstream.Ok? {
      forall x ensures x in response.value <==>
        exists i :: 0 <= i < |upstream.value| && ListedAs(upstream.value[i], x)
      {
        UsdtPricesMembers(upstream.value, x);
      }
    }
  }

  /** `Get24hChangePercent`: the tickers whose change parsed, in order; errors passed on. */
  method Get24hChangePercent(upstream: Result<seq<RawTicker>>) returns (response: Result<seq<ChangePercent>>)
    ensures upstream.Err? ==> response == Err(upstream.error)
    ensures upstream.Ok? ==> response == Ok(ParsedChanges(upstream.value))
    ensures upstream.Ok? ==> |response.value| <= |upstream.value|
    ensures upstream.Ok? ==> forall x :: x in response.value <==>
      exists i :: 0 <= i < |upstream.value| && ParsedAs(upstream.value[i], x)
  {
    response := GrpcBinance.Get24HChangePercent(upstream);
    if upstream.Ok? {
      forall x ensures x in response.value <==>
        exists i :: 0 <= i < |upstream.value| && ParsedAs(upstream.value[i], x)
      {
        ParsedChangesMembers(upstream.value, x);
      }
    }
  }
}
