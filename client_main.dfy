/**
 * The gRPC client bot's handler: fetch the two lists from the price
 * server, give each priced pair the change of its first matching entry
 * (0.0 when there is none), keep those at 20% or more in list order, sort
 * them by change and reply with the summary.
 */
module ClientMain {
  import opened Results
  import opened Proto
  import opened Sorting
  import opened Movers

  /** The pairs of `prices` that moved at least 20%, in list order. */
  function KeptMovers(prices: seq<USDTPrice>, changes: seq<ChangePercent>): (r: seq<Mover>)
    ensures |r| <= |prices|
    ensures forall j :: 0 <= j < |r| ==>
      && USDTPrice(r[j].symbol, r[j].price) in prices
      && r[j].changePct == ChangeFor(r[j].symbol, changes)
      && r[j].changePct >= Threshold
  {
    if prices == [] then []
    else
      var last := prices[|prices| - 1];
      var change := ChangeFor(last.symbol, changes);
      KeptMovers(prices[..|prices| - 1], changes) +
        (if change < 20.0 then [] else [Mover(last.symbol, last.price, change)])
  }

  /** The `for _, price := range usdtPrices.Prices` loop with its inner search. */
  method FilterMovers(prices: seq<USDTPrice>, changes: seq<ChangePercent>) returns (filtered: seq<Mover>)
    ensures filtered == KeptMovers(prices, changes)
  {
    filtered := [];
    for i := 0 to |prices|
      invariant filtered == KeptMovers(prices[..i], changes)
    {
      assert prices[..i + 1][..i] == prices[..i];
      var price := prices[i];
      var change := FindChange(price.symbol, changes);
      if change < 20.0 {
        continue;
      }
      filtered := filtered + [Mover(price.symbol, price.price, change)];
    }
    assert prices[..|prices|] == prices;
  }

  /** A priced pair whose looked-up change is at least 20% is kept. */
  lemma {:induction false} MovedIsKept(prices: seq<USDTPrice>, changes: seq<ChangePercent>, m: Mover, i: nat)
    requires i < |prices| && prices[i] == USDTPrice(m.symbol, m.price)
    requires m.changePct == ChangeFor(m.symbol, changes) && m.changePct >= Threshold
    ensures m in KeptMovers(prices, changes)
  {
    var n := |prices| - 1;
    if i < n {
      assert prices[..n][i] == prices[i];
      MovedIsKept(prices[..n], changes, m, i);
    }
  }

  /**
   * A mover is kept exactly when some priced pair has its symbol and price,
   * and its change is that pair's looked-up change, at least 20%.
   */
  lemma KeptMoversMembers(prices: seq<USDTPrice>, changes: seq<ChangePercent>, m: Mover)
    ensures m in KeptMovers(prices, changes) <==>
      && (exists i :: 0 <= i < |prices| && prices[i] == USDTPrice(m.symbol, m.price))
      && m.changePct == ChangeFor(m.symbol, changes)
      && m.changePct >= Threshold
  {
    if exists i :: 0 <= i < |prices| && prices[i] == USDTPrice(m.symbol, m.price) {
      var i :| 0 <= i < |prices| && prices[i] == USDTPrice(m.symbol, m.price);
      if m.changePct == ChangeFor(m.symbol, changes) && m.changePct >= Threshold {
        MovedIsKept(prices, changes, m, i);
      }
    }
  }

  /** A priced pair with no change entry counts as 0.0 and is never reported. */
  lemma {:induction false} UnlistedChangeNotKept(prices: seq<USDTPrice>, changes: seq<ChangePercent>, m: Mover)
    requires NoChangeFor(m.symbol, changes)
    ensures m !in KeptMovers(prices, changes)
  {
    KeptMoversMembers(prices, changes, m);
  }

  /**
   * The handler. A failed fetch is replied to with its error alone and
   * processing stops. Otherwise the movers are the kept pairs reordered by
   * non-increasing change, and the reply is the header and their lines.
   */
  method Handler(prices: Result<seq<USDTPrice>>, changes: Result<seq<ChangePercent>>)
    returns (movers: seq<Mover>, reply: Reply)
    ensures prices.Err? ==> movers == [] && reply == FetchFailed(PricesFetch, prices.error)
    ensures prices.Ok? && changes.Err? ==> movers == [] && reply == FetchFailed(ChangesFetch, changes.error)
    ensures prices.Ok? && changes.Ok? ==>
      && multiset(movers) == multiset(KeptMovers(prices.value, changes.value))
      && DescendingBy(movers, MoverPct)
      && reply == Summary(Header, Lines(movers))
  {
    movers := [];
    if prices.Err? {
      return movers, FetchFailed(PricesFetch, prices.error);
    }
    if changes.Err? {
      return movers, FetchFailed(ChangesFetch, changes.error);
    }
    var filtered := FilterMovers(prices.value, changes.value);
    movers := SortedBy(filtered, MoverPct);
    reply := BuildReply(movers);
  }

  /** Every reported pair is priced and moved at least 20%. */
  lemma ReportedMoved(movers: seq<Mover>, prices: seq<USDTPrice>, changes: seq<ChangePercent>)
    requires multiset(movers) == multiset(KeptMovers(prices, changes))
    ensures forall i :: 0 <= i < |movers| ==>
      movers[i].changePct >= Threshold && USDTPrice(movers[i].symbol, movers[i].price) in prices
  {
    forall i | 0 <= i < |movers|
      ensures movers[i].changePct >= Threshold && USDTPrice(movers[i].symbol, movers[i].price) in prices
    {
      assert movers[i] in multiset(movers);
      KeptMoversMembers(prices, changes, movers[i]);
    }
  }
}
