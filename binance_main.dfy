/**
 * The stand-alone bot's text handler: fetch the price map and the change
 * map from the exchange client, keep the pairs that moved at least 20%,
 * sort them by change and reply with the summary. The two fetches are the
 * handler's inputs; the reply is its result.
 */
module BinanceMain {
  import opened Results
  import opened Sorting
  import opened Movers

  /** The pairs the handler keeps: priced, with a change, and that change at least 20%. */
  ghost function Kept(prices: map<string, real>, changes: map<string, real>): set<string> {
    set s | s in prices && s in changes && changes[s] >= Threshold
  }

  /** `m` carries its symbol's price and change from the two maps. */
  ghost predicate FromMaps(m: Mover, prices: map<string, real>, changes: map<string, real>) {
    m.symbol in prices && m.symbol in changes && m == Mover(m.symbol, prices[m.symbol], changes[m.symbol])
  }

  /** `movers` lists exactly the kept pairs, each with its price and change. */
  ghost predicate ListsKept(movers: seq<Mover>, prices: map<string, real>, changes: map<string, real>) {
    && ListsExactly(movers, MoverSymbol, Kept(prices, changes))
    && forall i :: 0 <= i < |movers| ==> FromMaps(movers[i], prices, changes)
  }

  /** The `for symbol, price := range usdtPrices` loop, in whatever order the map yields. */
  method FilterMovers(prices: map<string, real>, changes: map<string, real>) returns (filtered: seq<Mover>)
    ensures ListsKept(filtered, prices, changes)
  {
    var kept := Kept(prices, changes);
    filtered := [];
    var pending := prices.Keys;
    while pending != {}
      invariant pending <= prices.Keys
      invariant ListsExactly(filtered, MoverSymbol, kept - pending)
      invariant forall i :: 0 <= i < |filtered| ==> FromMaps(filtered[i], prices, changes)
      decreases |pending|
    {
      var symbol :| symbol in pending;
      var price := prices[symbol];
      if symbol !in changes || changes[symbol] < 20.0 {
        ListsSkipping(filtered, MoverSymbol, kept, pending, symbol);
      } else {
        var mover := Mover(symbol, price, changes[symbol]);
        ListsOneMore(filtered, MoverSymbol, kept, pending, mover);
        filtered := filtered + [mover];
      }
      pending := pending - {symbol};
    }
    assert kept - {} == kept;
  }

  /** Reordering keeps a listing of the kept pairs one. */
  lemma PermutedKept(s: seq<Mover>, s': seq<Mover>, prices: map<string, real>, changes: map<string, real>)
    requires ListsKept(s, prices, changes)
    requires multiset(s') == multiset(s)
    ensures ListsKept(s', prices, changes)
  {
    PermutationKeepsListing(s, s', MoverSymbol, Kept(prices, changes));
    forall i | 0 <= i < |s'| ensures FromMaps(s'[i], prices, changes) {
      assert s'[i] in s;
    }
  }

  /**
   * The handler. A failed fetch is replied to with its error alone (the
   * change map is not fetched after a failed price fetch). Otherwise the
   * movers are exactly the kept pairs, by non-increasing change, and the
   * reply is the header and their lines.
   */
  method HandleText(prices: Result<map<string, real>>, changes: Result<map<string, real>>)
    returns (movers: seq<Mover>, reply: Reply)
    ensures prices.Err? ==> movers == [] && reply == FetchFailed(PricesFetch, prices.error)
    ensures prices.Ok? && changes.Err? ==> movers == [] && reply == FetchFailed(ChangesFetch, changes.error)
    ensures prices.Ok? && changes.Ok? ==>
      && ListsKept(movers, prices.value, changes.value)
      && DescendingBy(movers, MoverPct)
      && reply == Summary(Header, Lines(movers))
  {
    movers := [];
    if prices.Err? {
      return movers, FetchFailed(PricesFetch, prices.error);
    }
    if changes.Err? {
      return movers, FetchFailed(ChangesFetch, changes.error);
    }
    var filtered := FilterMovers(prices.value, changes.value);
    movers := SortedBy(filtered, MoverPct);
    PermutedKept(filtered, movers, prices.value, changes.value);
    reply := BuildReply(movers);
  }

  /** The summary has one line per kept pair. */
  lemma SummaryLength(movers: seq<Mover>, prices: map<string, real>, changes: map<string, real>)
    requires ListsKept(movers, prices, changes)
    ensures |Lines(movers)| == |Kept(prices, changes)|
  {
    ListsExactlyCount(movers, MoverSymbol, Kept(prices, changes));
  }

  /** A pair is in the summary exactly when it is priced and moved at least 20%. */
  lemma ReportedIff(movers: seq<Mover>, prices: map<string, real>, changes: map<string, real>, symbol: string)
    requires ListsKept(movers, prices, changes)
    ensures (exists i :: 0 <= i < |movers| && movers[i].symbol == symbol) <==>
      symbol in prices && symbol in changes && changes[symbol] >= 20.0
  {
    if symbol in prices && symbol in changes && changes[symbol] >= 20.0 {
      assert symbol in Kept(prices, changes);
      var i :| 0 <= i < |movers| && MoverSymbol(movers[i]) == symbol;
    }
  }
}
