/**
 * What the exchange's two listing calls return, and the filters the price
 * servers and the direct API client apply to it: keep the pairs quoted in
 * USDT (an unparseable price kept as 0), and keep the 24h tickers whose
 * change percent parses. `strconv.ParseFloat` is left out: each decimal
 * string is given as its parse, `None` when the parse fails.
 */
module Exchange {
  import opened Results
  import opened Proto
  import opened GoStrings

  /** One entry of the exchange's price list. */
  datatype RawPrice = RawPrice(symbol: string, price: Option<real>)

  /** One entry of the exchange's 24h statistics. */
  datatype RawTicker = RawTicker(symbol: string, priceChangePercent: Option<real>)

  /** `strings.HasSuffix(symbol, "USDT")`: a pair quoted in USDT. */
  predicate IsUsdtPair(symbol: string) {
    HasSuffix(symbol, "USDT")
  }

  /**
   * `priceFloat, _ := strconv.ParseFloat(...)`: a syntax error gives 0 and
   * is dropped. `None` stands for that case; an out-of-range literal, which
   * Go turns into an infinity, is not modelled.
   */
  function ParsedOrZero(price: Option<real>): real {
    price.GetOr(0.0)
  }

  /** The price entry a USDT pair becomes. */
  function ToUsdtPrice(p: RawPrice): USDTPrice {
    USDTPrice(p.symbol, ParsedOrZero(p.price))
  }

  /** The USDT pairs of `prices`, in their order. */
  function UsdtPrices(prices: seq<RawPrice>): (r: seq<USDTPrice>)
    ensures |r| <= |prices|
    ensures forall i :: 0 <= i < |r| ==> IsUsdtPair(r[i].symbol)
  {
    if prices == [] then []
    else
      var last := prices[|prices| - 1];
      UsdtPrices(prices[..|prices| - 1]) + (if IsUsdtPair(last.symbol) then [ToUsdtPrice(last)] else [])
  }

  /** The tickers of `tickers` whose change percent parsed, in their order. */
  function ParsedChanges(tickers: seq<RawTicker>): (r: seq<ChangePercent>)
    ensures |r| <= |tickers|
  {
    if tickers == [] then []
    else
      var last := tickers[|tickers| - 1];
      ParsedChanges(tickers[..|tickers| - 1]) +
        (match last.priceChangePercent
         case Some(change) => [ChangePercent(last.symbol, change)]
         case None => [])
  }

  /** Filtering a concatenation filters each part: the kept entries stay in input order. */
  lemma {:induction false} UsdtPricesAppend(a: seq<RawPrice>, b: seq<RawPrice>)
    ensures UsdtPrices(a + b) == UsdtPrices(a) + UsdtPrices(b)
    decreases |b|
  {
    if b == [] {
      assert a + b == a;
    } else {
      var init := b[..|b| - 1];
      assert (a + b)[..|a + b| - 1] == a + init;
      UsdtPricesAppend(a, init);
    }
  }

  /** The same for the change filter. */
  lemma {:induction false} ParsedChangesAppend(a: seq<RawTicker>, b: seq<RawTicker>)
    ensures ParsedChanges(a + b) == ParsedChanges(a) + ParsedChanges(b)
    decreases |b|
  {
    if b == [] {
      assert a + b == a;
    } else {
      var init := b[..|b| - 1];
      assert (a + b)[..|a + b| - 1] == a + init;
      ParsedChangesAppend(a, init);
    }
  }

  /** `x` is what the price entry `p` is listed as. */
  predicate ListedAs(p: RawPrice, x: USDTPrice) {
    IsUsdtPair(p.symbol) && x == ToUsdtPrice(p)
  }

  /**
   * An entry is in the price response exactly when it is a USDT pair of the
   * listing, with its parsed price or 0.
   */
  lemma {:induction false} UsdtPricesMembers(prices: seq<RawPrice>, x: USDTPrice)
    ensures x in UsdtPrices(prices) <==> exists i :: 0 <= i < |prices| && ListedAs(prices[i], x)
  {
    if prices != [] {
      var n := |prices| - 1;
      var init := prices[..n];
      var tail := if IsUsdtPair(prices[n].symbol) then [ToUsdtPrice(prices[n])] else [];
      assert UsdtPrices(prices) == UsdtPrices(init) + tail;
      assert x in tail <==> ListedAs(prices[n], x);
      UsdtPricesMembers(init, x);
      if exists i :: 0 <= i < |prices| && ListedAs(prices[i], x) {
        var i :| 0 <= i < |prices| && ListedAs(prices[i], x);
        if i < n {
          assert init[i] == prices[i];
        }
      }
      if x in UsdtPrices(init) {
        var i :| 0 <= i < n && ListedAs(init[i], x);
        assert prices[i] == init[i];
      }
    }
  }

  /** `x` is what the ticker `t` is listed as. */
  predicate ParsedAs(t: RawTicker, x: ChangePercent) {
    t.symbol == x.symbol && t.priceChangePercent == Some(x.changePercent)
  }

  /**
   * A change entry is in the response exactly when some ticker of the
   * listing has that symbol and a change percent that parsed to it; the
   * symbol is not filtered.
   */
  lemma {:induction false} ParsedChangesMembers(tickers: seq<RawTicker>, x: ChangePercent)
    ensures x in ParsedChanges(tickers) <==> exists i :: 0 <= i < |tickers| && ParsedAs(tickers[i], x)
  {
    if tickers != [] {
      var n := |tickers| - 1;
      var init := tickers[..n];
      var tail := match tickers[n].priceChangePercent
        case Some(change) => [ChangePercent(tickers[n].symbol, change)]
        case None => [];
      assert ParsedChanges(tickers) == ParsedChanges(init) + tail;
      assert x in tail <==> ParsedAs(tickers[n], x);
      ParsedChangesMembers(init, x);
      if exists i :: 0 <= i < |tickers| && ParsedAs(tickers[i], x) {
        var i :| 0 <= i < |tickers| && ParsedAs(tickers[i], x);
        if i < n {
          assert init[i] == tickers[i];
        }
      }
      if x in ParsedChanges(init) {
        var i :| 0 <= i < n && ParsedAs(init[i], x);
        assert tickers[i] == init[i];
      }
    }
  }

  /** A USDT pair whose price does not parse is still listed, at price 0. */
  lemma UnparseablePriceKeptAsZero(before: seq<RawPrice>, symbol: string, after: seq<RawPrice>)
    requires IsUsdtPair(symbol)
    ensures USDTPrice(symbol, 0.0) in UsdtPrices(before + [RawPrice(symbol, None)] + after)
  {
    UsdtPricesAppend(before + [RawPrice(symbol, None)], after);
    UsdtPricesAppend(before, [RawPrice(symbol, None)]);
    assert UsdtPrices([RawPrice(symbol, None)]) == [USDTPrice(symbol, 0.0)] by {
      assert [RawPrice(symbol, None)][..0] == [];
    }
  }

  /** A ticker whose change does not parse contributes nothing, wherever it stands. */
  lemma UnparseableChangeDropped(before: seq<RawTicker>, symbol: string, after: seq<RawTicker>)
    ensures ParsedChanges(before + [RawTicker(symbol, None)] + after) == ParsedChanges(before) + ParsedChanges(after)
  {
    ParsedChangesAppend(before + [RawTicker(symbol, None)], after);
    ParsedChangesAppend(before, [RawTicker(symbol, None)]);
    assert ParsedChanges([RawTicker(symbol, None)]) == [] by {
      assert [RawTicker(symbol, None)][..0] == [];
    }
  }
}
