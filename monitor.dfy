/**
 * The monitoring loop's work, one tick at a time: the detection tick
 * (`processTicker`) and the status-digest tick (`processNotifyTicker`),
 * over the registry object, proved against module Detection. The
 * ticker/select loop, logging and the Telegram client are left out: the
 * snapshots and the send outcomes are parameters and the messages are
 * results.
 */
module Monitor {
  import opened Results
  import opened Proto
  import opened Tracker
  import opened Sorting
  import opened GoStrings
  import opened Detection
  import opened DetectionProperties
  import Telegram

  /** `getPriceForSymbol`: the price of the first entry about `symbol`, or none. */
  method GetPriceForSymbol(symbol: string, prices: seq<USDTPrice>) returns (price: Option<real>)
    ensures price == PriceFor(symbol, prices)
  {
    var i := 0;
    while i < |prices|
      invariant 0 <= i <= |prices|
      invariant NoPriceFor(symbol, prices[..i])
    {
      if prices[i].symbol == symbol {
        return Some(prices[i].price);
      }
      i := i + 1;
    }
    assert prices[..i] == prices;
    return None;
  }

  /** `Symbol[:len(Symbol)-4]`: the pair name without its quote asset. */
  function BaseAsset(symbol: string): string
    requires |symbol| >= 4
  {
    symbol[..|symbol| - 4]
  }

  /** Stripping the quote asset undoes appending "USDT". */
  lemma BaseAssetOfPair(base: string)
    ensures BaseAsset(base + "USDT") == base
    ensures HasSuffix(base + "USDT", "USDT")
  {
    assert (base + "USDT")[..|base|] == base;
  }

  /** The displayed price: trailing zeros, then trailing dots, removed. */
  function TrimPrice(price: string): string {
    TrimRight(TrimRight(price, '0'), '.')
  }

  /** The zeros that end a decimal are those that end its fraction. */
  lemma TrimZerosOfDecimal(intPart: string, fraction: string)
    ensures TrimRight(intPart + "." + fraction, '0') == intPart + "." + TrimRight(fraction, '0')
  {
    TrimRightAppend(intPart + ".", fraction, '0');
    TrimRightAppend(intPart, ".", '0');
    assert TrimRight(".", '0') == ".";
    if TrimRight(fraction, '0') == [] {
      assert intPart + "." + [] == intPart + ".";
    }
  }

  /** A decimal point is trimmed only when it ends the string. */
  lemma TrimPointOfDecimal(intPart: string, fraction: string)
    requires forall i :: 0 <= i < |intPart| ==> intPart[i] != '.'
    requires forall i :: 0 <= i < |fraction| ==> fraction[i] != '.'
    ensures TrimRight(intPart + "." + fraction, '.') == if fraction == [] then intPart else intPart + "." + fraction
  {
    if fraction == [] {
      assert intPart + "." + fraction == intPart + ".";
      TrimRightAppend(intPart, ".", '.');
      assert TrimRight(".", '.') == [];
      TrimRightWithout(intPart, '.');
    } else {
      TrimRightAppend(intPart + ".", fraction, '.');
      TrimRightWithout(fraction, '.');
    }
  }

  /**
   * On a decimal "INT.FRAC" the trim drops the zeros that end the fraction,
   * and the point too when nothing of the fraction is left.
   */
  lemma TrimPriceOfDecimal(intPart: string, fraction: string)
    requires forall i :: 0 <= i < |intPart| ==> intPart[i] != '.'
    requires forall i :: 0 <= i < |fraction| ==> fraction[i] != '.'
    ensures TrimPrice(intPart + "." + fraction) ==
      if TrimRight(fraction, '0') == [] then intPart else intPart + "." + TrimRight(fraction, '0')
  {
    var f := TrimRight(fraction, '0');
    TrimZerosOfDecimal(intPart, fraction);
    forall i | 0 <= i < |f| ensures f[i] != '.' {
      assert f[i] == fraction[..|f|][i];
    }
    TrimPointOfDecimal(intPart, f);
  }

  /** The qualification pass: tracks each untracked symbol whose change reaches the threshold. */
  method QualifyPass(t: Tracker, prices: seq<USDTPrice>, changes: seq<ChangePercent>, threshold: real, now: int)
    returns (newlyTracked: seq<SymbolChange>)
    requires t.Valid()
    modifies t
    ensures t.Valid()
    ensures Qualify(old(t.trackedSymbols), prices, changes, threshold, now) == Qualified(t.trackedSymbols, newlyTracked)
  {
    newlyTracked := [];
    for i := 0 to |prices|
      invariant t.Valid()
      invariant Qualify(old(t.trackedSymbols), prices[..i], changes, threshold, now) == Qualified(t.trackedSymbols, newlyTracked)
    {
      var price := prices[i];
      var change := FindChange(price.symbol, changes);
      var tracked := t.IsTracked(price.symbol);
      if change >= threshold && !tracked {
        var newSymbol := SymbolChange(price.symbol, Some(price.price), price.price, change, now, None, false);
        t.UpdateTrackedSymbol(newSymbol);
        newlyTracked := newlyTracked + [newSymbol];
      }
      QualifyLast(old(t.trackedSymbols), prices, i, changes, threshold, now);
    }
    assert prices[..|prices|] == prices;
  }

  /** The eviction pass: removes each tracked symbol whose change is at or below the threshold. */
  method EvictPass(t: Tracker, changes: seq<ChangePercent>, threshold: real)
    requires t.Valid()
    modifies t
    ensures t.Valid()
    ensures t.trackedSymbols == Evict(old(t.trackedSymbols), changes, threshold)
  {
    var snapshot := t.GetTrackedSymbols();
    var pending := snapshot.Keys;
    while pending != {}
      invariant t.Valid()
      invariant pending <= snapshot.Keys
      invariant t.trackedSymbols == map k | k in snapshot && (k in pending || ChangeFor(k, changes) > threshold) :: snapshot[k]
      decreases |pending|
    {
      var symbol :| symbol in pending;
      var change24h := FindChange(symbol, changes);
      if change24h <= threshold {
        t.RemoveTrackedSymbol(symbol);
      }
      pending := pending - {symbol};
    }
  }

  /**
   * The pump test on one tracked record: whether it fires, the alert it
   * makes, and the record marked notified when it fired and the alert was
   * delivered.
   */
  method CheckPump(t: Tracker, symbolChange: SymbolChange, prices: seq<USDTPrice>, now: int, waitTime: int,
                   pumpPercent: real, recipient: int, delivered: set<string>)
    returns (fired: bool, alert: PumpAlert)
    requires t.Valid()
    requires symbolChange.symbol in t.trackedSymbols && t.trackedSymbols[symbolChange.symbol] == symbolChange
    modifies t
    ensures t.Valid()
    ensures fired == PumpFires(symbolChange, CurrentPrice(symbolChange.symbol, prices), now, waitTime, pumpPercent)
    ensures alert == AlertFor(symbolChange, prices, recipient)
    ensures t.trackedSymbols == old(t.trackedSymbols)[symbolChange.symbol :=
              if fired && symbolChange.symbol in delivered then symbolChange.(notificationOfPump := true) else symbolChange]
  {
    var symbol := symbolChange.symbol;
    var currentPrice := GetPriceForSymbol(symbol, prices);
    var currentPriceFloat := Parsed(currentPrice);
    var previousPriceFloat := symbolChange.firstPriceChange;
    alert := PumpAlert(recipient, symbol, currentPriceFloat, symbolChange.priceChangePct, previousPriceFloat);
    fired := false;
    if && !symbolChange.notificationOfPump
       && now - symbolChange.addedAt <= waitTime
       && previousPriceFloat > 0.0
       && currentPriceFloat / previousPriceFloat - 1.0 >= pumpPercent
    {
      fired := true;
      if symbol in delivered {
        t.UpdateTrackedSymbol(symbolChange.(notificationOfPump := true));
      }
    }
  }

  /**
   * Progress of the pump pass over the snapshot `m`: the symbols taken out
   * of `pending` have their pumped record in `current` and, when they fired,
   * exactly one alert in `alerts`.
   */
  ghost predicate PumpProgress(m: map<string, SymbolChange>, pending: set<string>, current: map<string, SymbolChange>,
                               alerts: seq<PumpAlert>, prices: seq<USDTPrice>, now: int, waitTime: int,
                               pumpPercent: real, recipient: int, delivered: set<string>)
  {
    && pending <= m.Keys
    && current == Merged(m, pending, Pumped(m, prices, now, waitTime, pumpPercent, delivered))
    && ListsExactly(alerts, AlertSymbol, Firing(m, prices, now, waitTime, pumpPercent) - pending)
    && (forall i :: 0 <= i < |alerts| ==> alerts[i].symbol in m && alerts[i] == AlertFor(m[alerts[i].symbol], prices, recipient))
  }

  /** Checking one more pending symbol, as `CheckPump` does, keeps the pass's progress. */
  lemma PumpProgressStep(m: map<string, SymbolChange>, pending: set<string>, current: map<string, SymbolChange>,
                         alerts: seq<PumpAlert>, prices: seq<USDTPrice>, now: int, waitTime: int, pumpPercent: real,
                         recipient: int, delivered: set<string>, symbol: string, fired: bool, alert: PumpAlert)
    requires FiledUnderOwnSymbol(m)
    requires PumpProgress(m, pending, current, alerts, prices, now, waitTime, pumpPercent, recipient, delivered)
    requires symbol in pending
    requires fired == PumpFires(m[symbol], CurrentPrice(symbol, prices), now, waitTime, pumpPercent)
    requires alert == AlertFor(m[symbol], prices, recipient)
    ensures current[symbol] == m[symbol]
    ensures PumpProgress(m, pending - {symbol},
                         current[symbol := if fired && symbol in delivered then m[symbol].(notificationOfPump := true) else m[symbol]],
                         if fired then alerts + [alert] else alerts, prices, now, waitTime, pumpPercent, recipient, delivered)
  {
    var firing := Firing(m, prices, now, waitTime, pumpPercent);
    MergedStep(m, pending, Pumped(m, prices, now, waitTime, pumpPercent, delivered), symbol);
    assert fired <==> symbol in firing;
    if fired {
      assert AlertSymbol(alert) == symbol;
      ListsOneMore(alerts, AlertSymbol, firing, pending, alert);
    } else {
      ListsSkipping(alerts, AlertSymbol, firing, pending, symbol);
    }
  }

  /** Before the pump pass nothing is checked yet. */
  lemma PumpProgressStart(m: map<string, SymbolChange>, prices: seq<USDTPrice>, now: int, waitTime: int,
                          pumpPercent: real, recipient: int, delivered: set<string>)
    ensures PumpProgress(m, m.Keys, m, [], prices, now, waitTime, pumpPercent, recipient, delivered)
  {
    assert Merged(m, m.Keys, Pumped(m, prices, now, waitTime, pumpPercent, delivered)) == m;
  }

  /** With nothing pending, the pump pass has its whole effect. */
  lemma PumpProgressDone(m: map<string, SymbolChange>, current: map<string, SymbolChange>, alerts: seq<PumpAlert>,
                         prices: seq<USDTPrice>, now: int, waitTime: int, pumpPercent: real, recipient: int,
                         delivered: set<string>)
    requires PumpProgress(m, {}, current, alerts, prices, now, waitTime, pumpPercent, recipient, delivered)
    ensures current == Pumped(m, prices, now, waitTime, pumpPercent, delivered)
    ensures ListsExactly(alerts, AlertSymbol, Firing(m, prices, now, waitTime, pumpPercent))
    ensures forall i :: 0 <= i < |alerts| ==> alerts[i].symbol in m && alerts[i] == AlertFor(m[alerts[i].symbol], prices, recipient)
  {
    var firing := Firing(m, prices, now, waitTime, pumpPercent);
    assert firing - {} == firing;
    assert Merged(m, {}, Pumped(m, prices, now, waitTime, pumpPercent, delivered)) == Pumped(m, prices, now, waitTime, pumpPercent, delivered);
  }

  /**
   * The pump pass: alerts the second chat about each symbol that passes the
   * pump test, and marks it notified when that send succeeded (`delivered`).
   */
  method PumpPass(t: Tracker, prices: seq<USDTPrice>, now: int, waitTime: int, pumpPercent: real,
                  recipient: int, delivered: set<string>)
    returns (alerts: seq<PumpAlert>)
    requires t.Valid()
    modifies t
    ensures t.Valid()
    ensures t.trackedSymbols == Pumped(old(t.trackedSymbols), prices, now, waitTime, pumpPercent, delivered)
    ensures ListsExactly(alerts, AlertSymbol, Firing(old(t.trackedSymbols), prices, now, waitTime, pumpPercent))
    ensures forall i :: 0 <= i < |alerts| ==>
              alerts[i].symbol in old(t.trackedSymbols) &&
              alerts[i] == AlertFor(old(t.trackedSymbols)[alerts[i].symbol], prices, recipient)
  {
    var snapshot := t.GetTrackedSymbols();
    alerts := [];
    var pending := snapshot.Keys;
    PumpProgressStart(snapshot, prices, now, waitTime, pumpPercent, recipient, delivered);
    while pending != {}
      invariant t.Valid()
      invariant PumpProgress(snapshot, pending, t.trackedSymbols, alerts, prices, now, waitTime, pumpPercent, recipient, delivered)
      decreases |pending|
    {
      var symbol :| symbol in pending;
      PumpProgressStep(snapshot, pending, t.trackedSymbols, alerts, prices, now, waitTime, pumpPercent, recipient,
                       delivered, symbol, PumpFires(snapshot[symbol], CurrentPrice(symbol, prices), now, waitTime, pumpPercent),
                       AlertFor(snapshot[symbol], prices, recipient));
      var fired, alert := CheckPump(t, snapshot[symbol], prices, now, waitTime, pumpPercent, recipient, delivered);
      if fired {
        alerts := alerts + [alert];
      }
      pending := pending - {symbol};
    }
    PumpProgressDone(snapshot, t.trackedSymbols, alerts, prices, now, waitTime, pumpPercent, recipient, delivered);
  }

  /** `m` with the symbols outside `pending` replaced by their entries in `updated`. */
  ghost function Merged(m: map<string, SymbolChange>, pending: set<string>, updated: map<string, SymbolChange>): map<string, SymbolChange>
    requires m.Keys <= updated.Keys
  {
    map k | k in m :: if k in pending then m[k] else updated[k]
  }

  /** One more symbol taken out of `pending` takes its updated entry. */
  lemma MergedStep(m: map<string, SymbolChange>, pending: set<string>, updated: map<string, SymbolChange>, symbol: string)
    requires m.Keys <= updated.Keys
    requires symbol in pending && pending <= m.Keys
    ensures Merged(m, pending, updated)[symbol := updated[symbol]] == Merged(m, pending - {symbol}, updated)
  {
  }

  /** The records of `m` gathered into a slice, in the map's iteration order. */
  method ListRecords(m: map<string, SymbolChange>) returns (s: seq<SymbolChange>)
    requires FiledUnderOwnSymbol(m)
    ensures IsListing(s, m)
  {
    s := [];
    var pending := m.Keys;
    while pending != {}
      invariant pending <= m.Keys
      invariant ListsExactly(s, SymbolOf, m.Keys - pending)
      invariant forall i :: 0 <= i < |s| ==> s[i].symbol in m && m[s[i].symbol] == s[i]
      decreases |pending|
    {
      var symbol :| symbol in pending;
      ListsOneMore(s, SymbolOf, m.Keys, pending, m[symbol]);
      s := s + [m[symbol]];
      pending := pending - {symbol};
    }
    assert m.Keys - pending == m.Keys;
  }

  /**
   * `processTicker`: one detection tick. A failed snapshot fetch leaves the
   * registry alone and sends nothing. Otherwise the registry goes through
   * qualification, eviction and the pump pass; the newly tracked records,
   * sorted by change, make the digest for the first chat (none when there
   * are none); the pump alerts go to the second chat. New records are
   * stamped `now`; the pump test reads the clock again after the digest is
   * sent, at `checkedAt`.
   */
  method ProcessTicker(t: Tracker, chatState: Telegram.ChatState, changePercent24: Telegram.ChangePercent24,
                       pumpSettings: Telegram.PumpSettings, usdtPrices: Result<seq<USDTPrice>>,
                       changePercent: Result<seq<ChangePercent>>, now: int, checkedAt: int, delivered: set<string>)
    returns (reported: seq<SymbolChange>, digest: Option<Digest>, alerts: seq<PumpAlert>)
    requires t.Valid()
    requires now <= checkedAt
    modifies t
    ensures t.Valid()
    ensures usdtPrices.Err? || changePercent.Err? ==>
              t.trackedSymbols == old(t.trackedSymbols) && reported == [] && digest == None && alerts == []
    ensures usdtPrices.Ok? && changePercent.Ok? ==>
              var prices, changes, threshold := usdtPrices.value, changePercent.value, changePercent24.percent;
              var q := Qualify(old(t.trackedSymbols), prices, changes, threshold, now);
              var evicted := Evict(q.tracked, changes, threshold);
              && t.trackedSymbols == Pumped(evicted, prices, checkedAt, pumpSettings.waitTime, pumpSettings.pumpPercent, delivered)
              && IsListing(reported, Added(q, old(t.trackedSymbols)))
              && DescendingBy(reported, ChangePctOf)
              && digest == (if reported == [] then None else Some(Digest(chatState.firstChatID, NewLines(reported))))
              && ListsExactly(alerts, AlertSymbol, Firing(evicted, prices, checkedAt, pumpSettings.waitTime, pumpSettings.pumpPercent))
              && (forall i :: 0 <= i < |alerts| ==>
                    alerts[i].symbol in evicted &&
                    alerts[i] == AlertFor(evicted[alerts[i].symbol], prices, chatState.secondChatID))
  {
    reported, digest, alerts := [], None, [];
    var chatID := chatState.GetFirstChatID();
    var secondChatID := chatState.GetSecondChatID();
    if usdtPrices.Err? || changePercent.Err? {
      return;
    }
    var prices, changes := usdtPrices.value, changePercent.value;
    var threshold := changePercent24.GetPercent();
    var waitTime := pumpSettings.GetWaitTime();
    var pumpPercent := pumpSettings.GetPumpPercent();

    ghost var before := t.trackedSymbols;
    var newTrackedSymbols := QualifyPass(t, prices, changes, threshold, now);
    QualifyReportsAdded(before, prices, changes, threshold, now);
    reported := SortedBy(newTrackedSymbols, ChangePctOf);
    PermutedListing(newTrackedSymbols, reported, Added(Qualify(before, prices, changes, threshold, now), before));
    if |reported| > 0 {
      digest := Some(Digest(chatID, NewLines(reported)));
    }

    EvictPass(t, changes, threshold);
    alerts := PumpPass(t, prices, checkedAt, waitTime, pumpPercent, secondChatID, delivered);
  }

  /**
   * The status line of one tracked record, whose stored price then becomes
   * the current one.
   */
  method ReportStatus(t: Tracker, symbolChange: SymbolChange, prices: seq<USDTPrice>, changes: seq<ChangePercent>)
    returns (line: Line)
    requires t.Valid()
    requires symbolChange.symbol in t.trackedSymbols && t.trackedSymbols[symbolChange.symbol] == symbolChange
    modifies t
    ensures t.Valid()
    ensures line == StatusLine(symbolChange, prices, changes)
    ensures t.trackedSymbols == old(t.trackedSymbols)[symbolChange.symbol :=
              symbolChange.(priceChange := PriceFor(symbolChange.symbol, prices))]
  {
    var currentPrice := GetPriceForSymbol(symbolChange.symbol, prices);
    var change24h := FindChange(symbolChange.symbol, changes);
    var currentPriceFloat := Parsed(currentPrice);
    var previousPriceFloat := Parsed(symbolChange.priceChange);
    var emoji;
    if currentPriceFloat > previousPriceFloat {
      emoji := ChartUp;
    } else if currentPriceFloat < previousPriceFloat {
      emoji := ChartDown;
    } else {
      emoji := Diamond;
    }
    line := Line(emoji, symbolChange.symbol, currentPrice, change24h);
    t.UpdateTrackedSymbol(symbolChange.(priceChange := currentPrice));
  }

  /** Of the listing `sorted`, the first `i` records are done and the rest still `pending`. */
  ghost predicate ListingProgress(m: map<string, SymbolChange>, sorted: seq<SymbolChange>, i: nat, pending: set<string>) {
    && i <= |sorted|
    && pending <= m.Keys
    && (forall j :: 0 <= j < i ==> sorted[j].symbol !in pending)
    && (forall j :: i <= j < |sorted| ==> sorted[j].symbol in pending)
  }

  /** The first `i` status lines are those of the first `i` records. */
  ghost predicate LinesProgress(sorted: seq<SymbolChange>, i: nat, lines: seq<Line>,
                                prices: seq<USDTPrice>, changes: seq<ChangePercent>)
    requires i <= |sorted|
  {
    && |lines| == i
    && (forall j :: 0 <= j < i ==> lines[j] == StatusLine(sorted[j], prices, changes))
  }

  /**
   * Progress of the status pass over the listing `sorted` of `m`: the first
   * `i` records have their line in `lines` and their refreshed record in
   * `current`; the rest are still `pending`.
   */
  ghost predicate RefreshProgress(m: map<string, SymbolChange>, sorted: seq<SymbolChange>, i: nat, pending: set<string>,
                                  current: map<string, SymbolChange>, lines: seq<Line>,
                                  prices: seq<USDTPrice>, changes: seq<ChangePercent>)
  {
    && ListingProgress(m, sorted, i, pending)
    && current == Merged(m, pending, Refreshed(m, prices))
    && LinesProgress(sorted, i, lines, prices, changes)
  }

  /** The next record of the listing is pending, and then done. */
  lemma ListingStep(m: map<string, SymbolChange>, sorted: seq<SymbolChange>, i: nat, pending: set<string>)
    requires IsListing(sorted, m)
    requires ListingProgress(m, sorted, i, pending)
    requires i < |sorted|
    ensures sorted[i].symbol in pending && m[sorted[i].symbol] == sorted[i]
    ensures ListingProgress(m, sorted, i + 1, pending - {sorted[i].symbol})
  {
    var symbol := sorted[i].symbol;
    forall j | i + 1 <= j < |sorted| ensures sorted[j].symbol in pending - {symbol} {
      assert SymbolOf(sorted[i]) != SymbolOf(sorted[j]);
    }
  }

  /** One more status line. */
  lemma LinesStep(sorted: seq<SymbolChange>, i: nat, lines: seq<Line>, prices: seq<USDTPrice>, changes: seq<ChangePercent>)
    requires i < |sorted|
    requires LinesProgress(sorted, i, lines, prices, changes)
    ensures LinesProgress(sorted, i + 1, lines + [StatusLine(sorted[i], prices, changes)], prices, changes)
  {
  }

  /** Reporting the next record of the listing keeps the status pass's progress. */
  lemma RefreshProgressStep(m: map<string, SymbolChange>, sorted: seq<SymbolChange>, i: nat, pending: set<string>,
                            current: map<string, SymbolChange>, lines: seq<Line>,
                            prices: seq<USDTPrice>, changes: seq<ChangePercent>)
    requires IsListing(sorted, m)
    requires RefreshProgress(m, sorted, i, pending, current, lines, prices, changes)
    requires i < |sorted|
    ensures sorted[i].symbol in current && current[sorted[i].symbol] == sorted[i]
    ensures RefreshProgress(m, sorted, i + 1, pending - {sorted[i].symbol},
                            current[sorted[i].symbol := sorted[i].(priceChange := PriceFor(sorted[i].symbol, prices))],
                            lines + [StatusLine(sorted[i], prices, changes)], prices, changes)
  {
    var symbol := sorted[i].symbol;
    ListingStep(m, sorted, i, pending);
    LinesStep(sorted, i, lines, prices, changes);
    assert Refreshed(m, prices)[symbol] == sorted[i].(priceChange := PriceFor(symbol, prices));
    MergedStep(m, pending, Refreshed(m, prices), symbol);
  }

  /** Once the whole listing is reported, every record is refreshed. */
  lemma RefreshProgressDone(m: map<string, SymbolChange>, sorted: seq<SymbolChange>, pending: set<string>,
                            current: map<string, SymbolChange>, lines: seq<Line>,
                            prices: seq<USDTPrice>, changes: seq<ChangePercent>)
    requires IsListing(sorted, m)
    requires RefreshProgress(m, sorted, |sorted|, pending, current, lines, prices, changes)
    ensures current == Refreshed(m, prices)
    ensures lines == StatusLines(sorted, prices, changes)
  {
    assert pending == {};
    assert Merged(m, pending, Refreshed(m, prices)) == Refreshed(m, prices);
  }

  /**
   * The status pass: a line for each record of the listing, in its order,
   * and each record's stored price replaced by the current one.
   */
  method ReportAndRefresh(t: Tracker, sorted: seq<SymbolChange>, prices: seq<USDTPrice>, changes: seq<ChangePercent>)
    returns (lines: seq<Line>)
    requires t.Valid()
    requires IsListing(sorted, t.trackedSymbols)
    modifies t
    ensures t.Valid()
    ensures t.trackedSymbols == Refreshed(old(t.trackedSymbols), prices)
    ensures lines == StatusLines(sorted, prices, changes)
  {
    ghost var m := t.trackedSymbols;
    ghost var pending := m.Keys;
    lines := [];
    assert RefreshProgress(m, sorted, 0, pending, t.trackedSymbols, lines, prices, changes) by {
      assert Merged(m, pending, Refreshed(m, prices)) == m;
    }
    for i := 0 to |sorted|
      invariant t.Valid()
      invariant RefreshProgress(m, sorted, i, pending, t.trackedSymbols, lines, prices, changes)
    {
      RefreshProgressStep(m, sorted, i, pending, t.trackedSymbols, lines, prices, changes);
      var line := ReportStatus(t, sorted[i], prices, changes);
      lines := lines + [line];
      pending := pending - {sorted[i].symbol};
    }
    RefreshProgressDone(m, sorted, pending, t.trackedSymbols, lines, prices, changes);
  }

  /**
   * `processNotifyTicker`: the status digest. A failed snapshot fetch
   * changes nothing. Otherwise every tracked record, sorted by change, gets
   * a line comparing the current price with its stored one, and its stored
   * price becomes the current price; nothing else in the registry changes.
   */
  method ProcessNotifyTicker(t: Tracker, chatState: Telegram.ChatState, usdtPrices: Result<seq<USDTPrice>>,
                             changePercent: Result<seq<ChangePercent>>)
    returns (sortedSymbols: seq<SymbolChange>, digest: Option<Digest>)
    requires t.Valid()
    modifies t
    ensures t.Valid()
    ensures usdtPrices.Err? || changePercent.Err? ==>
              t.trackedSymbols == old(t.trackedSymbols) && sortedSymbols == [] && digest == None
    ensures usdtPrices.Ok? && changePercent.Ok? ==>
              && t.trackedSymbols == Refreshed(old(t.trackedSymbols), usdtPrices.value)
              && IsListing(sortedSymbols, old(t.trackedSymbols))
              && DescendingBy(sortedSymbols, ChangePctOf)
              && digest == (if sortedSymbols == [] then None
                            else Some(Digest(chatState.firstChatID, StatusLines(sortedSymbols, usdtPrices.value, changePercent.value))))
  {
    sortedSymbols, digest := [], None;
    var chatID := chatState.GetFirstChatID();
    if usdtPrices.Err? || changePercent.Err? {
      return;
    }
    var prices, changes := usdtPrices.value, changePercent.value;

    var trackedSymbols := t.GetTrackedSymbols();
    var listed := ListRecords(trackedSymbols);
    sortedSymbols := SortedBy(listed, ChangePctOf);
    PermutedListing(listed, sortedSymbols, trackedSymbols);

    var lines := ReportAndRefresh(t, sortedSymbols, prices, changes);
    if |lines| > 0 {
      digest := Some(Digest(chatID, lines));
    }
  }
}
