/**
 * The tracked-symbol registry: a map from a trading-pair symbol to what is
 * known about it since it first qualified. The registry's lock is left out;
 * every operation is one sequential step.
 */
module Tracker {
  import opened Results

  /**
   * One tracked symbol. `priceChange` is the last price written into the
   * record, kept as Go keeps it (a formatted price, or "" when the price
   * snapshot had no entry for the symbol, here `None`); `firstPriceChange`
   * is the price at qualification, the pump baseline. Times are
   * nanoseconds; `lastMessageSentAt == None` is Go's zero `time.Time`.
   */
  datatype SymbolChange = SymbolChange(
    symbol: string,
    priceChange: Option<real>,
    firstPriceChange: real,
    priceChangePct: real,
    addedAt: int,
    lastMessageSentAt: Option<int>,
    notificationOfPump: bool)

  /** The key a record is filed and listed under. */
  function SymbolOf(r: SymbolChange): string { r.symbol }

  /** The key the digests are sorted by. */
  function ChangePctOf(r: SymbolChange): real { r.priceChangePct }

  /** Every record is filed under its own symbol. */
  ghost predicate FiledUnderOwnSymbol(m: map<string, SymbolChange>) {
    forall k :: k in m ==> m[k].symbol == k
  }

  class Tracker {
    var trackedSymbols: map<string, SymbolChange>

    ghost predicate Valid()
      reads this
    {
      FiledUnderOwnSymbol(trackedSymbols)
    }

    /** `NewTracker`: an empty registry. */
    constructor ()
      ensures Valid()
      ensures trackedSymbols == map[]
    {
      trackedSymbols := map[];
    }

    /** True exactly when `symbol` is a key of the registry. */
    method IsTracked(symbol: string) returns (ok: bool)
      ensures ok <==> symbol in trackedSymbols
    {
      ok := symbol in trackedSymbols;
    }

    /** Insert-or-replace: the record is filed under its own symbol, wholesale. */
    method UpdateTrackedSymbol(symbolChange: SymbolChange)
      requires Valid()
      modifies this
      ensures Valid()
      ensures trackedSymbols == old(trackedSymbols)[symbolChange.symbol := symbolChange]
    {
      trackedSymbols := trackedSymbols[symbolChange.symbol := symbolChange];
    }

    /** Deletes `symbol`; a no-op when it is not tracked. */
    method RemoveTrackedSymbol(symbol: string)
      requires Valid()
      modifies this
      ensures Valid()
      ensures trackedSymbols == old(trackedSymbols) - {symbol}
    {
      trackedSymbols := trackedSymbols - {symbol};
    }

    /**
     * A copy of the registry, built entry by entry. The copy is a value:
     * later updates of the registry do not reach it.
     */
    method GetTrackedSymbols() returns (copied: map<string, SymbolChange>)
      ensures copied == trackedSymbols
    {
      copied := map[];
      var pending := trackedSymbols.Keys;
      while pending != {}
        invariant pending <= trackedSymbols.Keys
        invariant copied.Keys == trackedSymbols.Keys - pending
        invariant forall k :: k in copied ==> copied[k] == trackedSymbols[k]
        decreases |pending|
      {
        var k :| k in pending;
        copied := copied[k := trackedSymbols[k]];
        pending := pending - {k};
      }
    }

    /**
     * Stamps `lastMessageSentAt := now` on a tracked symbol; an untracked
     * symbol leaves the registry as it was.
     */
    method MarkMessageSent(symbol: string, now: int)
      requires Valid()
      modifies this
      ensures Valid()
      ensures symbol in old(trackedSymbols) ==>
        trackedSymbols == old(trackedSymbols)[symbol := old(trackedSymbols)[symbol].(lastMessageSentAt := Some(now))]
      ensures symbol !in old(trackedSymbols) ==> trackedSymbols == old(trackedSymbols)
    {
      if symbol in trackedSymbols {
        var trackedSymbol := trackedSymbols[symbol];
        trackedSymbols := trackedSymbols[symbol := trackedSymbol.(lastMessageSentAt := Some(now))];
      }
    }
  }

  /** A copy taken before an update keeps the old contents. */
  method SnapshotIsIsolated(t: Tracker, symbol: string) returns (before: map<string, SymbolChange>)
    requires t.Valid()
    modifies t
    ensures before == old(t.trackedSymbols)
    ensures t.trackedSymbols == before - {symbol}
  {
    before := t.GetTrackedSymbols();
    t.RemoveTrackedSymbol(symbol);
  }
}
