/**
 * What one tick of the price monitor does to the registry, written as
 * functions of the registry and the two snapshots: the qualification pass,
 * the eviction pass, the pump pass, and the status refresh of the slower
 * digest tick; with the lines of the two digests and the pump alerts. The
 * imperative passes in module Monitor are proved against these.
 */
module Detection {
  import opened Results
  import opened Proto
  import opened Tracker
  import opened Sorting

  /** No entry of `prices` is about `symbol`. */
  predicate NoPriceFor(symbol: string, prices: seq<USDTPrice>) {
    forall i :: 0 <= i < |prices| ==> prices[i].symbol != symbol
  }

  /**
   * The price `getPriceForSymbol` finds for `symbol`: that of the first entry
   * about it; `None` stands for the empty string it returns otherwise.
   */
  function PriceFor(symbol: string, prices: seq<USDTPrice>): (r: Option<real>)
    ensures r.None? <==> NoPriceFor(symbol, prices)
    ensures forall i :: 0 <= i < |prices| && prices[i].symbol == symbol && NoPriceFor(symbol, prices[..i]) ==>
      r == Some(prices[i].price)
  {
    if prices == [] then None
    else if prices[0].symbol == symbol then Some(prices[0].price)
    else
      var r := PriceFor(symbol, prices[1..]);
      assert forall i :: 1 <= i < |prices| && NoPriceFor(symbol, prices[..i]) ==>
        NoPriceFor(symbol, prices[1..][..i - 1])
      by {
        forall i | 1 <= i < |prices| && NoPriceFor(symbol, prices[..i])
          ensures NoPriceFor(symbol, prices[1..][..i - 1])
        {
          var tail := prices[1..][..i - 1];
          forall j | 0 <= j < |tail| ensures tail[j].symbol != symbol {
            assert tail[j] == prices[..i][j + 1];
          }
        }
      }
      r
  }

  /**
   * `strconv.ParseFloat` of a stored price with its error ignored: a
   * formatted price reads back as itself, the empty string as 0.
   */
  function Parsed(price: Option<real>): real {
    price.GetOr(0.0)
  }

  /** The current price the pump pass compares against the baseline. */
  function CurrentPrice(symbol: string, prices: seq<USDTPrice>): real {
    Parsed(PriceFor(symbol, prices))
  }

  // ---------------------------------------------------------------------
  // Qualification pass

  /** The record a qualifying price entry is tracked with. */
  function NewRecord(p: USDTPrice, change: real, now: int): SymbolChange {
    SymbolChange(p.symbol, Some(p.price), p.price, change, now, None, false)
  }

  /** The registry after the pass, and the records it added, in insertion order. */
  datatype Qualified = Qualified(tracked: map<string, SymbolChange>, newlyTracked: seq<SymbolChange>)

  /** One price entry: tracked when untracked and its change reaches the threshold. */
  function QualifyEntry(q: Qualified, p: USDTPrice, changes: seq<ChangePercent>, threshold: real, now: int): Qualified {
    var change := ChangeFor(p.symbol, changes);
    if change >= threshold && p.symbol !in q.tracked then
      var r := NewRecord(p, change, now);
      Qualified(q.tracked[p.symbol := r], q.newlyTracked + [r])
    else q
  }

  /** The qualification pass over the price entries, in snapshot order. */
  function Qualify(m: map<string, SymbolChange>, prices: seq<USDTPrice>, changes: seq<ChangePercent>,
                   threshold: real, now: int): Qualified
    decreases |prices|
  {
    if prices == [] then Qualified(m, [])
    else QualifyEntry(Qualify(m, prices[..|prices| - 1], changes, threshold, now), prices[|prices| - 1], changes, threshold, now)
  }

  // ---------------------------------------------------------------------
  // Eviction pass

  /** Keeps the tracked symbols whose current change (0.0 when missing) is above the threshold. */
  function Evict(m: map<string, SymbolChange>, changes: seq<ChangePercent>, threshold: real): map<string, SymbolChange> {
    map k | k in m && ChangeFor(k, changes) > threshold :: m[k]
  }

  // ---------------------------------------------------------------------
  // Pump pass

  /**
   * The pump test of one record: not yet notified, still within the wait
   * window, and `current / first - 1 >= pumpPercent`, for a positive baseline.
   */
  predicate PumpFires(r: SymbolChange, current: real, now: int, waitTime: int, pumpPercent: real) {
    && !r.notificationOfPump
    && now - r.addedAt <= waitTime
    && r.firstPriceChange > 0.0
    && current / r.firstPriceChange - 1.0 >= pumpPercent
  }

  /** The tracked symbols whose pump test passes this tick. */
  function Firing(m: map<string, SymbolChange>, prices: seq<USDTPrice>, now: int, waitTime: int, pumpPercent: real): set<string> {
    set k | k in m && PumpFires(m[k], CurrentPrice(k, prices), now, waitTime, pumpPercent)
  }

  /**
   * The registry after the pump pass: a firing symbol whose alert was
   * delivered is marked notified; everything else stays as it was.
   */
  function Pumped(m: map<string, SymbolChange>, prices: seq<USDTPrice>, now: int, waitTime: int, pumpPercent: real,
                  delivered: set<string>): map<string, SymbolChange> {
    map k | k in m ::
      if k in delivered && PumpFires(m[k], CurrentPrice(k, prices), now, waitTime, pumpPercent)
      then m[k].(notificationOfPump := true)
      else m[k]
  }

  /** The alert sent to the second chat: current price, 24h change and baseline. */
  datatype PumpAlert = PumpAlert(recipient: int, symbol: string, price: real, change: real, firstPrice: real)

  /** The key an alert is listed under. */
  function AlertSymbol(a: PumpAlert): string { a.symbol }

  function AlertFor(r: SymbolChange, prices: seq<USDTPrice>, recipient: int): PumpAlert {
    PumpAlert(recipient, r.symbol, CurrentPrice(r.symbol, prices), r.priceChangePct, r.firstPriceChange)
  }

  /**
   * One detection tick, from the registry before it to the registry after
   * it. Qualification stamps new records with `now`; the pump test reads the
   * clock again later in the tick, at `checkedAt`.
   */
  function Tick(m: map<string, SymbolChange>, prices: seq<USDTPrice>, changes: seq<ChangePercent>, threshold: real,
                now: int, checkedAt: int, waitTime: int, pumpPercent: real, delivered: set<string>): map<string, SymbolChange> {
    var evicted := Evict(Qualify(m, prices, changes, threshold, now).tracked, changes, threshold);
    Pumped(evicted, prices, checkedAt, waitTime, pumpPercent, delivered)
  }

  // ---------------------------------------------------------------------
  // Status refresh (the digest tick)

  /** Every tracked record gets the current price as its `priceChange`. */
  function Refreshed(m: map<string, SymbolChange>, prices: seq<USDTPrice>): map<string, SymbolChange> {
    map k | k in m :: m[k].(priceChange := PriceFor(k, prices))
  }

  // ---------------------------------------------------------------------
  // Digest lines

  /** The leading emoji of a line: new symbol, price up, down or flat. */
  datatype Emoji = CheckMark | ChartUp | ChartDown | Diamond

  /** The direction of the price since the last digest. */
  function Trend(current: real, previous: real): Emoji {
    if current > previous then ChartUp
    else if current < previous then ChartDown
    else Diamond
  }

  /**
   * One digest line, "EMOJI BASE / USDT P: PRICE Ch24h: CHANGE%", kept as
   * its fields: the symbol whose base asset is shown, the price (printed
   * trimmed, empty when `None`) and the 24h change.
   */
  datatype Line = Line(emoji: Emoji, symbol: string, price: Option<real>, change: real)

  /** The line of a newly tracked record. */
  function NewLine(r: SymbolChange): Line {
    Line(CheckMark, r.symbol, r.priceChange, r.priceChangePct)
  }

  function NewLines(rs: seq<SymbolChange>): (ls: seq<Line>)
    ensures |ls| == |rs|
  {
    seq(|rs|, i requires 0 <= i < |rs| => NewLine(rs[i]))
  }

  /** The status line of a tracked record, against the fresh snapshots. */
  function StatusLine(r: SymbolChange, prices: seq<USDTPrice>, changes: seq<ChangePercent>): Line {
    Line(Trend(CurrentPrice(r.symbol, prices), Parsed(r.priceChange)), r.symbol, PriceFor(r.symbol, prices), ChangeFor(r.symbol, changes))
  }

  function StatusLines(rs: seq<SymbolChange>, prices: seq<USDTPrice>, changes: seq<ChangePercent>): (ls: seq<Line>)
    ensures |ls| == |rs|
  {
    seq(|rs|, i requires 0 <= i < |rs| => StatusLine(rs[i], prices, changes))
  }

  /** A message for one chat. */
  datatype Digest = Digest(recipient: int, lines: seq<Line>)

  /** `s` lists the records of `m`, each once. */
  ghost predicate IsListing(s: seq<SymbolChange>, m: map<string, SymbolChange>) {
    && ListsExactly(s, SymbolOf, m.Keys)
    && (forall i :: 0 <= i < |s| ==> s[i].symbol in m && m[s[i].symbol] == s[i])
  }

  /** The part of `m` that `q` added. */
  function Added(q: Qualified, m: map<string, SymbolChange>): map<string, SymbolChange> {
    map k | k in q.tracked && k !in m :: q.tracked[k]
  }
}
