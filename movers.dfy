/**
 * What the two one-shot "big movers" bots have in common: the record of a
 * pair that moved, the 20% bar, the fixed header and the reply lines, in
 * which the first "USDT" of a symbol becomes "/USDT". `%.2f` formatting is
 * left out: a line keeps the numbers it prints.
 */
module Movers {
  import opened GoStrings

  /** Both bots report a pair whose 24h change is at least this. */
  const Threshold: real := 20.0

  /** The first line of every summary. */
  const Header: string := "Prices in USDT with more than 20% change in the last 24h:\n\n"

  /** A pair that moved: its symbol, price and 24h change percent. */
  datatype Mover = Mover(symbol: string, price: real, changePct: real)

  function MoverSymbol(m: Mover): string { m.symbol }

  function MoverPct(m: Mover): real { m.changePct }

  /** One reply line: the pair written with a slash, its price and change. */
  datatype ReportLine = ReportLine(pair: string, price: real, change: real)

  /** Which fetch failed. */
  datatype Fetch = PricesFetch | ChangesFetch

  /**
   * The reply sent back: the error of the failed fetch, or the header with
   * one line per mover.
   */
  datatype Reply = FetchFailed(fetch: Fetch, error: string) | Summary(header: string, lines: seq<ReportLine>)

  /** `strings.Replace(symbol, "USDT", "/USDT", 1)`. */
  function PairName(symbol: string): string {
    ReplaceFirst(symbol, "USDT", "/USDT")
  }

  function LineOf(m: Mover): ReportLine {
    ReportLine(PairName(m.symbol), m.price, m.changePct)
  }

  /** The lines of a summary, one per mover in order. */
  function Lines(movers: seq<Mover>): seq<ReportLine> {
    seq(|movers|, i requires 0 <= i < |movers| => LineOf(movers[i]))
  }

  /** The `strings.Builder` loop: the header, then a line for each mover. */
  method BuildReply(movers: seq<Mover>) returns (reply: Reply)
    ensures reply == Summary(Header, Lines(movers))
  {
    var lines: seq<ReportLine> := [];
    for i := 0 to |movers|
      invariant lines == Lines(movers[..i])
    {
      lines := lines + [ReportLine(ReplaceFirst(movers[i].symbol, "USDT", "/USDT"), movers[i].price, movers[i].changePct)];
    }
    assert movers[..|movers|] == movers;
    reply := Summary(Header, lines);
  }

  /** A suffix of a string without "USDT" has none either. */
  lemma NoUsdtInTail(s: string)
    requires s != [] && !Contains(s, "USDT")
    ensures !Contains(s[1..], "USDT")
  {
    if Contains(s[1..], "USDT") {
      var i: nat :| OccursAt(s[1..], "USDT", i);
      assert s[i + 1..i + 1 + 4] == s[1..][i..i + 4];
      assert OccursAt(s, "USDT", i + 1);
    }
  }

  /**
   * A pair `base + "USDT"` whose base asset does not itself contain "USDT"
   * is written `base + "/USDT"`. "USDT" does not overlap itself, so no
   * match can start inside the base and run into the suffix.
   */
  lemma {:induction false} PairNameOfUsdtPair(base: string)
    requires !Contains(base, "USDT")
    ensures PairName(base + "USDT") == base + "/USDT"
  {
    var s := base + "USDT";
    if base == [] {
      assert s == "USDT";
    } else {
      if |base| >= 4 {
        assert s[..4] == base[..4];
        if base[..4] == "USDT" {
          assert OccursAt(base, "USDT", 0);
        }
      } else {
        assert s[|base|] == 'U';
      }
      assert s[..4] != "USDT";
      NoUsdtInTail(base);
      PairNameOfUsdtPair(base[1..]);
      assert s[1..] == base[1..] + "USDT";
    }
  }
}
