/**
 * The snapshot messages the price server hands to its clients
 * (`proto.USDTPrice`, `proto.ChangePercent`) and the "first matching
 * change percent, else 0.0" lookup the clients run over them.
 */
module Proto {

  /** One entry of `USDTPricesResponse.Prices`. */
  datatype USDTPrice = USDTPrice(symbol: string, price: real)

  /** One entry of `ChangePercentResponse.ChangePercents`. */
  datatype ChangePercent = ChangePercent(symbol: string, changePercent: real)

  /** No entry of `changes` is about `symbol`. */
  predicate NoChangeFor(symbol: string, changes: seq<ChangePercent>) {
    forall i :: 0 <= i < |changes| ==> changes[i].symbol != symbol
  }

  /**
   * The 24h change of `symbol`: that of the first entry about it, or 0.0
   * when there is none.
   */
  function ChangeFor(symbol: string, changes: seq<ChangePercent>): (r: real)
    ensures NoChangeFor(symbol, changes) ==> r == 0.0
    ensures forall i :: 0 <= i < |changes| && changes[i].symbol == symbol && NoChangeFor(symbol, changes[..i]) ==>
      r == changes[i].changePercent
  {
    if changes == [] then 0.0
    else if changes[0].symbol == symbol then changes[0].changePercent
    else
      var r := ChangeFor(symbol, changes[1..]);
      assert forall i :: 1 <= i < |changes| && NoChangeFor(symbol, changes[..i]) ==>
        NoChangeFor(symbol, changes[1..][..i - 1])
      by {
        forall i | 1 <= i < |changes| && NoChangeFor(symbol, changes[..i])
          ensures NoChangeFor(symbol, changes[1..][..i - 1])
        {
          var tail := changes[1..][..i - 1];
          forall j | 0 <= j < |tail| ensures tail[j].symbol != symbol {
            assert tail[j] == changes[..i][j + 1];
          }
        }
      }
      r
  }

  /** The search loop that starts at `change := 0.0` and stops at the first match. */
  method FindChange(symbol: string, changes: seq<ChangePercent>) returns (change: real)
    ensures change == ChangeFor(symbol, changes)
  {
    change := 0.0;
    var i := 0;
    while i < |changes|
      invariant 0 <= i <= |changes|
      invariant NoChangeFor(symbol, changes[..i])
    {
      if changes[i].symbol == symbol {
        change := changes[i].changePercent;
        return;
      }
      i := i + 1;
    }
  }
}
