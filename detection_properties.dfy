/**
 * Properties of one detection tick and of the status refresh: what the
 * qualification pass adds and never overwrites, what eviction leaves, when
 * a pump fires and that it fires at most once per tracked lifetime.
 */
module DetectionProperties {
  import opened Results
  import opened Proto
  import opened Tracker
  import opened Sorting
  import opened Detection

  /** Appending an entry only matters for a symbol that had no entry yet. */
  lemma {:induction false} PriceForAppend(symbol: string, ps: seq<USDTPrice>, p: USDTPrice)
    ensures PriceFor(symbol, ps + [p]) ==
      if PriceFor(symbol, ps).Some? then PriceFor(symbol, ps)
      else if p.symbol == symbol then Some(p.price)
      else None
  {
    if ps != [] {
      assert (ps + [p])[0] == ps[0];
      assert (ps + [p])[1..] == ps[1..] + [p];
      PriceForAppend(symbol, ps[1..], p);
    }
  }

  /** The last step of the qualification pass. */
  lemma QualifyLast(m: map<string, SymbolChange>, prices: seq<USDTPrice>, i: nat, changes: seq<ChangePercent>, threshold: real, now: int)
    requires i < |prices|
    ensures Qualify(m, prices[..i + 1], changes, threshold, now) ==
      QualifyEntry(Qualify(m, prices[..i], changes, threshold, now), prices[i], changes, threshold, now)
  {
    assert prices[..i + 1][..i] == prices[..i];
  }

  /** Qualification never overwrites or drops a symbol that was already tracked. */
  lemma {:induction false} QualifyKeepsTracked(m: map<string, SymbolChange>, prices: seq<USDTPrice>, changes: seq<ChangePercent>,
                                               threshold: real, now: int)
    ensures forall k :: k in m ==>
                k in Qualify(m, prices, changes, threshold, now).tracked &&
                Qualify(m, prices, changes, threshold, now).tracked[k] == m[k]
  {
    if prices != [] {
      QualifyKeepsTracked(m, prices[..|prices| - 1], changes, threshold, now);
    }
  }

  /**
   * After qualification a symbol is tracked exactly when it was tracked
   * before, or it has a price entry and its change reaches the threshold.
   */
  lemma {:induction false} QualifyKeys(m: map<string, SymbolChange>, prices: seq<USDTPrice>, changes: seq<ChangePercent>,
                                       threshold: real, now: int, k: string)
    ensures k in Qualify(m, prices, changes, threshold, now).tracked <==>
      k in m || (PriceFor(k, prices).Some? && ChangeFor(k, changes) >= threshold)
  {
    if prices != [] {
      var init, p := prices[..|prices| - 1], prices[|prices| - 1];
      assert prices == init + [p];
      QualifyKeys(m, init, changes, threshold, now, k);
      PriceForAppend(k, init, p);
    }
  }

  /**
   * A symbol added by qualification carries the price of its first entry
   * as both current and baseline price, its change, `now`, and no pump flag.
   */
  lemma {:induction false} QualifyNewRecord(m: map<string, SymbolChange>, prices: seq<USDTPrice>, changes: seq<ChangePercent>,
                                            threshold: real, now: int, k: string)
    requires k !in m && k in Qualify(m, prices, changes, threshold, now).tracked
    ensures PriceFor(k, prices).Some?
    ensures Qualify(m, prices, changes, threshold, now).tracked[k] ==
      NewRecord(USDTPrice(k, PriceFor(k, prices).value), ChangeFor(k, changes), now)
  {
    var init, p := prices[..|prices| - 1], prices[|prices| - 1];
    assert prices == init + [p];
    PriceForAppend(k, init, p);
    if k in Qualify(m, init, changes, threshold, now).tracked {
      QualifyNewRecord(m, init, changes, threshold, now, k);
    } else {
      QualifyKeys(m, init, changes, threshold, now, k);
    }
  }

  /** Reordering a listing of a registry, as the digest's sort does, leaves it a listing of that registry. */
  lemma PermutedListing(s: seq<SymbolChange>, s': seq<SymbolChange>, m: map<string, SymbolChange>)
    requires IsListing(s, m)
    requires multiset(s') == multiset(s)
    ensures IsListing(s', m)
  {
    PermutationKeepsListing(s, s', SymbolOf, m.Keys);
    forall i | 0 <= i < |s'| ensures s'[i].symbol in m && m[s'[i].symbol] == s'[i] {
      assert s'[i] in s;
    }
  }

  /**
   * The records qualification reports are exactly the ones it added, each
   * once, as they are filed.
   */
  lemma {:induction false} QualifyReportsAdded(m: map<string, SymbolChange>, prices: seq<USDTPrice>, changes: seq<ChangePercent>,
                                               threshold: real, now: int)
    ensures var q := Qualify(m, prices, changes, threshold, now); IsListing(q.newlyTracked, Added(q, m))
  {
    if prices != [] {
      var init, p := prices[..|prices| - 1], prices[|prices| - 1];
      var q0 := Qualify(m, init, changes, threshold, now);
      QualifyReportsAdded(m, init, changes, threshold, now);
      QualifyKeepsTracked(m, init, changes, threshold, now);
      var q := QualifyEntry(q0, p, changes, threshold, now);
      if q != q0 {
        ReportsAddedStep(m, q0, NewRecord(p, ChangeFor(p.symbol, changes), now));
      }
    }
  }

  /** Appending a record under a new symbol extends a listing by that record. */
  lemma ListingExtend(s: seq<SymbolChange>, a: map<string, SymbolChange>, r: SymbolChange)
    requires IsListing(s, a) && r.symbol !in a
    ensures IsListing(s + [r], a[r.symbol := r])
  {
    var a', s' := a[r.symbol := r], s + [r];
    assert a'.Keys == a.Keys + {SymbolOf(r)};
    ListsExactlyAppend(s, SymbolOf, a.Keys, r);
    forall i | 0 <= i < |s'| ensures s'[i].symbol in a' && a'[s'[i].symbol] == s'[i] {
      if i < |s| {
        assert s'[i] == s[i];
      }
    }
  }

  /** Adding one untracked record to the registry and to the report keeps the report exact. */
  lemma ReportsAddedStep(m: map<string, SymbolChange>, q0: Qualified, r: SymbolChange)
    requires IsListing(q0.newlyTracked, Added(q0, m))
    requires m.Keys <= q0.tracked.Keys && r.symbol !in q0.tracked
    ensures IsListing(q0.newlyTracked + [r], Added(Qualified(q0.tracked[r.symbol := r], q0.newlyTracked + [r]), m))
  {
    var q := Qualified(q0.tracked[r.symbol := r], q0.newlyTracked + [r]);
    assert Added(q, m) == Added(q0, m)[r.symbol := r];
    ListingExtend(q0.newlyTracked, Added(q0, m), r);
  }

  /** Every tracked record is filed under its own symbol, and stays so. */
  lemma {:induction false} QualifyFilesUnderOwnSymbol(m: map<string, SymbolChange>, prices: seq<USDTPrice>,
                                                      changes: seq<ChangePercent>, threshold: real, now: int)
    requires FiledUnderOwnSymbol(m)
    ensures FiledUnderOwnSymbol(Qualify(m, prices, changes, threshold, now).tracked)
  {
    if prices != [] {
      QualifyFilesUnderOwnSymbol(m, prices[..|prices| - 1], changes, threshold, now);
    }
  }

  /**
   * After eviction no tracked symbol has a change at or below the
   * threshold; a symbol with no change entry counts as 0.0, so it goes
   * when the threshold is not negative.
   */
  lemma EvictLeavesOnlyHot(m: map<string, SymbolChange>, changes: seq<ChangePercent>, threshold: real)
    ensures forall k :: k in Evict(m, changes, threshold) ==> ChangeFor(k, changes) > threshold
    ensures forall k :: k in m && NoChangeFor(k, changes) && threshold >= 0.0 ==> k !in Evict(m, changes, threshold)
    ensures forall k :: k in Evict(m, changes, threshold) ==> k in m && Evict(m, changes, threshold)[k] == m[k]
  {
  }

  /**
   * The threshold is whatever number the user entered; under a negative one
   * a symbol with no change entry (counted as 0.0) is kept.
   */
  lemma MissingChangeKeptUnderNegativeThreshold(m: map<string, SymbolChange>, changes: seq<ChangePercent>,
                                                threshold: real, k: string)
    requires k in m && NoChangeFor(k, changes) && threshold < 0.0
    ensures k in Evict(m, changes, threshold) && Evict(m, changes, threshold)[k] == m[k]
  {
  }

  /** The pump pass adds and removes no symbol, and changes nothing but the pump flag. */
  lemma PumpedOnlyMarks(m: map<string, SymbolChange>, prices: seq<USDTPrice>, now: int, waitTime: int, pumpPercent: real,
                        delivered: set<string>, k: string)
    requires k in m
    ensures var m' := Pumped(m, prices, now, waitTime, pumpPercent, delivered);
      && m'.Keys == m.Keys
      && m'[k] == (if k in delivered && k in Firing(m, prices, now, waitTime, pumpPercent)
                   then m[k].(notificationOfPump := true) else m[k])
  {
  }

  /**
   * A marked symbol never fires again and stays marked: a pump alert is
   * sent at most once while the symbol stays tracked.
   */
  lemma PumpAtMostOnce(m: map<string, SymbolChange>, prices: seq<USDTPrice>, now: int, waitTime: int, pumpPercent: real,
                       delivered: set<string>, k: string)
    requires k in m && m[k].notificationOfPump
    ensures k !in Firing(m, prices, now, waitTime, pumpPercent)
    ensures Pumped(m, prices, now, waitTime, pumpPercent, delivered)[k] == m[k]
  {
  }

  /** Once the wait window has passed, no pump fires, whatever the price. */
  lemma NoPumpAfterWindow(r: SymbolChange, current: real, now: int, waitTime: int, pumpPercent: real)
    requires now - r.addedAt > waitTime
    ensures !PumpFires(r, current, now, waitTime, pumpPercent)
  {
  }

  /** With baseline 100 and a 5% pump percent, 104 is no pump and 106 is. */
  lemma PumpThresholdExample(r: SymbolChange, now: int)
    requires r.firstPriceChange == 100.0 && !r.notificationOfPump && now - r.addedAt <= 0
    ensures !PumpFires(r, 104.0, now, 0, 0.05)
    ensures PumpFires(r, 106.0, now, 0, 0.05)
  {
  }

  /**
   * Across a whole tick a symbol tracked before keeps its record, baseline
   * and qualification time included; at most its pump flag goes from false
   * to true.
   */
  lemma TickKeepsBaseline(m: map<string, SymbolChange>, prices: seq<USDTPrice>, changes: seq<ChangePercent>, threshold: real,
                          now: int, checkedAt: int, waitTime: int, pumpPercent: real, delivered: set<string>, k: string)
    requires k in m
    ensures var m' := Tick(m, prices, changes, threshold, now, checkedAt, waitTime, pumpPercent, delivered);
      k in m' ==> m'[k] == m[k] || (!m[k].notificationOfPump && m'[k] == m[k].(notificationOfPump := true))
  {
    QualifyKeepsTracked(m, prices, changes, threshold, now);
  }

  /**
   * After a tick a symbol is tracked exactly when it was tracked or has a
   * price entry, and its current change is above the threshold.
   */
  lemma TickKeys(m: map<string, SymbolChange>, prices: seq<USDTPrice>, changes: seq<ChangePercent>, threshold: real,
                 now: int, checkedAt: int, waitTime: int, pumpPercent: real, delivered: set<string>, k: string)
    ensures k in Tick(m, prices, changes, threshold, now, checkedAt, waitTime, pumpPercent, delivered) <==>
      (k in m || PriceFor(k, prices).Some?) && ChangeFor(k, changes) > threshold
  {
    QualifyKeys(m, prices, changes, threshold, now, k);
  }

  /**
   * A symbol qualified in this tick is stamped `now`; it can only be marked
   * pumped in the same tick when the pump test, at `checkedAt`, still falls
   * within the wait window.
   */
  lemma NewSymbolPumpsOnlyWithinWait(m: map<string, SymbolChange>, prices: seq<USDTPrice>, changes: seq<ChangePercent>,
                                     threshold: real, now: int, checkedAt: int, waitTime: int, pumpPercent: real,
                                     delivered: set<string>, k: string)
    requires k !in m
    requires checkedAt - now > waitTime
    ensures var m' := Tick(m, prices, changes, threshold, now, checkedAt, waitTime, pumpPercent, delivered);
      k in m' ==> m'[k].addedAt == now && !m'[k].notificationOfPump
  {
    var q := Qualify(m, prices, changes, threshold, now);
    if k in q.tracked {
      QualifyNewRecord(m, prices, changes, threshold, now, k);
    }
  }

  /**
   * A new symbol whose change equals the threshold exactly is reported as
   * newly tracked and evicted again in the same tick (qualification uses
   * `>=`, eviction `<=`).
   */
  lemma ThresholdTieReportedThenEvicted(m: map<string, SymbolChange>, prices: seq<USDTPrice>, changes: seq<ChangePercent>,
                                        threshold: real, now: int, checkedAt: int, waitTime: int, pumpPercent: real,
                                        delivered: set<string>, k: string)
    requires k !in m && PriceFor(k, prices).Some? && ChangeFor(k, changes) == threshold
    ensures exists i ::
              0 <= i < |Qualify(m, prices, changes, threshold, now).newlyTracked| &&
              Qualify(m, prices, changes, threshold, now).newlyTracked[i].symbol == k
    ensures k !in Tick(m, prices, changes, threshold, now, checkedAt, waitTime, pumpPercent, delivered)
  {
    var q := Qualify(m, prices, changes, threshold, now);
    QualifyKeys(m, prices, changes, threshold, now, k);
    QualifyReportsAdded(m, prices, changes, threshold, now);
    assert k in Added(q, m).Keys;
  }

  /**
   * Qualifying "ABCUSDT" at 25% against a 20% threshold tracks it with
   * baseline 1.2345.
   */
  lemma QualifyExample(now: int)
    ensures var q := Qualify(map[], [USDTPrice("ABCUSDT", 1.2345)], [ChangePercent("ABCUSDT", 25.0)], 20.0, now);
      "ABCUSDT" in q.tracked && q.tracked["ABCUSDT"].firstPriceChange == 1.2345 &&
      q.newlyTracked == [q.tracked["ABCUSDT"]]
  {
    assert [USDTPrice("ABCUSDT", 1.2345)][..0] == [];
  }

  /**
   * The status refresh keeps the tracked symbols and changes only their
   * `priceChange`, to the current price; the baseline is untouched.
   */
  lemma RefreshOnlyUpdatesPrice(m: map<string, SymbolChange>, prices: seq<USDTPrice>, k: string)
    requires k in m
    ensures var m' := Refreshed(m, prices);
      && m'.Keys == m.Keys
      && m'[k].priceChange == PriceFor(k, prices)
      && m'[k].(priceChange := m[k].priceChange) == m[k]
  {
  }

  /**
   * Three new symbols at 30%, 45% and 22% are reported in the order 45%,
   * 30%, 22%.
   */
  lemma {:induction false} DigestOrderExample(s: seq<SymbolChange>, a: SymbolChange, b: SymbolChange, c: SymbolChange)
    requires a.priceChangePct == 30.0 && b.priceChangePct == 45.0 && c.priceChangePct == 22.0
    requires multiset(s) == multiset([a, b, c])
    requires DescendingBy(s, ChangePctOf)
    ensures s == [b, a, c]
  {
    assert |s| == 3 by { assert |multiset(s)| == |s|; }
    assert a in s && b in s && c in s by {
      assert a in multiset(s) && b in multiset(s) && c in multiset(s);
    }
    assert forall x :: x in s ==> x == a || x == b || x == c by {
      forall x | x in s ensures x == a || x == b || x == c {
        assert x in multiset([a, b, c]);
      }
    }
    assert s[0] == b;
    assert s[2] == c;
    assert s[1] == a;
  }
}
