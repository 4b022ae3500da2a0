/** The append-only `price_history` series and its window aggregates. */
module PriceHistory {
  import opened Prelude

  const SECONDS_PER_DAY: int := 86400

  datatype Observation = Observation(listing: Uuid, price: int, inStock: bool, observedAt: int)

  /** The two aggregates the scorer reads. */
  datatype PriceStats = PriceStats(lowestPrice: int, highestPrice: int)

  predicate InWindow(row: Observation, listing: Uuid, windowDays: int, now: int) {
    row.listing == listing && row.observedAt >= now - windowDays * SECONDS_PER_DAY
  }

  /** Aggregates over the rows the window selects, `None` when it selects nothing. */
  function Stats(rows: seq<Observation>, listing: Uuid, windowDays: int, now: int): Option<PriceStats> {
    if rows == [] then None
    else
      var last := rows[|rows| - 1];
      var earlier := Stats(rows[..|rows| - 1], listing, windowDays, now);
      if !InWindow(last, listing, windowDays, now) then earlier
      else if earlier.None? then Some(PriceStats(last.price, last.price))
      else
        var s := earlier.value;
        Some(PriceStats(
               if last.price < s.lowestPrice then last.price else s.lowestPrice,
               if last.price > s.highestPrice then last.price else s.highestPrice))
  }

  ghost predicate Observed(rows: seq<Observation>, listing: Uuid, windowDays: int, now: int, price: int) {
    exists i :: 0 <= i < |rows| && InWindow(rows[i], listing, windowDays, now) && rows[i].price == price
  }

  /** `min` and `max` of the selected prices: both attained, and nothing selected lies outside. */
  ghost predicate Brackets(rows: seq<Observation>, listing: Uuid, windowDays: int, now: int, stats: PriceStats) {
    && Observed(rows, listing, windowDays, now, stats.lowestPrice)
    && Observed(rows, listing, windowDays, now, stats.highestPrice)
    && forall i :: 0 <= i < |rows| && InWindow(rows[i], listing, windowDays, now) ==>
         stats.lowestPrice <= rows[i].price <= stats.highestPrice
  }

  lemma {:induction false} StatsMeaning(rows: seq<Observation>, listing: Uuid, windowDays: int, now: int)
    ensures var stats := Stats(rows, listing, windowDays, now);
            if stats.None?
            then forall i :: 0 <= i < |rows| ==> !InWindow(rows[i], listing, windowDays, now)
            else Brackets(rows, listing, windowDays, now, stats.value)
  {
    if rows != [] {
      var before, last := rows[..|rows| - 1], rows[|rows| - 1];
      StatsMeaning(before, listing, windowDays, now);
      var earlier := Stats(before, listing, windowDays, now);
      if earlier.Some? {
        ObservedExtends(rows, listing, windowDays, now, earlier.value.lowestPrice);
        ObservedExtends(rows, listing, windowDays, now, earlier.value.highestPrice);
      }
      if InWindow(last, listing, windowDays, now) {
        assert Observed(rows, listing, windowDays, now, last.price);
      }
    }
  }

  lemma ObservedExtends(rows: seq<Observation>, listing: Uuid, windowDays: int, now: int, price: int)
    requires rows != [] && Observed(rows[..|rows| - 1], listing, windowDays, now, price)
    ensures Observed(rows, listing, windowDays, now, price)
  {
    var before := rows[..|rows| - 1];
    var i :| 0 <= i < |before| && InWindow(before[i], listing, windowDays, now) && before[i].price == price;
    assert rows[i] == before[i];
  }

  predicate Since(row: Observation, listing: Uuid, since: int) { row.listing == listing && row.observedAt >= since }

  /** The extremes of the listing's prices since a moment, `None` if there are none. */
  ghost predicate Range(rows: seq<Observation>, listing: Uuid, since: int, stats: Option<PriceStats>) {
    if stats.None? then forall i :: 0 <= i < |rows| ==> !Since(rows[i], listing, since)
    else
      && (exists i :: 0 <= i < |rows| && Since(rows[i], listing, since) && rows[i].price == stats.value.lowestPrice)
      && (exists i :: 0 <= i < |rows| && Since(rows[i], listing, since) && rows[i].price == stats.value.highestPrice)
      && forall i :: 0 <= i < |rows| && Since(rows[i], listing, since) ==>
           stats.value.lowestPrice <= rows[i].price <= stats.value.highestPrice
  }

  lemma StatsAreTheRange(rows: seq<Observation>, listing: Uuid, windowDays: int, now: int)
    ensures Range(rows, listing, now - 86400 * windowDays, Stats(rows, listing, windowDays, now))
  {
    StatsMeaning(rows, listing, windowDays, now);
    var stats := Stats(rows, listing, windowDays, now);
    forall i | 0 <= i < |rows|
      ensures InWindow(rows[i], listing, windowDays, now) <==> Since(rows[i], listing, now - 86400 * windowDays)
    {
    }
    if stats.Some? {
      var lo :| 0 <= lo < |rows| && InWindow(rows[lo], listing, windowDays, now)
                && rows[lo].price == stats.value.lowestPrice;
      var hi :| 0 <= hi < |rows| && InWindow(rows[hi], listing, windowDays, now)
                && rows[hi].price == stats.value.highestPrice;
    }
  }

  /**
    * What the handler passes to the scorer: it appends the current price first, so the
    * aggregates exist and bracket it.  The highest price beats the current one exactly when
    * an observation made before this one did.
    */
  lemma CurrentPriceIsInStats(earlier: seq<Observation>, current: Observation, windowDays: nat)
    ensures var stats := Stats(earlier + [current], current.listing, windowDays, current.observedAt);
            && stats.Some?
            && stats.value.lowestPrice <= current.price <= stats.value.highestPrice
            && (stats.value.lowestPrice == current.price <==>
                forall i :: 0 <= i < |earlier| && InWindow(earlier[i], current.listing, windowDays, current.observedAt)
                  ==> current.price <= earlier[i].price)
            && (stats.value.highestPrice > current.price <==>
                exists i :: 0 <= i < |earlier| && InWindow(earlier[i], current.listing, windowDays, current.observedAt)
                            && earlier[i].price > current.price)
  {
    var rows := earlier + [current];
    var l, now := current.listing, current.observedAt;
    assert rows[|rows| - 1] == current && InWindow(current, l, windowDays, now);
    assert rows[..|rows| - 1] == earlier;
    StatsMeaning(earlier, l, windowDays, now);
    var before := Stats(earlier, l, windowDays, now);
    if before.Some? {
      var lo :| 0 <= lo < |earlier| && InWindow(earlier[lo], l, windowDays, now)
                && earlier[lo].price == before.value.lowestPrice;
      var hi :| 0 <= hi < |earlier| && InWindow(earlier[hi], l, windowDays, now)
                && earlier[hi].price == before.value.highestPrice;
    }
  }

  /** `PriceHistoryRepository`: rows are only ever appended. */
  class PriceHistoryRepository {
    var rows: seq<Observation>

    constructor ()
      ensures rows == []
    {
      rows := [];
    }

    /** `now` is the transaction clock, the column default of `observed_at`. */
    method Insert(listing: Uuid, price: int, inStock: bool, now: int) returns (row: Observation)
      modifies this
      ensures row == Observation(listing, price, inStock, now)
      ensures rows == old(rows) + [row]
    {
      row := Observation(listing, price, inStock, now);
      rows := rows + [row];
    }

    /** The handler's two calls in order, and what they promise the scorer. */
    method InsertThenStats(listing: Uuid, price: int, inStock: bool, windowDays: nat, now: int)
      returns (stats: Option<PriceStats>)
      modifies this
      ensures rows == old(rows) + [Observation(listing, price, inStock, now)]
      ensures stats.Some? && stats.value.lowestPrice <= price <= stats.value.highestPrice
      ensures Brackets(rows, listing, windowDays, now, stats.value)
    {
      ghost var before := rows;
      var row := Insert(listing, price, inStock, now);
      stats := Stats(rows, listing, windowDays, now);
      CurrentPriceIsInStats(before, row, windowDays);
      StatsMeaning(rows, listing, windowDays, now);
    }
  }
}
