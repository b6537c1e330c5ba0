/** Model of the INTC close-price cache (src/etrade_tax_poland/cache/intc.py): prices are only
    read from the cache, never requested, and a date without one is searched up to ten days
    back. */
module IntcPrices {
  import opened Results
  import opened Dates
  import opened CacheFiles

  /** How many days date_to_intc_price tries, the given one included. */
  const DAYS_BACK := 10

  /** A day and the entry the cache holds for it. */
  datatype DatedPrice = DatedPrice(day: Day, price: Entry)

  class IntcPricesCache {
    var cache: map<Key, Entry>
    /** The first day of the history fill_in asks for. */
    const beginDate: Date

    /** A cache without a file (cache/intc.py:16-19, cache/cache_file.py:10-13). */
    constructor ()
      ensures cache == INITIAL && beginDate == Date(2000, 1, 1)
    {
      cache := INITIAL;
      beginDate := Date(2000, 1, 1);
    }

    /** A cache whose file holds `contents` (cache/cache_file.py:15-20). */
    constructor FromFile(contents: map<Key, Entry>)
      ensures cache == contents && beginDate == Date(2000, 1, 1)
    {
      cache := contents;
      beginDate := Date(2000, 1, 1);
    }

    /** get_ratio (cache/intc.py:61-66): whatever the cache holds for the day, even the ""
        tombstone, and ValueError for a day it does not hold. */
    function GetRatio(day: Day): (r: Result<Entry>)
      reads this
      ensures r.Ok? <==> DayKey(day) in cache
      ensures r.Ok? ==> r.value == cache[DayKey(day)]
      ensures r.Err? ==> r.error == ValueError
    {
      if DayKey(day) in cache then Ok(cache[DayKey(day)]) else Err(ValueError)
    }
  }

  /** date_to_intc_price (cache/intc.py:72-81): the nearest of the ten days ending at `d` that
      the cache holds, with its entry; ValueError when it holds none of them. */
  method DateToIntcPrice(intc: IntcPricesCache, d: Day) returns (r: Result<DatedPrice>)
    ensures r.Ok? ==>
      && d - DAYS_BACK < r.value.day <= d
      && DayKey(r.value.day) in intc.cache && intc.cache[DayKey(r.value.day)] == r.value.price
      && forall x :: r.value.day < x <= d ==> DayKey(x) !in intc.cache
    ensures r.Err? ==> r.error == ValueError && forall x :: d - DAYS_BACK < x <= d ==> DayKey(x) !in intc.cache
  {
    var date := d;
    for k := 0 to DAYS_BACK
      invariant date == d - k
      invariant forall x :: date < x <= d ==> DayKey(x) !in intc.cache
    {
      var price := intc.GetRatio(date);
      if price.Ok? {
        return Ok(DatedPrice(date, price.value));
      }
      date := date - 1;
    }
    return Err(ValueError);
  }
}
