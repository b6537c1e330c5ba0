/** The JSON cache files shared by the rate and price lookups (cache/cache_file.py): a map from
    ISO date keys to numbers, where "" marks a day known to have no value. */
module CacheFiles {
  import opened Dates

  /** A cache key: the "%Y-%m-%d" text of a day (one per day), or the "_" placeholder. */
  datatype Key = DayKey(day: Day) | Placeholder

  /** A cache entry: a number (an NBP mid rate, an INTC close price), or the "" tombstone. */
  datatype Entry = Value(amount: real) | Blank

  /** What a cache holds before any file is read (cache/cache_file.py:10-13). */
  const INITIAL: map<Key, Entry> := map[Placeholder := Blank]

  /** Python's `not entry`: the tombstone and a zero are both false. */
  predicate Falsy(e: Entry) {
    e == Blank || e == Value(0.0)
  }
}
