/** Model of the USD/PLN exchange-rate cache of the National Bank of Poland (NBP) lookups:
    src/etrade_tax_poland/cache/nbp.py, src/etrade_tax_poland/nbp.py and the older
    etrade_common.py. The three share one state machine over a map from date keys to entries and
    differ only in the map they start from and in which "not found" answers write a tombstone.
    The web service is a scripted sequence of answers that the lookups consume. */
module NbpRates {
  import opened Results
  import opened Dates
  import opened CacheFiles

  /** One answer of the service: an HTTP status with its body text and, for a 200, the parsed
      mid rate; or a proxy error or connect timeout. */
  datatype Response = Reply(status: int, text: string, mid: real) | ConnectError

  /** Which answers count as "no rate for that day". */
  datatype NotFoundRule = AnyNotFound | BrakDanychOnly

  const BRAK_DANYCH := "404 NotFound - Not Found - Brak danych"

  /** A 404 writes a tombstone; the older version only does so for the exact "Brak danych"
      ("no data") body. */
  predicate NotFound(rule: NotFoundRule, status: int, text: string) {
    status == 404 && (rule == AnyNotFound || text == BRAK_DANYCH)
  }

  /** What get_ratio ends with: a rate, the ValueError for a day without one, or no answer
      before the scripted service ran dry (the source keeps retrying). */
  datatype Lookup = Ratio(value: real) | Unavailable | Unanswered

  /** The outcome of a lookup, the cache after it, the answers left and how many requests it
      issued, all for the looked-up day. */
  datatype Fetched = Fetched(outcome: Lookup, cache: map<Key, Entry>, script: seq<Response>, asked: nat)

  /** The retry loop of get_ratio (cache/nbp.py:30-49; nbp.py:49-68; etrade_common.py:61-80):
      a 200 stores the rate under the key and returns it, a "not found" stores the tombstone and
      fails, and anything else is asked again with the cache untouched. */
  function Request(cache: map<Key, Entry>, rule: NotFoundRule, script: seq<Response>, key: Key): (r: Fetched)
    ensures |r.script| <= |script|
    ensures r.asked == |script| - |r.script|
    ensures r.outcome.Unanswered? ==> r.script == [] && r.cache == cache
    ensures r.outcome.Ratio? ==> r.cache == cache[key := Value(r.outcome.value)] && r.asked >= 1
    ensures r.outcome.Unavailable? ==> r.cache == cache[key := Blank] && r.asked >= 1
    decreases |script|
  {
    if script == [] then Fetched(Unanswered, cache, [], 0)
    else
      RequestStep(cache, rule, script[0], script[1..], Request(cache, rule, script[1..], key), key)
  }

  /** How one answer ends a lookup, given how the retry after it would end. */
  function RequestStep(cache: map<Key, Entry>, rule: NotFoundRule, resp: Response, rest: seq<Response>,
                       retry: Fetched, key: Key): Fetched {
    match resp
    case ConnectError => retry.(asked := retry.asked + 1)
    case Reply(status, text, mid) =>
      if status == 200 then Fetched(Ratio(mid), cache[key := Value(mid)], rest, 1)
      else if NotFound(rule, status, text) then Fetched(Unavailable, cache[key := Blank], rest, 1)
      else retry.(asked := retry.asked + 1)
  }

  /** The answers a lookup consumes are the first ones of the script, in order. */
  lemma {:induction false} RequestConsumesPrefix(cache: map<Key, Entry>, rule: NotFoundRule, script: seq<Response>, key: Key)
    ensures var r := Request(cache, rule, script, key); r.script == script[r.asked..]
    decreases |script|
  {
    if script != [] {
      RequestConsumesPrefix(cache, rule, script[1..], key);
    }
  }

  /** get_ratio (cache/nbp.py:22-49; nbp.py:41-68; etrade_common.py:53-80) on values. */
  function GetRatioSpec(cache: map<Key, Entry>, rule: NotFoundRule, script: seq<Response>, day: Day): (r: Fetched)
    ensures DayKey(day) in cache ==>
      && r.asked == 0 && r.cache == cache && r.script == script
      && r.outcome == (if Falsy(cache[DayKey(day)]) then Unavailable else Ratio(cache[DayKey(day)].amount))
    ensures DayKey(day) !in cache && r.outcome != Unanswered ==> |r.script| < |script|
    ensures r.outcome.Ratio? ==> DayKey(day) in r.cache && r.cache[DayKey(day)] == Value(r.outcome.value)
    ensures r.outcome == Unavailable ==> DayKey(day) in r.cache && Falsy(r.cache[DayKey(day)])
    ensures forall k :: k in cache ==> k in r.cache && r.cache[k] == cache[k]
    ensures forall k :: k in r.cache && k != DayKey(day) ==> k in cache
  {
    var key := DayKey(day);
    if key in cache then
      Fetched(if Falsy(cache[key]) then Unavailable else Ratio(cache[key].amount), cache, script, 0)
    else Request(cache, rule, script, key)
  }

  /** A fetched day is not requested again: a second lookup issues no request, and returns the
      same rate unless that rate is zero, which reads back as missing. */
  lemma SecondLookupIsCached(cache: map<Key, Entry>, rule: NotFoundRule, script: seq<Response>, day: Day)
    requires GetRatioSpec(cache, rule, script, day).outcome != Unanswered
    ensures var f := GetRatioSpec(cache, rule, script, day);
            var g := GetRatioSpec(f.cache, rule, f.script, day);
      && g.asked == 0 && g.cache == f.cache
      && (f.outcome == Unavailable ==> g.outcome == Unavailable)
      && (f.outcome.Ratio? && f.outcome.value != 0.0 ==> g.outcome == f.outcome)
  {
  }

  /** A day missing from the cache is looked up with one request per answer consumed, and a proxy
      error or connect timeout is simply asked again. */
  lemma TransientErrorRetries(cache: map<Key, Entry>, rule: NotFoundRule, rest: seq<Response>, day: Day)
    requires DayKey(day) !in cache
    ensures var f := GetRatioSpec(cache, rule, [ConnectError] + rest, day);
            var g := GetRatioSpec(cache, rule, rest, day);
      f == g.(asked := g.asked + 1)
  {
    assert ([ConnectError] + rest)[1..] == rest;
  }

  /** The older cache writes a tombstone only for the "Brak danych" 404; any other 404 and any
      other status is asked again. The current caches tombstone every 404. */
  lemma NotFoundHandling(cache: map<Key, Entry>, text: string, mid: real, rest: seq<Response>, day: Day)
    requires DayKey(day) !in cache
    ensures GetRatioSpec(cache, AnyNotFound, [Reply(404, text, mid)] + rest, day)
         == Fetched(Unavailable, cache[DayKey(day) := Blank], rest, 1)
    ensures text == BRAK_DANYCH ==>
      GetRatioSpec(cache, BrakDanychOnly, [Reply(404, text, mid)] + rest, day)
         == Fetched(Unavailable, cache[DayKey(day) := Blank], rest, 1)
    ensures text != BRAK_DANYCH ==>
      var g := GetRatioSpec(cache, BrakDanychOnly, rest, day);
      GetRatioSpec(cache, BrakDanychOnly, [Reply(404, text, mid)] + rest, day) == g.(asked := g.asked + 1)
  {
    assert ([Reply(404, text, mid)] + rest)[1..] == rest;
  }

  /** A day missing from the cache that is answered 200 takes that answer's mid rate, which is
      stored under the day; no further answer is consumed. */
  lemma OkAnswerStored(cache: map<Key, Entry>, rule: NotFoundRule, text: string, mid: real, rest: seq<Response>, day: Day)
    requires DayKey(day) !in cache
    ensures GetRatioSpec(cache, rule, [Reply(200, text, mid)] + rest, day)
         == Fetched(Ratio(mid), cache[DayKey(day) := Value(mid)], rest, 1)
  {
    assert ([Reply(200, text, mid)] + rest)[1..] == rest;
  }

  /** Any status other than 200 and 404 is asked again, with the cache untouched. */
  lemma OtherStatusRetries(cache: map<Key, Entry>, rule: NotFoundRule, status: int, text: string, mid: real, rest: seq<Response>, day: Day)
    requires DayKey(day) !in cache && status != 200 && status != 404
    ensures var g := GetRatioSpec(cache, rule, rest, day);
      GetRatioSpec(cache, rule, [Reply(status, text, mid)] + rest, day) == g.(asked := g.asked + 1)
  {
    assert ([Reply(status, text, mid)] + rest)[1..] == rest;
  }

  /** `n` requests for the same day. */
  function Repeat(day: Day, n: nat): (ds: seq<Day>)
    ensures |ds| == n && forall k :: 0 <= k < n ==> ds[k] == day
  {
    seq(n, _ => day)
  }

  /** The web service as the lookups see it: the answers still to come, and the days asked for
      so far. */
  class RateService {
    var script: seq<Response>
    var requested: seq<Day>

    constructor (script: seq<Response>)
      ensures this.script == script && requested == []
    {
      this.script := script;
      requested := [];
    }

    /** `requests.get` of the rate of a day: the next answer, or none when the script is over. */
    method Get(day: Day) returns (resp: Option<Response>)
      modifies this
      ensures old(script) == [] ==> resp.None? && script == [] && requested == old(requested)
      ensures old(script) != [] ==>
        resp == Some(old(script)[0]) && script == old(script)[1..] && requested == old(requested) + [day]
    {
      if script == [] {
        return None;
      }
      resp := Some(script[0]);
      script := script[1..];
      requested := requested + [day];
    }
  }

  /** NbpRatiosCache: the in-memory cache and its "not found" rule. */
  class NbpRatiosCache {
    var cache: map<Key, Entry>
    const rule: NotFoundRule

    /** The current caches without a cache file start with the placeholder alone
        (cache/cache_file.py:10-13, nbp.py:22-26) and tombstone every 404. */
    constructor ()
      ensures cache == INITIAL && rule == AnyNotFound
    {
      cache := INITIAL;
      rule := AnyNotFound;
    }

    /** A cache file that exists replaces the initial contents with what it holds
        (cache/cache_file.py:15-20, nbp.py:22-28, etrade_common.py:40-46). */
    constructor FromFile(contents: map<Key, Entry>, rule: NotFoundRule)
      ensures cache == contents && this.rule == rule
    {
      cache := contents;
      this.rule := rule;
    }

    /** The older cache without a file starts empty (etrade_common.py:33-44) and tombstones
        only the "Brak danych" 404. */
    constructor Legacy()
      ensures cache == map[] && rule == BrakDanychOnly
    {
      cache := map[];
      rule := BrakDanychOnly;
    }

    /** get_ratio (cache/nbp.py:22-49; nbp.py:41-68; etrade_common.py:53-80). */
    method GetRatio(service: RateService, day: Day) returns (outcome: Lookup)
      modifies this, service
      ensures var f := GetRatioSpec(old(cache), rule, old(service.script), day);
        && outcome == f.outcome && cache == f.cache && service.script == f.script
        && service.requested == old(service.requested) + Repeat(day, f.asked)
    {
      var key := DayKey(day);
      if key in cache {
        if Falsy(cache[key]) {
          return Unavailable;
        }
        return Ratio(cache[key].amount);
      }
      outcome := Fetch(service, day);
    }

    /** The retry loop of get_ratio for a day the cache does not hold. */
    method Fetch(service: RateService, day: Day) returns (outcome: Lookup)
      requires DayKey(day) !in cache
      modifies this, service
      ensures var f := Request(old(cache), rule, old(service.script), DayKey(day));
        && outcome == f.outcome && cache == f.cache && service.script == f.script
        && service.requested == old(service.requested) + Repeat(day, f.asked)
    {
      var key := DayKey(day);
      ghost var asked := 0;
      while true
        invariant cache == old(cache)
        invariant var f := Request(cache, rule, service.script, key);
          Request(old(cache), rule, old(service.script), key) == f.(asked := f.asked + asked)
        invariant service.requested == old(service.requested) + Repeat(day, asked)
        decreases |service.script|
      {
        ghost var before := service.script;
        var resp := service.Get(day);
        if resp.None? {
          return Unanswered;
        }
        assert before[1..] == service.script;
        ghost var retry := Request(cache, rule, service.script, key);
        assert Request(cache, rule, before, key) == RequestStep(cache, rule, resp.value, service.script, retry, key);
        asked := asked + 1;
        assert service.requested == old(service.requested) + Repeat(day, asked) by {
          assert Repeat(day, asked) == Repeat(day, asked - 1) + [day];
        }
        match resp.value {
          case ConnectError =>
          case Reply(status, text, mid) =>
            if status == 200 {
              cache := cache[key := Value(mid)];
              return Ratio(mid);
            }
            if NotFound(rule, status, text) {
              cache := cache[key := Blank];
              return Unavailable;
            }
        }
      }
    }
  }

  /** How date_to_usd_pln ends: a day and its rate, or no answer from the service. */
  datatype DatedRate = RateOn(day: Day, rate: real) | NoAnswer

  /** The outcome of a backward search, the cache after it, the answers left and the days
      requested, in order. */
  datatype Searched = Searched(outcome: DatedRate, cache: map<Key, Entry>, script: seq<Response>, requested: seq<Day>)

  /** The days at or before `c` that the cache holds. */
  function CachedAtOrBefore(cache: map<Key, Entry>, c: Day): set<Day> {
    set k | k in cache && k.DayKey? && k.day <= c :: k.day
  }

  /** Stepping back past a cached day leaves fewer cached days behind. */
  lemma CachedShrinks(cache: map<Key, Entry>, c: Day, stride: nat)
    requires stride >= 1
    ensures DayKey(c) in cache ==> |CachedAtOrBefore(cache, c - stride)| < |CachedAtOrBefore(cache, c)|
  {
    if DayKey(c) in cache {
      var below, upTo := CachedAtOrBefore(cache, c - stride), CachedAtOrBefore(cache, c);
      assert below <= upTo;
      assert c in upTo && c !in below;
      assert upTo == below + (upTo - below);
      assert c in upTo - below;
      assert |upTo| == |below| + |upTo - below|;
    }
  }

  /** The days a search that starts at `c` consults: `c`, `c - stride`, `c - 2 * stride`, ... */
  predicate Candidate(c: Day, x: Day, stride: nat)
    requires stride >= 1
    decreases c - x
  {
    x == c || (x < c && Candidate(c - stride, x, stride))
  }

  /** Stepping one day at a time, every earlier day is a candidate. */
  lemma {:induction false} EveryDayIsCandidate(c: Day, x: Day)
    requires x <= c
    ensures Candidate(c, x, 1)
    decreases c - x
  {
    if x < c {
      EveryDayIsCandidate(c - 1, x);
    }
  }

  /** The backward search of date_to_usd_pln (cache/nbp.py:55-64; nbp.py:74-83;
      etrade_common.py:86-95), starting at candidate day `c`: the first candidate whose lookup
      succeeds is returned; a day without a rate moves `stride` days further back. */
  function SearchBack(cache: map<Key, Entry>, rule: NotFoundRule, script: seq<Response>, c: Day, stride: nat): (s: Searched)
    requires stride >= 1
    ensures forall k :: k in cache ==> k in s.cache && s.cache[k] == cache[k]
    decreases |script|, |CachedAtOrBefore(cache, c)|
  {
    var f := GetRatioSpec(cache, rule, script, c);
    match f.outcome
    case Ratio(v) => Searched(RateOn(c, v), f.cache, f.script, Repeat(c, f.asked))
    case Unanswered => Searched(NoAnswer, f.cache, f.script, Repeat(c, f.asked))
    case Unavailable =>
      CachedShrinks(cache, c, stride);
      var rest := SearchBack(f.cache, rule, f.script, c - stride, stride);
      rest.(requested := Repeat(c, f.asked) + rest.requested)
  }

  /** What the backward search finds: a candidate whose rate the cache now holds, with every
      nearer candidate holding a tombstone or a zero rate; and NoAnswer only once the script is
      used up. */
  lemma {:induction false} SearchBackFinds(cache: map<Key, Entry>, rule: NotFoundRule, script: seq<Response>, c: Day, stride: nat)
    requires stride >= 1
    ensures var s := SearchBack(cache, rule, script, c, stride);
      && (s.outcome.RateOn? ==>
        && Candidate(c, s.outcome.day, stride)
        && DayKey(s.outcome.day) in s.cache && s.cache[DayKey(s.outcome.day)] == Value(s.outcome.rate)
        && forall x :: Candidate(c, x, stride) && s.outcome.day < x ==> DayKey(x) in s.cache && Falsy(s.cache[DayKey(x)]))
      && (s.outcome.NoAnswer? ==> s.script == [])
    decreases |script|, |CachedAtOrBefore(cache, c)|
  {
    var f := GetRatioSpec(cache, rule, script, c);
    var s := SearchBack(cache, rule, script, c, stride);
    if f.outcome == Unavailable {
      CachedShrinks(cache, c, stride);
      SearchBackFinds(f.cache, rule, f.script, c - stride, stride);
      var rest := SearchBack(f.cache, rule, f.script, c - stride, stride);
      assert s.outcome == rest.outcome && s.cache == rest.cache && s.script == rest.script;
      if s.outcome.RateOn? {
        var day := s.outcome.day;
        forall x | Candidate(c, x, stride) && day < x
          ensures DayKey(x) in s.cache && Falsy(s.cache[DayKey(x)])
        {
          if x != c {
            assert Candidate(c - stride, x, stride);
          }
        }
      }
    }
  }

  /** The candidates of a two-day stride are the days an even number of days back. */
  lemma {:induction false} CandidatesByTwo(c: Day, x: Day)
    requires Candidate(c, x, 2)
    ensures x <= c && (c - x) % 2 == 0
    decreases c - x
  {
    if x != c {
      CandidatesByTwo(c - 2, x);
    }
  }

  /** date_to_usd_pln returns a day strictly before `d` and an odd number of days back, whose
      rate the cache now holds; every candidate it passed on the way (d - 1, d - 3, ...) holds a
      tombstone or a zero rate. */
  lemma DateToUsdPlnFinds(cache: map<Key, Entry>, rule: NotFoundRule, script: seq<Response>, d: Day)
    ensures var s := SearchBack(cache, rule, script, d - 1, 2);
      s.outcome.RateOn? ==>
        && s.outcome.day < d && (d - s.outcome.day) % 2 == 1
        && DayKey(s.outcome.day) in s.cache && s.cache[DayKey(s.outcome.day)] == Value(s.outcome.rate)
        && forall x :: Candidate(d - 1, x, 2) && s.outcome.day < x ==> DayKey(x) in s.cache && Falsy(s.cache[DayKey(x)])
  {
    var s := SearchBack(cache, rule, script, d - 1, 2);
    SearchBackFinds(cache, rule, script, d - 1, 2);
    if s.outcome.RateOn? {
      CandidatesByTwo(d - 1, s.outcome.day);
    }
  }

  /** The source's search skips days: with no rate for d - 1, a rate cached for d - 2 and one for
      d - 3, it returns d - 3. Stepping back one day at a time returns d - 2. */
  lemma SearchSkipsDays(rule: NotFoundRule, script: seq<Response>, d: Day)
    ensures var cache := map[DayKey(d - 1) := Blank, DayKey(d - 2) := Value(4.0), DayKey(d - 3) := Value(3.5)];
      && SearchBack(cache, rule, script, d - 1, 2).outcome == RateOn(d - 3, 3.5)
      && SearchBack(cache, rule, script, d - 1, 1).outcome == RateOn(d - 2, 4.0)
  {
    var cache := map[DayKey(d - 1) := Blank, DayKey(d - 2) := Value(4.0), DayKey(d - 3) := Value(3.5)];
    assert GetRatioSpec(cache, rule, script, d - 1).outcome == Unavailable;
    assert GetRatioSpec(cache, rule, script, d - 3).outcome == Ratio(3.5);
    assert GetRatioSpec(cache, rule, script, d - 2).outcome == Ratio(4.0);
  }

  /** Stepping back one day at a time finds the nearest earlier day that has a rate: every day
      from d - 1 down to the one returned, exclusive, has none. */
  lemma DayByDayFindsNearest(cache: map<Key, Entry>, rule: NotFoundRule, script: seq<Response>, d: Day)
    ensures var s := SearchBack(cache, rule, script, d - 1, 1);
      s.outcome.RateOn? ==>
        && s.outcome.day < d
        && DayKey(s.outcome.day) in s.cache && s.cache[DayKey(s.outcome.day)] == Value(s.outcome.rate)
        && forall x :: s.outcome.day < x < d ==> DayKey(x) in s.cache && Falsy(s.cache[DayKey(x)])
  {
    var s := SearchBack(cache, rule, script, d - 1, 1);
    SearchBackFinds(cache, rule, script, d - 1, 1);
    if s.outcome.RateOn? {
      forall x | s.outcome.day < x < d
        ensures DayKey(x) in s.cache && Falsy(s.cache[DayKey(x)])
      {
        EveryDayIsCandidate(d - 1, x);
      }
    }
  }

  /** date_to_usd_pln (cache/nbp.py:55-64; nbp.py:74-83; etrade_common.py:86-95): the day before
      `d` first, then, after each day without a rate, two days further back. */
  method DateToUsdPln(nbp: NbpRatiosCache, service: RateService, d: Day) returns (r: DatedRate)
    modifies nbp, service
    ensures var s := SearchBack(old(nbp.cache), nbp.rule, old(service.script), d - 1, 2);
      && r == s.outcome && nbp.cache == s.cache && service.script == s.script
      && service.requested == old(service.requested) + s.requested
  {
    var date := d;
    while true
      invariant var s0 := SearchBack(old(nbp.cache), nbp.rule, old(service.script), d - 1, 2);
                var s := SearchBack(nbp.cache, nbp.rule, service.script, date - 1, 2);
        && s0.outcome == s.outcome && s0.cache == s.cache && s0.script == s.script
        && old(service.requested) + s0.requested == service.requested + s.requested
      decreases |service.script|, |CachedAtOrBefore(nbp.cache, date - 1)|
    {
      date := date - 1;
      ghost var cache, script, requested := nbp.cache, service.script, service.requested;
      CachedShrinks(cache, date, 2);
      var outcome := nbp.GetRatio(service, date);
      if outcome.Ratio? {
        return RateOn(date, outcome.value);
      }
      if outcome.Unanswered? {
        return NoAnswer;
      }
      date := date - 1;
      assert service.requested + SearchBack(nbp.cache, nbp.rule, service.script, date - 1, 2).requested
          == requested + SearchBack(cache, nbp.rule, script, date + 1, 2).requested;
    }
  }

  /** The backward search stepping back one day per missing rate: the day before `d` first, then
      one day further back for each day without a rate. */
  method DateToUsdPlnDayByDay(nbp: NbpRatiosCache, service: RateService, d: Day) returns (r: DatedRate)
    modifies nbp, service
    ensures var s := SearchBack(old(nbp.cache), nbp.rule, old(service.script), d - 1, 1);
      && r == s.outcome && nbp.cache == s.cache && service.script == s.script
      && service.requested == old(service.requested) + s.requested
  {
    var date := d;
    while true
      invariant var s0 := SearchBack(old(nbp.cache), nbp.rule, old(service.script), d - 1, 1);
                var s := SearchBack(nbp.cache, nbp.rule, service.script, date - 1, 1);
        && s0.outcome == s.outcome && s0.cache == s.cache && s0.script == s.script
        && old(service.requested) + s0.requested == service.requested + s.requested
      decreases |service.script|, |CachedAtOrBefore(nbp.cache, date - 1)|
    {
      date := date - 1;
      ghost var cache, script, requested := nbp.cache, service.script, service.requested;
      CachedShrinks(cache, date, 1);
      var outcome := nbp.GetRatio(service, date);
      if outcome.Ratio? {
        return RateOn(date, outcome.value);
      }
      if outcome.Unanswered? {
        return NoAnswer;
      }
      assert service.requested + SearchBack(nbp.cache, nbp.rule, service.script, date - 1, 1).requested
          == requested + SearchBack(cache, nbp.rule, script, date, 1).requested;
    }
  }
}
