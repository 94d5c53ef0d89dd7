/**
 * The `RankCrawler` object: its snapshot store (the disk cache, a key-value
 * map), the save / load / expiry sweep of snapshots, the read-through that
 * refreshes an empty store once, and the two entry points `tc_list` and
 * `get_stock_summary` that compose the other modules over that store.
 *
 * The clock is the parameter `now`, the upstream services are the oracles
 * `fetch` (rank pages) and `holdings` (a portfolio's records), and the expiry
 * window `expireHours` is a parameter.
 */
module Crawler {
  import opened Wrappers
  import opened Text
  import opened Calendar
  import opened Ranking
  import opened Dedup
  import opened Rebalance
  import opened Summary

  /**
   * A stored snapshot: `timestamp`, `date` and `update_time` all render the
   * clock reading `taken`; `total_records` and the (optionally de-duplicated)
   * rank map `data`.
   */
  datatype Snapshot = Snapshot(taken: DateTime, totalRecords: int, data: RankData)

  const DataPrefix: string := "rank_data_"
  const LatestKey: string := "latest_rank_data"

  /** `f"rank_data_{date_str}"`, the key a save writes for the day `d`. */
  function DatedKey(d: Date): (k: string)
    requires ValidDate(d)
    ensures |k| == 18 && StartsWith(k, DataPrefix)
  {
    DataPrefix + FormatDate8(d)
  }

  /** The snapshot a save of `data` at `now` stores. */
  function SnapshotOf(data: RankData, now: DateTime, dedup: bool): (s: Snapshot)
    ensures s.totalRecords == TotalRecords(s.data)
    ensures s.data == if dedup then Deduplicated(data) else data
  {
    var stored := if dedup then Deduplicated(data) else data;
    Snapshot(now, TotalRecords(stored), stored)
  }

  // ---------------------------------------------------------------------
  // The expiry sweep

  /** `now - timedelta(hours=expireHours)`, as an instant in microseconds. */
  function Threshold(now: DateTime, expireHours: int): int
    requires ValidDateTime(now)
  {
    Instant(now) - expireHours * MicrosPerHour
  }

  /**
   * The time a cache key denotes for the sweep: a `rank_data_` key whose
   * remainder (every `rank_data_` removed) has 8 characters is read as
   * `%Y%m%d` (midnight of that day) and one with 15 characters as
   * `%Y%m%d_%H%M%S`. Other keys, other lengths and remainders that do not
   * parse denote nothing.
   */
  function KeyTime(key: string): (r: Option<int>)
    ensures r.Some? ==> StartsWith(key, DataPrefix)
  {
    if !StartsWith(key, DataPrefix) then None
    else
      var rest := RemoveAll(key, DataPrefix);
      if |rest| == 8 then
        match ParseDate8(rest)
        case Some(d) => Some(Instant(Midnight(d)))
        case None => None
      else if |rest| == 15 then
        match ParseStamp15(rest)
        case Some(t) => Some(Instant(t))
        case None => None
      else None
  }

  /** Whether the sweep deletes `key`: its time is strictly before the threshold. */
  predicate Expired(key: string, threshold: int) {
    KeyTime(key).Some? && KeyTime(key).value < threshold
  }

  /** The store after a sweep with `threshold`. */
  function Sweep(c: map<string, Snapshot>, threshold: int): map<string, Snapshot> {
    map k | k in c && !Expired(k, threshold) :: c[k]
  }

  /** The latest snapshot is never evicted, and keys outside `rank_data_` are never touched. */
  lemma SweepKeepsOtherKeys(c: map<string, Snapshot>, threshold: int, k: string)
    requires k in c && !StartsWith(k, DataPrefix)
    ensures k in Sweep(c, threshold) && Sweep(c, threshold)[k] == c[k]
  {
  }

  lemma LatestIsNotDated()
    ensures !StartsWith(LatestKey, DataPrefix)
  {
    assert LatestKey[0] != DataPrefix[0];
  }

  /** A `rank_data_` key whose remainder has neither 8 nor 15 characters is kept. */
  lemma SweepKeepsOddLengths(c: map<string, Snapshot>, threshold: int, k: string)
    requires k in c && StartsWith(k, DataPrefix)
    requires |RemoveAll(k, DataPrefix)| != 8 && |RemoveAll(k, DataPrefix)| != 15
    ensures k in Sweep(c, threshold) && Sweep(c, threshold)[k] == c[k]
  {
  }

  /** Sweeping twice with the same threshold removes nothing more. */
  lemma SweepIdempotent(c: map<string, Snapshot>, threshold: int)
    ensures Sweep(Sweep(c, threshold), threshold) == Sweep(c, threshold)
  {
    var once := Sweep(c, threshold);
    var twice := Sweep(once, threshold);
    assert twice.Keys == once.Keys;
  }

  /** Nothing is added by a sweep, and what stays keeps its snapshot. */
  lemma SweepShrinks(c: map<string, Snapshot>, threshold: int)
    ensures Sweep(c, threshold).Keys <= c.Keys
    ensures forall k :: k in Sweep(c, threshold) ==> Sweep(c, threshold)[k] == c[k]
  {
  }

  /** The remainder of a dated key is the eight date digits. */
  lemma DatedKeyRest(d: Date)
    requires ValidDate(d)
    ensures RemoveAll(DatedKey(d), DataPrefix) == FormatDate8(d)
  {
    var s := FormatDate8(d);
    var k := DatedKey(d);
    assert k[..|DataPrefix|] == DataPrefix;
    assert k[|DataPrefix|..] == s;
    FormatDate8Digits(d);
    RemoveAllNoHead(s, DataPrefix);
  }

  /** A dated key denotes midnight of its day. */
  lemma DatedKeyTime(d: Date)
    requires ValidDate(d)
    ensures KeyTime(DatedKey(d)) == Some(Instant(Midnight(d)))
  {
    DatedKeyRest(d);
    FormatDate8RoundTrip(d);
  }

  /** A dated key survives a sweep exactly when midnight of its day is not before the threshold. */
  lemma SweepDatedKey(c: map<string, Snapshot>, threshold: int, d: Date)
    requires ValidDate(d)
    ensures DatedKey(d) in Sweep(c, threshold) <==>
      DatedKey(d) in c && Instant(Midnight(d)) >= threshold
  {
    DatedKeyTime(d);
  }

  // ---------------------------------------------------------------------
  // Store transitions

  /** The store after a save of `data` at `now`: both keys written, then swept. */
  function Saved(c: map<string, Snapshot>, data: RankData, now: DateTime, dedup: bool, expireHours: int): map<string, Snapshot>
    requires ValidDateTime(now)
  {
    var s := SnapshotOf(data, now, dedup);
    Sweep(c[DatedKey(now.date) := s][LatestKey := s], Threshold(now, expireHours))
  }

  /**
   * After a save, `latest_rank_data` holds the new snapshot; the dated key of
   * the day holds it too exactly when midnight of the day lies within the
   * expiry window, since the sweep reads that key as midnight.
   */
  lemma SavedKeys(c: map<string, Snapshot>, data: RankData, now: DateTime, dedup: bool, expireHours: int)
    requires ValidDateTime(now)
    ensures var r := Saved(c, data, now, dedup, expireHours);
      && LatestKey in r && r[LatestKey] == SnapshotOf(data, now, dedup)
      && (DatedKey(now.date) in r <==> TimeOfDay(now) <= expireHours * MicrosPerHour)
      && (DatedKey(now.date) in r ==> r[DatedKey(now.date)] == SnapshotOf(data, now, dedup))
  {
    var s := SnapshotOf(data, now, dedup);
    var w := c[DatedKey(now.date) := s][LatestKey := s];
    LatestIsNotDated();
    SweepKeepsOtherKeys(w, Threshold(now, expireHours), LatestKey);
    SweepDatedKey(w, Threshold(now, expireHours), now.date);
    assert DatedKey(now.date) != LatestKey;
  }

  /** Whether the read-through can answer from the store: a latest snapshot with rows. */
  predicate Hit(c: map<string, Snapshot>) {
    LatestKey in c && c[LatestKey].totalRecords > 0
  }

  /** What the read-through returns (`{}` is `None`). */
  function ReadThrough(c: map<string, Snapshot>, fetch: PageSource, now: DateTime, dedup: bool): Option<Snapshot> {
    if Hit(c) then Some(c[LatestKey])
    else if Merged(fetch, RankTypes) != [] then Some(SnapshotOf(Merged(fetch, RankTypes), now, dedup))
    else None
  }

  /** The store after the read-through. */
  function AfterReadThrough(c: map<string, Snapshot>, fetch: PageSource, now: DateTime, dedup: bool, expireHours: int): map<string, Snapshot>
    requires ValidDateTime(now)
  {
    if Hit(c) then c
    else if Merged(fetch, RankTypes) != [] then Saved(c, Merged(fetch, RankTypes), now, dedup, expireHours)
    else c
  }

  /**
   * The read-through hands out the snapshot stored under `latest_rank_data`
   * once it is done, and returns nothing only when no category came back and
   * the store had no latest snapshot with rows.
   */
  lemma ReadThroughIsLatest(c: map<string, Snapshot>, fetch: PageSource, now: DateTime, dedup: bool, expireHours: int)
    requires ValidDateTime(now)
    ensures var r := ReadThrough(c, fetch, now, dedup);
      var after := AfterReadThrough(c, fetch, now, dedup, expireHours);
      && (r.Some? ==> LatestKey in after && after[LatestKey] == r.value)
      && (r.None? <==> !Hit(c) && Merged(fetch, RankTypes) == [])
  {
    if !Hit(c) && Merged(fetch, RankTypes) != [] {
      SavedKeys(c, Merged(fetch, RankTypes), now, dedup, expireHours);
    }
  }

  /** A refresh that brings rows leaves a store the next read-through answers from. */
  lemma RefreshThenHit(c: map<string, Snapshot>, fetch: PageSource, now: DateTime, dedup: bool, expireHours: int)
    requires ValidDateTime(now)
    requires TotalRecords(SnapshotOf(Merged(fetch, RankTypes), now, dedup).data) > 0
    ensures Hit(AfterReadThrough(c, fetch, now, dedup, expireHours))
  {
    if !Hit(c) {
      assert Merged(fetch, RankTypes) != [] by {
        if dedup {
          assert |Deduplicated(Merged(fetch, RankTypes))| == |Merged(fetch, RankTypes)|;
        }
      }
      SavedKeys(c, Merged(fetch, RankTypes), now, dedup, expireHours);
    }
  }

  /** The category keys of a fetched merge: never `"data"`. */
  lemma MergedHasNoDataKey(fetch: PageSource)
    ensures Lookup(Merged(fetch, RankTypes), "data").None?
  {
    RankTypesDistinct();
    MergedLookup(fetch, RankTypes, "data");
  }

  /** The rank map `tc_list` and `get_stock_summary` work on: the read-through's, or none. */
  function RankMapOf(r: Option<Snapshot>): RankData {
    if r.Some? then r.value.data else []
  }

  /** What `tc_list` returns when the read-through gave `r`. */
  function TcListResult(r: Option<Snapshot>, holdings: HoldingsSource, now: DateTime, daysBack: int, maxDaysSearch: int): seq<RebalanceEvent>
    requires ValidDateTime(now) && InYearRange(TargetDays(now, daysBack, maxDaysSearch))
  {
    if RankMapOf(r) == [] then []
    else Events(holdings, Portfolios(RankMapOf(r)), TargetDates(now, daysBack, maxDaysSearch))
  }

  /** `sum(len(v['data']) for v in data.values())`, counted category by category. */
  method CountRecords(data: RankData) returns (total: nat)
    ensures total == TotalRecords(data)
  {
    total := 0;
    var c := |data|;
    while c > 0
      invariant 0 <= c <= |data|
      invariant total == TotalRecords(data[c..])
    {
      c := c - 1;
      assert data[c..][1..] == data[c + 1..];
      total := total + |data[c].entries|;
    }
  }

  class RankCrawler {
    /** The disk cache: snapshot per key. */
    var cache: map<string, Snapshot>
    const enableDeduplication: bool

    /** Opens the store as it was left on disk. */
    constructor(stored: map<string, Snapshot>, enableDeduplication: bool)
      ensures cache == stored && this.enableDeduplication == enableDeduplication
    {
      cache := stored;
      this.enableDeduplication := enableDeduplication;
    }

    /** `load_latest_rank_data`. */
    function LoadLatestRankData(): (r: Option<Snapshot>)
      reads this
      ensures r.Some? <==> LatestKey in cache
      ensures r.Some? ==> r.value == cache[LatestKey]
    {
      if LatestKey in cache then Some(cache[LatestKey]) else None
    }

    /**
     * `clean_expired_cache`: collect the expired keys over one pass of the
     * store, then delete them.
     */
    method CleanExpiredCache(now: DateTime, expireHours: int)
      requires ValidDateTime(now)
      modifies this
      ensures cache == Sweep(old(cache), Threshold(now, expireHours))
    {
      var threshold := Instant(now) - expireHours * MicrosPerHour;
      var expired: set<string> := {};
      var pending := cache.Keys;
      while pending != {}
        invariant pending <= cache.Keys
        invariant expired == set k | k in cache.Keys - pending && Expired(k, threshold)
        decreases pending
      {
        var key :| key in pending;
        if Expired(key, threshold) {
          expired := expired + {key};
        }
        pending := pending - {key};
      }
      var doomed := expired;
      while doomed != {}
        invariant doomed <= expired
        invariant cache == old(cache) - (expired - doomed)
        decreases doomed
      {
        var key :| key in doomed;
        cache := cache - {key};
        doomed := doomed - {key};
      }
      assert cache == Sweep(old(cache), threshold);
    }

    /**
     * `save_rank_data`: de-duplicate when enabled, count the rows, replace the
     * day's snapshot and the latest one, then sweep.
     */
    method SaveRankData(data: RankData, now: DateTime, expireHours: int) returns (key: string)
      requires ValidDateTime(now)
      modifies this
      ensures key == DatedKey(now.date)
      ensures cache == Saved(old(cache), data, now, enableDeduplication, expireHours)
    {
      var stored := data;
      if enableDeduplication {
        stored := DeduplicateRankData(data);
      }
      var total := CountRecords(stored);
      var merged := Snapshot(now, total, stored);
      assert merged == SnapshotOf(data, now, enableDeduplication);
      key := DataPrefix + FormatDate8(now.date);
      if key in cache {
        cache := cache - {key};
      }
      cache := cache[key := merged];
      assert cache == old(cache)[key := merged];
      cache := cache[LatestKey := merged];
      CleanExpiredCache(now, expireHours);
    }

    /** `run_update`: fetch every category and save when any came back. */
    method RunUpdate(fetch: PageSource, now: DateTime, expireHours: int) returns (success: bool)
      requires ValidDateTime(now)
      modifies this
      ensures success <==> Merged(fetch, RankTypes) != []
      ensures success ==> cache == Saved(old(cache), Merged(fetch, RankTypes), now, enableDeduplication, expireHours)
      ensures !success ==> cache == old(cache)
    {
      var rankData := FetchAllRankData(fetch);
      success := false;
      if rankData != [] {
        var _ := SaveRankData(rankData, now, expireHours);
        success := true;
      }
    }

    /**
     * `get_cached_rank_list_with_auto_update`: answer from the latest snapshot
     * when it has rows, otherwise refresh once and answer from what was saved.
     */
    method GetCachedRankListWithAutoUpdate(fetch: PageSource, now: DateTime, expireHours: int) returns (r: Option<Snapshot>)
      requires ValidDateTime(now)
      modifies this
      ensures r == ReadThrough(old(cache), fetch, now, enableDeduplication)
      ensures cache == AfterReadThrough(old(cache), fetch, now, enableDeduplication, expireHours)
    {
      var cached := LoadLatestRankData();
      if cached.Some? && cached.value.totalRecords > 0 {
        return cached;
      }
      var success := RunUpdate(fetch, now, expireHours);
      if success {
        SavedKeys(old(cache), Merged(fetch, RankTypes), now, enableDeduplication, expireHours);
        r := LoadLatestRankData();
      } else {
        r := None;
      }
    }

    /**
     * `tc_list`: take the rank map (with `useCache` false the fresh merge is
     * fetched first, but it never has a `"data"` key, so the read-through is
     * consulted either way), then collect the rebalance events of its
     * portfolios on the target dates.
     */
    method TcList(fetch: PageSource, holdings: HoldingsSource, now: DateTime, expireHours: int,
                  daysBack: int, maxDaysSearch: int, useCache: bool) returns (events: seq<RebalanceEvent>)
      requires ValidDateTime(now) && InYearRange(TargetDays(now, daysBack, maxDaysSearch))
      modifies this
      ensures events == TcListResult(ReadThrough(old(cache), fetch, now, enableDeduplication), holdings, now, daysBack, maxDaysSearch)
      ensures cache == AfterReadThrough(old(cache), fetch, now, enableDeduplication, expireHours)
    {
      var cached: Option<Snapshot>;
      if useCache {
        cached := GetCachedRankListWithAutoUpdate(fetch, now, expireHours);
      } else {
        var fetched := FetchAllRankData(fetch);
        MergedHasNoDataKey(fetch);
        if fetched == [] || Lookup(fetched, "data").None? {
          cached := GetCachedRankListWithAutoUpdate(fetch, now, expireHours);
        } else {
          assert false;
          cached := None;
        }
      }
      if cached.None? || cached.value.data == [] {
        return [];
      }
      var targets := GetTargetDates(now, daysBack, maxDaysSearch);
      var portfolios := CollectPortfolios(cached.value.data);
      events := CollectEvents(holdings, portfolios, targets);
    }

    /**
     * `get_stock_summary`: the events of `tc_list` (fresh mode), then a second
     * read-through for the rank badges, then grouping, parsing and ordering.
     */
    method GetStockSummary(fetch: PageSource, holdings: HoldingsSource, now: DateTime, expireHours: int,
                           daysBack: int, maxDaysSearch: int) returns (result: seq<StockSummary>)
      requires ValidDateTime(now) && InYearRange(TargetDays(now, daysBack, maxDaysSearch))
      modifies this
      ensures var first := AfterReadThrough(old(cache), fetch, now, enableDeduplication, expireHours);
        && result == StockSummaries(
             TcListResult(ReadThrough(old(cache), fetch, now, enableDeduplication), holdings, now, daysBack, maxDaysSearch),
             RankMapOf(ReadThrough(first, fetch, now, enableDeduplication)))
        && cache == AfterReadThrough(first, fetch, now, enableDeduplication, expireHours)
    {
      var records := TcList(fetch, holdings, now, expireHours, daysBack, maxDaysSearch, false);
      var cached := GetCachedRankListWithAutoUpdate(fetch, now, expireHours);
      var d: RankData := [];
      if cached.Some? && cached.value.data != [] {
        d := cached.value.data;
      }
      result := Summary.GetStockSummary(records, d);
    }
  }
}
