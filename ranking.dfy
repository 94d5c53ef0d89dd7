/**
 * Ranked lists: the five categories, the page assembler that builds one
 * category's list from the upstream ranked-list endpoint
 * (`fetch_rank_data`) and the merge of all categories (`fetch_all_rank_data`).
 *
 * The endpoint, after `fetch_with_retry`, is a `PageSource`: given the
 * category code, the page cursor `recIdx` and the page size `recCnt`, it
 * yields the page's rows, or `None` when the request failed or the envelope
 * had no `data` field. A `null` `data` is also read as `None`, although
 * `len(None)` raises `TypeError` there in Python.
 */
module Ranking {
  import opened Wrappers

  /**
   * One row of a ranked list, with the fields the core reads or writes:
   * the portfolio id `zjzh` ("" when absent), the portfolio name `zhuheName`
   * ("" when absent), and the `rank`, `rank_type` and `rank_name` the
   * assembler stamps on it.
   */
  datatype Entry = Entry(zjzh: string, zhuheName: string, rank: int, rankType: string, rankName: string)

  /** One category of a rank map: the key (`"daily"`, ...) and its list of rows. */
  datatype Category = Category(key: string, entries: seq<Entry>)

  /** A rank map `{category: {'result': '0', 'data': [...]}}`, in the dict's key order. */
  type RankData = seq<Category>

  ghost predicate DistinctKeys(d: RankData) {
    forall i, j :: 0 <= i < j < |d| ==> d[i].key != d[j].key
  }

  /** `d.get(key)['data']`, when the key is present. */
  function Lookup(d: RankData, key: string): Option<seq<Entry>> {
    if d == [] then None
    else if d[0].key == key then Some(d[0].entries)
    else Lookup(d[1..], key)
  }

  /** `sum(len(v['data']) for v in d.values())`. */
  function TotalRecords(d: RankData): nat {
    if d == [] then 0 else |d[0].entries| + TotalRecords(d[1..])
  }

  /** Static configuration of one category: key, upstream code, display name, target count. */
  datatype RankConfig = RankConfig(key: string, code: string, name: string, recCnt: nat)

  const RecordCount: nat := 100

  /** `self.rank_types` (rank_crawler.py:49-56), in its key order. */
  const RankTypes: seq<RankConfig> := [
    RankConfig("daily", "10005", "日榜", RecordCount),
    RankConfig("weekly", "10000", "周榜", RecordCount),
    RankConfig("monthly", "10001", "月榜", RecordCount),
    RankConfig("yearly", "10003", "年榜", RecordCount),
    RankConfig("total", "10004", "总榜", RecordCount)
  ]

  /** `self.rank_types.get(key, {}).get('name', key)`. */
  function DisplayName(key: string): string {
    if key == "daily" then "日榜"
    else if key == "weekly" then "周榜"
    else if key == "monthly" then "月榜"
    else if key == "yearly" then "年榜"
    else if key == "total" then "总榜"
    else key
  }

  type PageSource = (string, nat, nat) -> Option<seq<Entry>>

  /** The upstream serves at most this many rows per request. */
  const PageSize: nat := 20

  function Min(a: int, b: int): int {
    if a <= b then a else b
  }

  /**
   * The rows the paging loop accumulates, starting at page cursor `page` with
   * `acc` already gathered: request `min(20, remaining)` rows; stop once the
   * target is reached, after a page shorter than requested, or at a failed or
   * empty page, keeping what was gathered before.
   */
  function Gather(fetch: PageSource, code: string, target: nat, page: nat, acc: seq<Entry>): seq<Entry>
    decreases if |acc| < target then target - |acc| else 0
  {
    if |acc| >= target then acc
    else
      var count := Min(PageSize, target - |acc|);
      var data := fetch(code, page, count);
      if data.Some? && |data.value| > 0 then
        if |data.value| < count then acc + data.value
        else Gather(fetch, code, target, page + 1, acc + data.value)
      else acc
  }

  /** An upstream that answers every request of up to a page with exactly as many rows. */
  ghost predicate ServesFullPages(fetch: PageSource, code: string) {
    forall page: nat, n: nat :: 0 < n <= PageSize ==>
      fetch(code, page, n).Some? && |fetch(code, page, n).value| == n
  }

  /** An upstream that never answers with more rows than requested. */
  ghost predicate HonoursCount(fetch: PageSource, code: string) {
    forall page: nat, n: nat :: fetch(code, page, n).Some? ==> |fetch(code, page, n).value| <= n
  }

  /** Earlier pages are kept whatever happens later. */
  lemma {:induction false} GatherKeepsEarlierPages(fetch: PageSource, code: string, target: nat, page: nat, acc: seq<Entry>)
    ensures |acc| <= |Gather(fetch, code, target, page, acc)|
    ensures Gather(fetch, code, target, page, acc)[..|acc|] == acc
    decreases if |acc| < target then target - |acc| else 0
  {
    if |acc| < target {
      var count := Min(PageSize, target - |acc|);
      var data := fetch(code, page, count);
      if data.Some? && |data.value| > 0 && |data.value| >= count {
        GatherKeepsEarlierPages(fetch, code, target, page + 1, acc + data.value);
        assert (acc + data.value)[..|acc|] == acc;
      }
    }
  }

  /** With an upstream that always serves full pages the target is met exactly. */
  lemma {:induction false} GatherMeetsTarget(fetch: PageSource, code: string, target: nat, page: nat, acc: seq<Entry>)
    requires ServesFullPages(fetch, code) && |acc| <= target
    ensures |Gather(fetch, code, target, page, acc)| == target
    decreases target - |acc|
  {
    if |acc| < target {
      var count := Min(PageSize, target - |acc|);
      assert fetch(code, page, count).Some? && |fetch(code, page, count).value| == count;
      GatherMeetsTarget(fetch, code, target, page + 1, acc + fetch(code, page, count).value);
    }
  }

  /** With an upstream that honours the requested count the target is never exceeded. */
  lemma {:induction false} GatherWithinTarget(fetch: PageSource, code: string, target: nat, page: nat, acc: seq<Entry>)
    requires HonoursCount(fetch, code) && |acc| <= target
    ensures |Gather(fetch, code, target, page, acc)| <= target
    decreases target - |acc|
  {
    if |acc| < target {
      var count := Min(PageSize, target - |acc|);
      var data := fetch(code, page, count);
      if data.Some? && |data.value| > 0 && |data.value| >= count {
        assert |data.value| <= count;
        GatherWithinTarget(fetch, code, target, page + 1, acc + data.value);
      }
    }
  }

  /** The rows gathered for one category, stamped with 1-based ranks and the category tag. */
  function Stamp(all: seq<Entry>, cfg: RankConfig): (r: seq<Entry>)
    ensures |r| == |all|
  {
    seq(|all|, i requires 0 <= i < |all| => all[i].(rank := i + 1, rankType := cfg.key, rankName := cfg.name))
  }

  /** A first request that fails or comes back empty. */
  predicate FirstPageMissing(fetch: PageSource, cfg: RankConfig) {
    var data := fetch(cfg.code, 0, Min(PageSize, cfg.recCnt));
    data.None? || |data.value| == 0
  }

  /**
   * What `fetch_rank_data` returns for one category: `None` when nothing was
   * gathered, otherwise at most `recCnt` rows, in arrival order, ranked
   * 1..N and tagged with the category.
   */
  function RankList(fetch: PageSource, cfg: RankConfig): (r: Option<seq<Entry>>)
    ensures r.None? <==> cfg.recCnt == 0 || FirstPageMissing(fetch, cfg)
    ensures r.Some? ==> 0 < |r.value| <= cfg.recCnt
    ensures r.Some? ==> |r.value| == Min(cfg.recCnt, |Gather(fetch, cfg.code, cfg.recCnt, 0, [])|)
    ensures r.Some? ==> forall i :: 0 <= i < |r.value| ==>
      && r.value[i].rank == i + 1 && r.value[i].rankType == cfg.key && r.value[i].rankName == cfg.name
      && r.value[i].zjzh == Gather(fetch, cfg.code, cfg.recCnt, 0, [])[i].zjzh
      && r.value[i].zhuheName == Gather(fetch, cfg.code, cfg.recCnt, 0, [])[i].zhuheName
  {
    var all := Gather(fetch, cfg.code, cfg.recCnt, 0, []);
    GatherFirstPage(fetch, cfg);
    if all == [] then None else Some(Stamp(all, cfg)[..Min(cfg.recCnt, |all|)])
  }

  lemma GatherFirstPage(fetch: PageSource, cfg: RankConfig)
    ensures Gather(fetch, cfg.code, cfg.recCnt, 0, []) == [] <==> cfg.recCnt == 0 || FirstPageMissing(fetch, cfg)
  {
    if cfg.recCnt > 0 && !FirstPageMissing(fetch, cfg) {
      var data := fetch(cfg.code, 0, Min(PageSize, cfg.recCnt));
      assert [] + data.value == data.value;
      GatherKeepsEarlierPages(fetch, cfg.code, cfg.recCnt, 1, data.value);
    }
  }

  /** `fetch_rank_data`: the paging loop, then the rank-stamping loop. */
  method FetchRankData(fetch: PageSource, cfg: RankConfig) returns (r: Option<seq<Entry>>)
    ensures r == RankList(fetch, cfg)
  {
    var all: seq<Entry> := [];
    var target := cfg.recCnt;
    var currentPage: nat := 0;
    ghost var whole := Gather(fetch, cfg.code, target, 0, []);
    while |all| < target
      invariant Gather(fetch, cfg.code, target, currentPage, all) == whole
      decreases target - |all|
    {
      var remaining := target - |all|;
      var currentCount := Min(PageSize, remaining);
      var data := fetch(cfg.code, currentPage, currentCount);
      if data.Some? && |data.value| > 0 {
        all := all + data.value;
        currentPage := currentPage + 1;
        if |data.value| < currentCount {
          assert all == whole;
          break;
        }
      } else {
        assert all == whole;
        break;
      }
    }
    assert all == whole;
    if |all| > 0 {
      var i := 0;
      while i < |all|
        invariant 0 <= i <= |all| == |whole|
        invariant forall k :: 0 <= k < i ==> all[k] == Stamp(whole, cfg)[k]
        invariant forall k :: i <= k < |all| ==> all[k] == whole[k]
      {
        all := all[i := all[i].(rank := i + 1, rankType := cfg.key, rankName := cfg.name)];
        i := i + 1;
      }
      assert all == Stamp(whole, cfg);
      r := Some(all[..Min(target, |all|)]);
    } else {
      r := None;
    }
  }

  /**
   * The merged rank map for `configs` taken in order: a category whose list
   * came back `None` is absent.
   */
  function Merged(fetch: PageSource, configs: seq<RankConfig>): RankData
  {
    if configs == [] then []
    else
      var init := Merged(fetch, configs[..|configs| - 1]);
      var cfg := configs[|configs| - 1];
      match RankList(fetch, cfg)
      case Some(es) => init + [Category(cfg.key, es)]
      case None => init
  }

  /** `fetch_all_rank_data`: await the five category fetches in turn and keep those with data. */
  method FetchAllRankData(fetch: PageSource) returns (results: RankData)
    ensures results == Merged(fetch, RankTypes)
  {
    results := [];
    var i := 0;
    while i < |RankTypes|
      invariant 0 <= i <= |RankTypes|
      invariant results == Merged(fetch, RankTypes[..i])
    {
      var data := FetchRankData(fetch, RankTypes[i]);
      assert RankTypes[..i + 1][..i] == RankTypes[..i];
      if data.Some? {
        results := results + [Category(RankTypes[i].key, data.value)];
      }
      i := i + 1;
    }
    assert RankTypes[..i] == RankTypes;
  }

  lemma {:induction false} LookupAppend(d: RankData, c: Category, key: string)
    ensures Lookup(d + [c], key) ==
      if Lookup(d, key).Some? then Lookup(d, key)
      else if c.key == key then Some(c.entries) else None
  {
    if d != [] {
      assert (d + [c])[1..] == d[1..] + [c];
      LookupAppend(d[1..], c, key);
    }
  }

  lemma {:induction false} TotalAppend(d: RankData, c: Category)
    ensures TotalRecords(d + [c]) == TotalRecords(d) + |c.entries|
  {
    if d != [] {
      assert (d + [c])[1..] == d[1..] + [c];
      TotalAppend(d[1..], c);
    }
  }

  ghost predicate DistinctConfigKeys(configs: seq<RankConfig>) {
    forall i, j :: 0 <= i < j < |configs| ==> configs[i].key != configs[j].key
  }

  /**
   * Each configured category is present in the merge exactly when its fetch
   * returned rows, and then with those rows; nothing else is present.
   */
  lemma {:induction false} MergedLookup(fetch: PageSource, configs: seq<RankConfig>, key: string)
    requires DistinctConfigKeys(configs)
    ensures forall i :: 0 <= i < |configs| && configs[i].key == key ==>
      Lookup(Merged(fetch, configs), key) == RankList(fetch, configs[i])
    ensures (forall i :: 0 <= i < |configs| ==> configs[i].key != key) ==>
      Lookup(Merged(fetch, configs), key) == None
  {
    if configs != [] {
      var init := configs[..|configs| - 1];
      var cfg := configs[|configs| - 1];
      MergedLookup(fetch, init, key);
      match RankList(fetch, cfg)
      case Some(es) => LookupAppend(Merged(fetch, init), Category(cfg.key, es), key);
      case None =>
    }
  }

  /** The merge has distinct keys, and every category in it has between 1 and `recCnt` rows. */
  lemma {:induction false} MergedShape(fetch: PageSource, configs: seq<RankConfig>)
    requires DistinctConfigKeys(configs)
    ensures DistinctKeys(Merged(fetch, configs))
    ensures forall c :: 0 <= c < |Merged(fetch, configs)| ==>
      (exists i :: 0 <= i < |configs| && configs[i].key == Merged(fetch, configs)[c].key
                   && 0 < |Merged(fetch, configs)[c].entries| <= configs[i].recCnt)
  {
    if configs != [] {
      var init := configs[..|configs| - 1];
      var cfg := configs[|configs| - 1];
      MergedShape(fetch, init);
      var m := Merged(fetch, init);
      forall c | 0 <= c < |m| ensures m[c].key != cfg.key {
        var i :| 0 <= i < |init| && init[i].key == m[c].key && 0 < |m[c].entries| <= init[i].recCnt;
        assert configs[i] == init[i];
      }
      forall c | 0 <= c < |m|
        ensures exists i :: 0 <= i < |configs| && configs[i].key == m[c].key && 0 < |m[c].entries| <= configs[i].recCnt
      {
        var i :| 0 <= i < |init| && init[i].key == m[c].key && 0 < |m[c].entries| <= init[i].recCnt;
        assert configs[i] == init[i];
      }
    }
  }

  /** The merged map's total counts the rows of exactly the categories that came back. */
  lemma {:induction false} MergedTotal(fetch: PageSource, configs: seq<RankConfig>)
    ensures TotalRecords(Merged(fetch, configs)) == FetchedRows(fetch, configs)
  {
    if configs != [] {
      var init := configs[..|configs| - 1];
      var cfg := configs[|configs| - 1];
      MergedTotal(fetch, init);
      match RankList(fetch, cfg)
      case Some(es) => TotalAppend(Merged(fetch, init), Category(cfg.key, es));
      case None =>
    }
  }

  /** The number of rows each category's fetch returned, summed over `configs`. */
  function FetchedRows(fetch: PageSource, configs: seq<RankConfig>): nat {
    if configs == [] then 0
    else
      FetchedRows(fetch, configs[..|configs| - 1])
      + match RankList(fetch, configs[|configs| - 1])
        case Some(es) => |es|
        case None => 0
  }

  lemma RankTypesDistinct()
    ensures DistinctConfigKeys(RankTypes)
  {
  }
}
