# Stock-portfolio rank crawler: a verified Dafny model

This project models the core of `rank_crawler.py`, the `RankCrawler` class of a
crawler for the public "portfolio ranking" lists of a Chinese brokerage
community. The model covers what the class does with the data and leaves the
network out. It covers:

- paging through one ranking list, and merging the five lists (daily, weekly,
  monthly, yearly, total);
- de-duplicating portfolios so that each appears only in its most important
  list;
- storing snapshots in a key-value cache under a dated key and under
  `latest_rank_data`, then sweeping expired dated keys;
- a read-through that refreshes an empty cache once;
- the A-share trading calendar (weekday arithmetic with an 08:30 cut-off);
- classifying a portfolio's rebalancing records as buy or sell on the target
  dates (`tc_list`);
- the per-stock summary (`get_stock_summary`). It renders each portfolio as
  markup with rank badges, parses the markup back (`_parse_combo_html`),
  groups by stock and orders by buy count.

The upstream HTTP services become oracle parameters:

- `PageSource` answers a request for one rank page;
- `HoldingsSource` answers a request for one portfolio's records.

The clock `datetime.now()` is the parameter `now`. The cache's expiry window,
which the script only binds under `__main__`, is the parameter `expireHours`.

Modules, one file each:

| file | module | models |
|---|---|---|
| wrappers.dfy | `Wrappers` | `Option` |
| text.dfy | `Text` | digits, `str(n)`, `startswith`, `in`, `replace`, `split(sep)[0]` |
| calendar.dfy | `Calendar` | proleptic Gregorian dates, weekdays, the trading calendar, `strftime('%Y%m%d')` and the two `strptime` formats of the cache sweep |
| sorting.dfy | `Sorting` | `list.sort(key=...)` as a stable sort, and filters |
| ranking.dfy | `Ranking` | `fetch_rank_data`, `fetch_all_rank_data` |
| dedup.dfy | `Dedup` | `deduplicate_rank_data` |
| rebalance.dfy | `Rebalance` | `parse_trading_action`, the target dates and the record loop of `tc_list` |
| summary.dfy | `Summary` | `get_stock_summary`, `_parse_combo_html` |
| crawler.dfy | `Crawler` | the `RankCrawler` object: cache, save, load, sweep, read-through, `run_update`, `tc_list`, `get_stock_summary` |

Flavour follows the source:

- Loops that accumulate become methods with loop invariants. Each is proved
  equal to a specification function, and the properties are proved about that
  function.
- The cache is a `map` field of class `RankCrawler`, which the methods
  reassign.

## Model

| member | source | states |
|---|---|---|
| Text.NatToString | rank_crawler.py:739 | `f"{idx}"` of a badge position: a non-empty string of decimal digits whose value is the number, with no leading zero except for 0 itself |
| Text.RemoveAllNoHead | rank_crawler.py:322 | `replace` leaves a string alone when the pattern's first character never occurs in it |
| Text.SplitHead | rank_crawler.py:792 | `split(sep)[0]` is a prefix of the input in which `sep` starts nowhere, and when it is shorter than the input, `sep` starts right after it |
| Text.Before | rank_crawler.py:153 | what a `[^c]+` group consumes: the longest prefix free of `c`, followed in the input by `c` when it stops early |
| Calendar.Weekday | rank_crawler.py:576 | `weekday()` is in 0..6 |
| Calendar.WeekdayAnchor | rank_crawler.py:575-578 | Monday = 0 and Sunday = 6: 0001-01-01 and 2024-01-01 give 0, 2024-01-06 gives 5, 2024-01-07 gives 6 |
| Calendar.PrevDay | rank_crawler.py:584 | `d - timedelta(days=1)` is a calendar date one ordinal earlier |
| Calendar.AddDays | rank_crawler.py:599 | `d - timedelta(days=k)` is a calendar date exactly `k` ordinals away |
| Calendar.LastTradingDay | rank_crawler.py:580-586 | the last Monday-to-Friday strictly before the argument, at most 3 days back; nothing between it and the argument is a trading day |
| Calendar.GetLastTradingDay | rank_crawler.py:580-586 | the stepping loop returns exactly `LastTradingDay` |
| Calendar.TargetDate | rank_crawler.py:588-612 | for `base = today - days_back`: a trading day in `base-3..base`. Before 08:30 it is strictly before `base`. From 08:30 on it is `base` itself when that is a trading day. No trading day lies strictly between it and `base` |
| Calendar.GetTargetDate | rank_crawler.py:588-612 | the method returns exactly `TargetDate` |
| Calendar.TargetDateExamples | rank_crawler.py:599-610 | worked cases in January 2024: Wednesday 07:00 gives Tuesday, Monday 07:00 the Friday before, Saturday 10:00 Friday, Monday 09:00 that Monday, and one day back from Tuesday 10:00 gives Monday |
| Calendar.TradingTimeIsAfterCutoff | rank_crawler.py:347-366 | inside a trading session the day is a trading day and the time is past 08:30, so `get_target_date(0)` is today |
| Calendar.FormatDate8RoundTrip | rank_crawler.py:258 | `strptime('%Y%m%d')` of a saved date key gives back that date |
| Calendar.ParseDate8 | rank_crawler.py:324-325 | a successful `%Y%m%d` parse is a valid `datetime` date |
| Calendar.ParseStamp15 | rank_crawler.py:326-327 | a successful `%Y%m%d_%H%M%S` parse is a valid `datetime` |
| Calendar.ParseStamp15RoundTrip | rank_crawler.py:326-327 | a well-formed `YYYYMMDD_HHMMSS` stamp of a valid whole-second time parses back to that time |
| Sorting.SortByProperties | rank_crawler.py:249 | `list.sort` gives a key-ordered permutation of its input |
| Sorting.SortByStable | rank_crawler.py:825 | `list.sort` is stable: the elements with one key value keep their relative order |
| Sorting.SortBySorted | rank_crawler.py:249 | sorting an already ordered list changes nothing |
| Ranking.GatherKeepsEarlierPages | rank_crawler.py:114-131 | the paging loop only extends what it has already gathered |
| Ranking.GatherMeetsTarget | rank_crawler.py:114-131 | when every page comes back full, exactly `recCnt` rows are gathered |
| Ranking.GatherWithinTarget | rank_crawler.py:114-131 | when the service never returns more rows than asked, at most `recCnt` rows are gathered |
| Ranking.RankList | rank_crawler.py:107-146 | `None` exactly when `recCnt` is 0 or the first page fails or is empty. Otherwise `min(recCnt, gathered)` rows (the `[:target_count]` cut), at least one, ranked 1..N in arrival order, each tagged with the category key and display name |
| Ranking.GatherFirstPage | rank_crawler.py:122-133 | nothing is gathered exactly when the first page fails or is empty |
| Ranking.FetchRankData | rank_crawler.py:107-146 | the paging loop returns exactly `RankList` |
| Ranking.FetchAllRankData | rank_crawler.py:177-207 | the sequential loop over the five categories returns exactly `Merged` |
| Ranking.MergedLookup | rank_crawler.py:194-197 | a configured category is present exactly when its fetch returned rows, and then with those rows; other keys are absent |
| Ranking.MergedShape | rank_crawler.py:194-197 | the merge has distinct keys, and each list has between 1 and `recCnt` rows |
| Ranking.MergedTotal | rank_crawler.py:194-197 | the merge's row total is the sum of the fetched rows |
| Dedup.Priority | rank_crawler.py:210-225 | total 1, yearly 2, monthly 3, weekly 4, daily 5; any other key gets a larger number |
| Dedup.Renumber | rank_crawler.py:251-252 | each row keeps its fields and gets rank `k+1` at position `k` |
| Dedup.DeduplicatedCount | rank_crawler.py:224-245 | a portfolio id appears in a category exactly as often as it wins there: smallest priority, with the first occurrence winning ties |
| Dedup.DeduplicatedAtMostOnce | rank_crawler.py:224-245 | after de-duplication each id is in at most one category, at most once, and rows without id are gone |
| Dedup.DeduplicatedKeepsEveryPortfolio | rank_crawler.py:224-245 | every portfolio with an id survives in exactly one category |
| Dedup.DeduplicatedDropsWorse | rank_crawler.py:210-233 | a portfolio that also appears in a category of better priority is absent from the worse one |
| Dedup.DeduplicatedTotalWins | rank_crawler.py:210-233 | a portfolio on the total list survives there exactly once and in no other category |
| Dedup.DeduplicatedCategory | rank_crawler.py:236-252 | each list holds its winning rows sorted by previous rank and renumbered from 1 |
| Dedup.DeduplicatedIdempotent | rank_crawler.py:209-254 | de-duplicating a de-duplicated map changes nothing |
| Dedup.Deduplicated | rank_crawler.py:236-241 | the result has the input's category keys in the input's order |
| Dedup.DeduplicateRankData | rank_crawler.py:209-254 | the method (map, empty lists, distribution, sorting) returns exactly `Deduplicated` |
| Dedup.BuildPortfolioMap | rank_crawler.py:220-233 | the first loop leaves the insertion-ordered map that keeps, per id, the smallest-priority occurrence (first on ties) |
| Dedup.RecordCategory | rank_crawler.py:227-233 | offering one category's rows in order takes the map to the one built from the longer occurrence list |
| Dedup.InitBuckets | rank_crawler.py:236-241 | every input category key gets an empty list, and no other key appears |
| Dedup.Distribute | rank_crawler.py:243-245 | each category's list holds the rows the map assigns to it, in the map's insertion order |
| Dedup.SortCategories | rank_crawler.py:247-252 | given the distributed lists, the loop returns exactly `Deduplicated`, category by category in input order |
| Dedup.RenumberInPlace | rank_crawler.py:250-252 | the loop leaves exactly the renumbered list |
| Rebalance.ParseTradingAction | rank_crawler.py:556-566 | buy when `cwhj_mr` is non-empty and not `-`; otherwise sell when `cwhj_mc` is; otherwise nothing |
| Rebalance.ActionLabel | rank_crawler.py:559-564 | the two labels are distinct and name their action |
| Rebalance.PortfoliosExact | rank_crawler.py:648-658 | the collected portfolios are exactly the rows with both id and name set |
| Rebalance.CollectPortfolios | rank_crawler.py:648-658 | the nested loop returns exactly `Portfolios` |
| Rebalance.TargetDaysAreTradingDays | rank_crawler.py:642-646 | each target day is `TargetDate(days_back + i)` |
| Rebalance.FormatDates | rank_crawler.py:642-646 | each target date string has 8 characters and parses back to its day |
| Rebalance.GetTargetDates | rank_crawler.py:642-646 | the loop returns exactly `TargetDates` |
| Rebalance.EventOf | rank_crawler.py:678-699 | a record gives an event exactly when its `tzrq` is a target date and one side is filled. The event's price and fraction come from the side that won |
| Rebalance.EventsOfExact | rank_crawler.py:677-699 | one event per qualifying record, in record order |
| Rebalance.EventsSound | rank_crawler.py:660-704 | every event is on a target date, belongs to a collected portfolio, and has a filled fraction |
| Rebalance.ClassifyRecords | rank_crawler.py:677-699 | the record loop returns exactly `EventsOf` |
| Rebalance.CollectEvents | rank_crawler.py:660-704 | the portfolio loop returns exactly `Events`; an empty or failed reply adds nothing |
| Summary.CollectRankBadges | rank_crawler.py:728-739 | the badge map has an entry exactly for names with a badge, and `ranks.get(name, [])` is `BadgesOf(d, name)` |
| Summary.BadgeTag | rank_crawler.py:770-781 | the tag type found in a badge of a configured category is that category's display name |
| Summary.TagType | rank_crawler.py:771-781 | the tag type is one of the five display names, or empty |
| Summary.RenderTags | rank_crawler.py:768-784 | the tag loop builds exactly `Tags(badges)` |
| Summary.RenderCombo | rank_crawler.py:765-788 | a portfolio's display is the combo markup with the tags of its badges; a name without badges renders with no tags |
| Summary.NoTags | rank_crawler.py:786-788 | the untagged branch equals the tagged one with no badges |
| Summary.TagsRoundTrip | rank_crawler.py:163-168 | parsing the rendered tags gives back one `{type, text}` per badge that has a tag type |
| Summary.ComboRoundTrip | rank_crawler.py:148-175 | for plain ids, names and badges, parsing a rendered portfolio gives back its id, its name twice and its tags |
| Summary.MarkupHead | rank_crawler.py:786-795 | `split('<span')[0]` of any rendered portfolio is empty |
| Summary.GroupRecords | rank_crawler.py:742-796 | the grouping loop returns exactly `GroupEvents` |
| Summary.GroupOrderKeys | rank_crawler.py:752-762 | a stock key is in the summary exactly when some event carries it |
| Summary.GroupOrderFirst | rank_crawler.py:752-762 | stocks appear in the order in which they were first encountered |
| Summary.GroupFirstEvent | rank_crawler.py:754-762 | each stock carries the code and name of the first event with its key |
| Summary.GroupLists | rank_crawler.py:790-796 | with named portfolios, the name check never rejects. Each stock's buy list has one display per buy event in event order, and likewise for sells |
| Summary.BadgesPlain | rank_crawler.py:739 | badges of the configured categories contain no quote or `<`, so they survive the round trip |
| Summary.ParseDisplays | rank_crawler.py:806-815 | the parse loop over rendered clean portfolios gives back their structured entries, one each |
| Summary.SummaryRows | rank_crawler.py:742-822 | for clean events and configured categories, a stock's entry holds the first event's code and name, one parsed entry per buy and per sell event, and the two counts |
| Summary.SummariseGroups | rank_crawler.py:798-822 | the result loop returns exactly `Rows` |
| Summary.StockSummariesOrder | rank_crawler.py:825 | the result is ordered by buy count, most first, and is a permutation of the entries. Equal counts keep first-encounter order |
| Summary.GetStockSummary | rank_crawler.py:742-827 | grouping, parsing and sorting return exactly `StockSummaries` |
| Crawler.DatedKey | rank_crawler.py:258-280 | the day's key is `rank_data_` plus eight characters |
| Crawler.SnapshotOf | rank_crawler.py:262-277 | a snapshot's `total_records` is the row total of its (optionally de-duplicated) data |
| Crawler.KeyTime | rank_crawler.py:317-330 | only keys under `rank_data_` denote a time |
| Crawler.SweepKeepsOtherKeys | rank_crawler.py:318-319 | keys outside `rank_data_`, `latest_rank_data` among them, survive a sweep unchanged |
| Crawler.SweepKeepsOddLengths | rank_crawler.py:323-329 | a `rank_data_` key whose suffix has neither 8 nor 15 characters survives |
| Crawler.SweepIdempotent | rank_crawler.py:310-345 | sweeping twice with one threshold removes nothing more |
| Crawler.SweepShrinks | rank_crawler.py:337-341 | a sweep only deletes |
| Crawler.DatedKeyTime | rank_crawler.py:320-325 | a saved dated key denotes midnight of its day |
| Crawler.SweepDatedKey | rank_crawler.py:320-333 | a dated key survives exactly when midnight of its day is not before `now - expire_hours` |
| Crawler.SavedKeys | rank_crawler.py:279-294 | after a save, `latest_rank_data` holds the new snapshot. The day's key holds it exactly when the time of day is within `expire_hours` of midnight |
| Crawler.ReadThroughIsLatest | rank_crawler.py:488-530 | the read-through returns what `latest_rank_data` then holds. It returns nothing exactly when the cache had no snapshot with rows and no category came back |
| Crawler.RefreshThenHit | rank_crawler.py:506-520 | a refresh that stores rows leaves a cache the next read-through answers from |
| Crawler.MergedHasNoDataKey | rank_crawler.py:629-636 | a fresh merge never has a `data` key, so `tc_list(use_cache=False)` always falls back to the read-through |
| Crawler.CountRecords | rank_crawler.py:268 | the summed list lengths are `TotalRecords` |
| Crawler.RankCrawler.LoadLatestRankData | rank_crawler.py:299-308 | the stored latest snapshot, or nothing when the key is missing |
| Crawler.RankCrawler.CleanExpiredCache | rank_crawler.py:310-345 | the collect-then-delete loops leave exactly `Sweep` of the old cache |
| Crawler.RankCrawler.SaveRankData | rank_crawler.py:256-297 | returns the day's key, and the cache becomes `Saved` of the old one |
| Crawler.RankCrawler.RunUpdate | rank_crawler.py:368-393 | succeeds exactly when some category came back, and then saves the merge; otherwise the cache is unchanged |
| Crawler.RankCrawler.GetCachedRankListWithAutoUpdate | rank_crawler.py:488-530 | returns `ReadThrough` of the old cache and leaves `AfterReadThrough` |
| Crawler.RankCrawler.TcList | rank_crawler.py:614-710 | the events of the read-through's portfolios on the target dates (none without data), whatever `use_cache` is |
| Crawler.RankCrawler.GetStockSummary | rank_crawler.py:712-827 | `StockSummaries` of `tc_list`'s events and of the second read-through's rank map |

## Left out

- Network I/O: `create_session`, `close_session`, `fetch_with_retry` and `fetch_portfolio_holdings` are the oracles `PageSource` and `HoldingsSource`. The oracles are deterministic, so two requests with the same arguments get the same answer. Retries and time-outs are not modelled. Replies are already decoded: JSON `null`s and missing fields in a reply are `Option`s or `GetOr` defaults.
- PageSource: a rank reply `{"result": "0", "data": null}` is modelled as a failed page (`None`): paging stops and the other categories are kept. In the source, `len(data['data'])` (rank_crawler.py:122) raises `TypeError` on it. That aborts `fetch_all_rank_data`; `run_update` then returns `False` (rank_crawler.py:391-393), and `tc_list(use_cache=False)` and `get_stock_summary` pass the exception to their caller. The model does not capture this exception path.
- ParseStamp15RoundTrip: covers whole-second stamps only, since `%Y%m%d_%H%M%S` has no microseconds field.
- The scheduler (`update_job`, `setup_schedule`, `start_scheduler`, `stop_scheduler`, `start_scheduler_in_thread`) is threads and timing.
- `print_latest_data_summary`, the `tqdm` progress bars, `print` and logging produce console output only.
- `get_portfolio_detail` is float parsing and formatting.
- The clock is read once. The source calls `datetime.now()` several times within one save or one `tc_list`; the model uses one reading `now` for all of them.
- `expireHours` is a parameter. `CACHE_EXPIRE_HOURS` is only bound when the script runs as `__main__`. Imported, `save_rank_data` raises `NameError` after writing both keys, so `run_update` reports failure and the read-through returns `{}`. The model does not include that path.
- Dates outside years 1..9999 are excluded by preconditions (`ValidDateTime(now)`, `InYearRange` of the target days). In the source, these make `datetime` arithmetic raise `OverflowError`. The same holds for a `now - timedelta(hours=expire_hours)` outside that range, which the sweep's `try` swallows.
- `strptime` is modelled for the two fixed formats on ASCII digits only. Python also accepts other Unicode decimal digits. `strftime('%Y')` for years below 1000 is platform-dependent; the model writes four digits.
- Cache keys are strings. The `isinstance(key, str)` test, and keys of other types, are not modelled.
- In-place updates of the row dicts are modelled on values. `deduplicate_rank_data` rewrites `rank` in dicts shared with its input (rank_crawler.py:252), and `fetch_rank_data` stamps rows in place. The model returns new rows, so the aliasing between the input and output of a de-duplication is not captured.
- ParseCombo: the two regular expressions of `_parse_combo_html` are modelled as a field extractor for the markup layout the summary itself writes. For other inputs the model can differ from the regex engine: `findall` resynchronising after a non-tag, or names containing `"`, `<` or `>`. The round trip is proved only for plain ids, names and badges (no `"` and no `<`).
- Summary.StockKey: `f"{code}_{name}"` is modelled literally. Two different code/name pairs that give the same key are grouped together, as in the source.
- Summary.SummaryRows, Summary.ParseDisplays: proved for clean events (plain ids and names) over the configured categories. Other inputs follow the same definitions, but the counts are not characterised for them.
