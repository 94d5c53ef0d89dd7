/**
 * Rebalancing events (`tc_list`): the portfolios named in a rank map, the
 * list of target dates, and the classification of each portfolio's
 * holding-change records into buy and sell events.
 *
 * The holding-change endpoint (`fetch_portfolio_holdings`) is a
 * `HoldingsSource`: given a portfolio id it yields the records of the reply's
 * `data` field, or `None` when the request failed, the reply's `result` was
 * not `'0'`, or the reply had no `data`.
 */
module Rebalance {
  import opened Wrappers
  import opened Calendar
  import opened Ranking
  import opened Sorting

  datatype Action = Buy | Sell

  /** The label a record carries in its `调仓情况` field. */
  function ActionLabel(a: Action): (s: string)
    ensures s == "买入" <==> a == Buy
    ensures s == "卖出" <==> a == Sell
  {
    match a
    case Buy => "买入"
    case Sell => "卖出"
  }

  /** A position field that carries a value: truthy and not the placeholder `"-"`. */
  predicate Filled(s: string) {
    s != "" && s != "-"
  }

  /** `parse_trading_action`: a filled buy side wins, then a filled sell side, else nothing. */
  function ParseTradingAction(mr: string, mc: string): (r: Option<Action>)
    ensures r == Some(Buy) <==> Filled(mr)
    ensures r == Some(Sell) <==> !Filled(mr) && Filled(mc)
    ensures r == None <==> !Filled(mr) && !Filled(mc)
  {
    if Filled(mr) then Some(Buy)
    else if Filled(mc) then Some(Sell)
    else None
  }

  /**
   * One holding-change record; `None` marks a field the record lacks, which
   * `record.get(field, default)` replaces by its default.
   */
  datatype HoldingRecord = HoldingRecord(
    tzrq: Option<string>,
    cwhjMr: Option<string>,
    cwhjMc: Option<string>,
    stkMktCode: Option<string>,
    stkName: Option<string>,
    cjjgMr: Option<string>,
    cjjgMc: Option<string>)

  type HoldingsSource = string -> Option<seq<HoldingRecord>>

  /** A `{'id', 'name'}` pair of step 3 of `tc_list`. */
  datatype Portfolio = Portfolio(id: string, name: string)

  /** One result record of `tc_list`. */
  datatype RebalanceEvent = RebalanceEvent(
    date: string,
    portfolioId: string,
    portfolioName: string,
    stockCode: string,
    stockName: string,
    action: Action,
    price: string,
    fraction: string)

  // ---------------------------------------------------------------------
  // Portfolios of a rank map

  /** A row that `tc_list` and the badge loop take into account: both id and name are set. */
  predicate Named(e: Entry) {
    e.zjzh != "" && e.zhuheName != ""
  }

  /** The portfolios of one category: rows with both an id and a name, in order. */
  function CategoryPortfolios(es: seq<Entry>): seq<Portfolio> {
    if es == [] then []
    else
      var e := es[|es| - 1];
      CategoryPortfolios(es[..|es| - 1]) + (if Named(e) then [Portfolio(e.zjzh, e.zhuheName)] else [])
  }

  /** The portfolios of all categories, category after category; a portfolio listed twice is collected twice. */
  function Portfolios(d: RankData): seq<Portfolio> {
    if d == [] then []
    else Portfolios(d[..|d| - 1]) + CategoryPortfolios(d[|d| - 1].entries)
  }

  lemma {:induction false} CategoryPortfoliosExact(es: seq<Entry>)
    ensures forall p :: p in CategoryPortfolios(es) <==> exists j :: 0 <= j < |es| && Named(es[j]) && p == Portfolio(es[j].zjzh, es[j].zhuheName)
    ensures |CategoryPortfolios(es)| == |Filter(es, Named)|
  {
    CategoryPortfoliosMembers(es);
    CategoryPortfoliosCount(es);
  }

  lemma {:induction false} CategoryPortfoliosCount(es: seq<Entry>)
    ensures |CategoryPortfolios(es)| == |Filter(es, Named)|
  {
    if es != [] {
      var init := es[..|es| - 1];
      var e := es[|es| - 1];
      CategoryPortfoliosCount(init);
      SplitLast(es);
      FilterAppend(init, [e], Named);
      assert [e][1..] == [];
    }
  }

  lemma {:induction false} CategoryPortfoliosMembers(es: seq<Entry>)
    ensures forall p :: p in CategoryPortfolios(es) <==> exists j :: 0 <= j < |es| && Named(es[j]) && p == Portfolio(es[j].zjzh, es[j].zhuheName)
  {
    if es != [] {
      var init := es[..|es| - 1];
      CategoryPortfoliosMembers(init);
      forall p ensures p in CategoryPortfolios(es) <==> exists j :: 0 <= j < |es| && Named(es[j]) && p == Portfolio(es[j].zjzh, es[j].zhuheName) {
        if exists j :: 0 <= j < |es| && Named(es[j]) && p == Portfolio(es[j].zjzh, es[j].zhuheName) {
          var j :| 0 <= j < |es| && Named(es[j]) && p == Portfolio(es[j].zjzh, es[j].zhuheName);
          if j < |es| - 1 {
            assert init[j] == es[j];
          }
        }
        if p in CategoryPortfolios(init) {
          var j :| 0 <= j < |init| && Named(init[j]) && p == Portfolio(init[j].zjzh, init[j].zhuheName);
          assert es[j] == init[j];
        }
      }
    }
  }

  /**
   * Step 3 of `tc_list` collects exactly the (id, name) pairs of the rows
   * that have both, one per such row.
   */
  lemma {:induction false} PortfoliosExact(d: RankData)
    ensures forall p :: p in Portfolios(d) <==>
      exists c, j :: 0 <= c < |d| && 0 <= j < |d[c].entries| && Named(d[c].entries[j]) && p == Portfolio(d[c].entries[j].zjzh, d[c].entries[j].zhuheName)
    ensures forall p :: p in Portfolios(d) ==> p.id != "" && p.name != ""
  {
    if d != [] {
      var init := d[..|d| - 1];
      var last := d[|d| - 1];
      PortfoliosExact(init);
      CategoryPortfoliosExact(last.entries);
      forall p ensures p in Portfolios(d) <==>
        exists c, j :: 0 <= c < |d| && 0 <= j < |d[c].entries| && Named(d[c].entries[j]) && p == Portfolio(d[c].entries[j].zjzh, d[c].entries[j].zhuheName)
      {
        if p in Portfolios(init) {
          var c, j :| 0 <= c < |init| && 0 <= j < |init[c].entries| && Named(init[c].entries[j]) && p == Portfolio(init[c].entries[j].zjzh, init[c].entries[j].zhuheName);
          assert d[c] == init[c];
        }
        if exists c, j :: 0 <= c < |d| && 0 <= j < |d[c].entries| && Named(d[c].entries[j]) && p == Portfolio(d[c].entries[j].zjzh, d[c].entries[j].zhuheName) {
          var c, j :| 0 <= c < |d| && 0 <= j < |d[c].entries| && Named(d[c].entries[j]) && p == Portfolio(d[c].entries[j].zjzh, d[c].entries[j].zhuheName);
          if c < |d| - 1 {
            assert init[c] == d[c];
          }
        }
      }
    }
  }

  lemma CategoryPortfoliosStep(es: seq<Entry>, j: int)
    requires 0 <= j < |es|
    ensures CategoryPortfolios(es[..j + 1]) ==
      CategoryPortfolios(es[..j]) + (if Named(es[j]) then [Portfolio(es[j].zjzh, es[j].zhuheName)] else [])
  {
    assert es[..j + 1][..j] == es[..j];
  }

  lemma PortfoliosStep(d: RankData, c: int)
    requires 0 <= c < |d|
    ensures Portfolios(d[..c + 1]) == Portfolios(d[..c]) + CategoryPortfolios(d[c].entries)
  {
    assert d[..c + 1][..c] == d[..c];
  }

  /** Step 3 of `tc_list`: the nested loop over categories and rows. */
  method CollectPortfolios(d: RankData) returns (ps: seq<Portfolio>)
    ensures ps == Portfolios(d)
  {
    ps := [];
    var c := 0;
    while c < |d|
      invariant 0 <= c <= |d|
      invariant ps == Portfolios(d[..c])
    {
      var es := d[c].entries;
      ghost var before := ps;
      var j := 0;
      assert es[..0] == [];
      while j < |es|
        invariant 0 <= j <= |es|
        invariant ps == before + CategoryPortfolios(es[..j])
      {
        var item := es[j];
        CategoryPortfoliosStep(es, j);
        if item.zjzh != "" && item.zhuheName != "" {
          AppendAssoc(before, CategoryPortfolios(es[..j]), [Portfolio(item.zjzh, item.zhuheName)]);
          ps := ps + [Portfolio(item.zjzh, item.zhuheName)];
        }
        j := j + 1;
      }
      assert es[..j] == es;
      PortfoliosStep(d, c);
      c := c + 1;
    }
    assert d[..c] == d;
  }

  // ---------------------------------------------------------------------
  // Target dates

  /** The day with ordinal `ordinal`, reached from `from` by date arithmetic. */
  function DayAt(from: Date, ordinal: int): (r: Date)
    requires CalendarDate(from)
    ensures CalendarDate(r) && Ordinal(r) == ordinal
  {
    AddDays(from, ordinal - Ordinal(from))
  }

  /** The calendar day `get_target_date(daysBack)` designates, given the clock reading `now`. */
  function TargetDay(now: DateTime, daysBack: int): (r: Date)
    requires ValidDateTime(now)
    ensures CalendarDate(r) && Ordinal(r) == TargetDate(now, daysBack)
  {
    DayAt(now.date, TargetDate(now, daysBack))
  }

  /** The days `get_target_date(daysBack + i)` designates for `i` in `range(count)`. */
  function TargetDays(now: DateTime, daysBack: int, count: int): (r: seq<Date>)
    requires ValidDateTime(now)
    ensures |r| == if count < 0 then 0 else count
  {
    seq(if count < 0 then 0 else count, i requires 0 <= i => TargetDay(now, daysBack + i))
  }

  /**
   * Day `i` of the list is a trading day at most three days before its base
   * day `now - (daysBack + i)`, strictly before it when `now` is before
   * 08:30, and the base day itself from 08:30 on when that is a trading day.
   */
  lemma TargetDaysAreTradingDays(now: DateTime, daysBack: int, count: int, i: int)
    requires ValidDateTime(now) && 0 <= i < count
    ensures CalendarDate(TargetDays(now, daysBack, count)[i])
    ensures var day := Ordinal(TargetDays(now, daysBack, count)[i]);
      var base := Ordinal(now.date) - (daysBack + i);
      && IsTradingDay(day)
      && base - 3 <= day <= base
      && (TimeOfDay(now) < MorningCutoff ==> day < base)
      && (TimeOfDay(now) >= MorningCutoff && IsTradingDay(base) ==> day == base)
  {
    var r := TargetDays(now, daysBack, count)[i];
    assert r == TargetDay(now, daysBack + i);
    assert Ordinal(r) == TargetDate(now, daysBack + i);
  }

  /** The days are `datetime` dates: outside years 1 to 9999 the date arithmetic raises OverflowError. */
  predicate InYearRange(ds: seq<Date>) {
    forall i :: 0 <= i < |ds| ==> ValidDate(ds[i])
  }

  /** `strftime('%Y%m%d')` of each day: eight-character strings that parse back to the days. */
  function FormatDates(ds: seq<Date>): (r: seq<string>)
    requires forall i :: 0 <= i < |ds| ==> ValidDate(ds[i])
    ensures |r| == |ds|
    ensures forall i :: 0 <= i < |ds| ==> |r[i]| == 8 && ParseDate8(r[i]) == Some(ds[i])
  {
    var r := seq(|ds|, i requires 0 <= i < |ds| => FormatDate8(ds[i]));
    assert forall i :: 0 <= i < |ds| ==> ParseDate8(r[i]) == Some(ds[i]) by {
      forall i | 0 <= i < |ds| ensures ParseDate8(r[i]) == Some(ds[i]) {
        FormatDate8RoundTrip(ds[i]);
      }
    }
    r
  }

  /** Step 2 of `tc_list`: `[get_target_date(days_back + i) for i in range(count)]`. */
  function TargetDates(now: DateTime, daysBack: int, count: int): seq<string>
    requires ValidDateTime(now) && InYearRange(TargetDays(now, daysBack, count))
  {
    FormatDates(TargetDays(now, daysBack, count))
  }

  /** One day of the list: the stepping search, then the date arithmetic. */
  method GetTargetDay(now: DateTime, daysBack: int) returns (date: Date)
    requires ValidDateTime(now)
    ensures date == TargetDay(now, daysBack)
  {
    var day := GetTargetDate(now, daysBack);
    date := DayAt(now.date, day);
  }

  /** The first `|dates|` days of `all`, formatted. */
  ghost predicate FormattedPrefix(dates: seq<string>, all: seq<Date>)
    requires InYearRange(all)
  {
    |dates| <= |all| && forall k :: 0 <= k < |dates| ==> dates[k] == FormatDate8(all[k])
  }

  lemma FormattedPrefixStep(dates: seq<string>, all: seq<Date>)
    requires InYearRange(all) && FormattedPrefix(dates, all) && |dates| < |all|
    ensures FormattedPrefix(dates + [FormatDate8(all[|dates|])], all)
  {
  }

  lemma FormattedPrefixAll(dates: seq<string>, all: seq<Date>)
    requires InYearRange(all) && FormattedPrefix(dates, all) && |dates| == |all|
    ensures dates == FormatDates(all)
  {
  }

  /** The date list, computed with the stepping search of `get_target_date`. */
  method GetTargetDates(now: DateTime, daysBack: int, count: int) returns (dates: seq<string>)
    requires ValidDateTime(now) && InYearRange(TargetDays(now, daysBack, count))
    ensures dates == TargetDates(now, daysBack, count)
  {
    ghost var all := TargetDays(now, daysBack, count);
    dates := [];
    var i := 0;
    while i < count
      invariant 0 <= i && (count >= 0 ==> i <= count) && (count < 0 ==> i == 0)
      invariant |dates| == i
      invariant FormattedPrefix(dates, all)
    {
      var date := GetTargetDay(now, daysBack + i);
      assert date == all[i];
      FormattedPrefixStep(dates, all);
      dates := dates + [FormatDate8(date)];
      i := i + 1;
    }
    FormattedPrefixAll(dates, all);
  }

  // ---------------------------------------------------------------------
  // Classification of holding-change records

  /**
   * The result record a holding-change record yields for portfolio `p`: only
   * a record dated on one of `targets` and with a filled buy or sell side
   * yields one; its price and position fraction come from the side that
   * decided the action.
   */
  function EventOf(p: Portfolio, rec: HoldingRecord, targets: seq<string>): (r: Option<RebalanceEvent>)
    ensures r.Some? <==> rec.tzrq.GetOr("") in targets && (Filled(rec.cwhjMr.GetOr("-")) || Filled(rec.cwhjMc.GetOr("-")))
    ensures r.Some? ==>
      && r.value.date == rec.tzrq.GetOr("")
      && r.value.portfolioId == p.id && r.value.portfolioName == p.name
      && r.value.stockCode == rec.stkMktCode.GetOr("") && r.value.stockName == rec.stkName.GetOr("")
      && (r.value.action == Buy <==> Filled(rec.cwhjMr.GetOr("-")))
      && (r.value.action == Buy ==> r.value.price == rec.cjjgMr.GetOr("-") && r.value.fraction == rec.cwhjMr.GetOr("-"))
      && (r.value.action == Sell ==> r.value.price == rec.cjjgMc.GetOr("-") && r.value.fraction == rec.cwhjMc.GetOr("-"))
      && Filled(r.value.fraction)
  {
    var tzrq := rec.tzrq.GetOr("");
    if tzrq !in targets then None
    else
      var mr := rec.cwhjMr.GetOr("-");
      var mc := rec.cwhjMc.GetOr("-");
      match ParseTradingAction(mr, mc)
      case None => None
      case Some(a) =>
        Some(RebalanceEvent(tzrq, p.id, p.name, rec.stkMktCode.GetOr(""), rec.stkName.GetOr(""), a,
          if a == Buy then rec.cjjgMr.GetOr("-") else rec.cjjgMc.GetOr("-"),
          if a == Buy then mr else mc))
  }

  /** The events of one portfolio's records, in record order. */
  function EventsOf(p: Portfolio, recs: seq<HoldingRecord>, targets: seq<string>): seq<RebalanceEvent> {
    if recs == [] then []
    else
      EventsOf(p, recs[..|recs| - 1], targets)
      + (match EventOf(p, recs[|recs| - 1], targets) case Some(e) => [e] case None => [])
  }

  /** The events of all portfolios, portfolio after portfolio; a failed fetch contributes nothing. */
  function Events(holdings: HoldingsSource, ps: seq<Portfolio>, targets: seq<string>): seq<RebalanceEvent> {
    if ps == [] then []
    else
      var p := ps[|ps| - 1];
      Events(holdings, ps[..|ps| - 1], targets)
      + (match holdings(p.id) case Some(recs) => EventsOf(p, recs, targets) case None => [])
  }

  function Qualifies(targets: seq<string>): HoldingRecord -> bool {
    (rec: HoldingRecord) => rec.tzrq.GetOr("") in targets && (Filled(rec.cwhjMr.GetOr("-")) || Filled(rec.cwhjMc.GetOr("-")))
  }

  /**
   * A portfolio's events are its qualifying records, in order, each turned
   * into its result record: one event per qualifying record and no other.
   */
  lemma {:induction false} EventsOfExact(p: Portfolio, recs: seq<HoldingRecord>, targets: seq<string>)
    ensures |EventsOf(p, recs, targets)| == |Filter(recs, Qualifies(targets))|
    ensures forall k :: 0 <= k < |EventsOf(p, recs, targets)| ==>
      Some(EventsOf(p, recs, targets)[k]) == EventOf(p, Filter(recs, Qualifies(targets))[k], targets)
  {
    if recs != [] {
      var init := recs[..|recs| - 1];
      var last := recs[|recs| - 1];
      EventsOfExact(p, init, targets);
      assert recs == init + [last];
      FilterAppend(init, [last], Qualifies(targets));
      assert [last][1..] == [];
    }
  }

  /** Every event names one of the target dates and a portfolio that was asked for. */
  lemma {:induction false} EventsSound(holdings: HoldingsSource, ps: seq<Portfolio>, targets: seq<string>)
    ensures forall e :: e in Events(holdings, ps, targets) ==>
      e.date in targets && Portfolio(e.portfolioId, e.portfolioName) in ps && Filled(e.fraction)
  {
    if ps != [] {
      var init := ps[..|ps| - 1];
      var p := ps[|ps| - 1];
      EventsSound(holdings, init, targets);
      if holdings(p.id).Some? {
        EventsOfSound(p, holdings(p.id).value, targets);
      }
      forall e | e in Events(holdings, ps, targets)
        ensures e.date in targets && Portfolio(e.portfolioId, e.portfolioName) in ps && Filled(e.fraction)
      {
        if e in Events(holdings, init, targets) {
          assert Portfolio(e.portfolioId, e.portfolioName) in init;
        }
      }
    }
  }

  lemma {:induction false} EventsOfSound(p: Portfolio, recs: seq<HoldingRecord>, targets: seq<string>)
    ensures forall e :: e in EventsOf(p, recs, targets) ==>
      e.date in targets && e.portfolioId == p.id && e.portfolioName == p.name && Filled(e.fraction)
  {
    if recs != [] {
      EventsOfSound(p, recs[..|recs| - 1], targets);
    }
  }

  /** The record loop of `tc_list` for one portfolio. */
  method ClassifyRecords(p: Portfolio, recs: seq<HoldingRecord>, targets: seq<string>) returns (events: seq<RebalanceEvent>)
    ensures events == EventsOf(p, recs, targets)
  {
    events := [];
    var i := 0;
    while i < |recs|
      invariant 0 <= i <= |recs|
      invariant events == EventsOf(p, recs[..i], targets)
    {
      var rec := recs[i];
      assert recs[..i + 1][..i] == recs[..i];
      var tzrq := rec.tzrq.GetOr("");
      if tzrq in targets {
        var mr := rec.cwhjMr.GetOr("-");
        var mc := rec.cwhjMc.GetOr("-");
        var action := ParseTradingAction(mr, mc);
        if action.Some? {
          var a := action.value;
          var price := if a == Buy then rec.cjjgMr.GetOr("-") else rec.cjjgMc.GetOr("-");
          var fraction := if a == Buy then mr else mc;
          events := events + [RebalanceEvent(tzrq, p.id, p.name, rec.stkMktCode.GetOr(""), rec.stkName.GetOr(""), a, price, fraction)];
        }
      }
      i := i + 1;
    }
    assert recs[..i] == recs;
  }

  /** Step 4 of `tc_list`: fetch each portfolio's records in turn and classify them. */
  method CollectEvents(holdings: HoldingsSource, ps: seq<Portfolio>, targets: seq<string>) returns (events: seq<RebalanceEvent>)
    ensures events == Events(holdings, ps, targets)
  {
    events := [];
    var i := 0;
    while i < |ps|
      invariant 0 <= i <= |ps|
      invariant events == Events(holdings, ps[..i], targets)
    {
      var p := ps[i];
      assert ps[..i + 1][..i] == ps[..i];
      var reply := holdings(p.id);
      if reply.Some? && |reply.value| > 0 {
        var found := ClassifyRecords(p, reply.value, targets);
        events := events + found;
      } else if reply.Some? {
        assert EventsOf(p, reply.value, targets) == [];
      }
      i := i + 1;
    }
    assert ps[..i] == ps;
  }
}
