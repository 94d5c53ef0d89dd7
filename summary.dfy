/**
 * The per-stock summary of `get_stock_summary`: rank badges per portfolio
 * name, the markup each portfolio is rendered as, the parse of that markup
 * back into structured fields (`_parse_combo_html`), the grouping of
 * rebalance events by stock and the final ordering by buy count.
 */
module Summary {
  import opened Wrappers
  import opened Text
  import opened Ranking
  import opened Rebalance
  import opened Sorting

  // ---------------------------------------------------------------------
  // Rank badges

  /** The badge `f"{rank_name}{idx}"` of the row at 1-based position `idx` of category `key`. */
  function Badge(key: string, idx: nat): (b: string)
    ensures |b| > |DisplayName(key)| && b[..|DisplayName(key)|] == DisplayName(key)
  {
    DisplayName(key) + NatToString(idx)
  }

  /** The badges one category's list gives the portfolio called `name`, in list order. */
  function CategoryBadges(key: string, es: seq<Entry>, name: string): seq<string> {
    if es == [] then []
    else
      var last := es[|es| - 1];
      CategoryBadges(key, es[..|es| - 1], name)
      + (if Named(last) && last.zhuheName == name then [Badge(key, |es|)] else [])
  }

  /** `portfolio_ranks.get(name, [])`: the badges of `name` over all categories, in map order. */
  function BadgesOf(d: RankData, name: string): seq<string> {
    if d == [] then []
    else BadgesOf(d[..|d| - 1], name) + CategoryBadges(d[|d| - 1].key, d[|d| - 1].entries, name)
  }

  /** `ranks.get(name, [])`. */
  function RanksOf(ranks: map<string, seq<string>>, name: string): seq<string> {
    if name in ranks then ranks[name] else []
  }

  /** Every name in `ranks` has at least one badge. */
  ghost predicate NoEmptyLists(ranks: map<string, seq<string>>) {
    forall n :: n in ranks ==> ranks[n] != []
  }

  /** `ranks` is `ranks0` with the badges of `es` in category `key` appended. */
  ghost predicate Extends(ranks: map<string, seq<string>>, ranks0: map<string, seq<string>>, key: string, es: seq<Entry>) {
    forall n :: RanksOf(ranks, n) == RanksOf(ranks0, n) + CategoryBadges(key, es, n)
  }

  /** `ranks` after the last row of `es` is handled: a listed row adds its badge to its name's list. */
  function WithBadge(ranks: map<string, seq<string>>, key: string, es: seq<Entry>): map<string, seq<string>>
    requires es != []
  {
    var item := es[|es| - 1];
    if Named(item) then ranks[item.zhuheName := RanksOf(ranks, item.zhuheName) + [Badge(key, |es|)]] else ranks
  }

  /** One row of the inner badge loop, seen from one portfolio name. */
  lemma ExtendsStepAt(ranks: map<string, seq<string>>, ranks0: map<string, seq<string>>, key: string, es: seq<Entry>, n: string)
    requires es != [] && RanksOf(ranks, n) == RanksOf(ranks0, n) + CategoryBadges(key, es[..|es| - 1], n)
    ensures RanksOf(WithBadge(ranks, key, es), n) == RanksOf(ranks0, n) + CategoryBadges(key, es, n)
  {
    var item := es[|es| - 1];
    var added := if Named(item) && item.zhuheName == n then [Badge(key, |es|)] else [];
    AppendAssoc(RanksOf(ranks0, n), CategoryBadges(key, es[..|es| - 1], n), added);
  }

  /** One row of the inner badge loop keeps `Extends`, and leaves no name with an empty list. */
  lemma ExtendsStep(ranks: map<string, seq<string>>, ranks0: map<string, seq<string>>, key: string, es: seq<Entry>)
    requires es != [] && Extends(ranks, ranks0, key, es[..|es| - 1]) && NoEmptyLists(ranks)
    ensures Extends(WithBadge(ranks, key, es), ranks0, key, es)
    ensures NoEmptyLists(WithBadge(ranks, key, es))
  {
    forall n {
      ExtendsStepAt(ranks, ranks0, key, es, n);
    }
  }

  /** `ranks` after every row of `es` is handled, in order. */
  function BadgeMap(ranks: map<string, seq<string>>, key: string, es: seq<Entry>): map<string, seq<string>> {
    if es == [] then ranks else WithBadge(BadgeMap(ranks, key, es[..|es| - 1]), key, es)
  }

  /** Handling the rows of one category appends, for each name, exactly that category's badges for it. */
  lemma {:induction false} BadgeMapExtends(ranks0: map<string, seq<string>>, key: string, es: seq<Entry>)
    requires NoEmptyLists(ranks0)
    ensures NoEmptyLists(BadgeMap(ranks0, key, es))
    ensures Extends(BadgeMap(ranks0, key, es), ranks0, key, es)
  {
    if es != [] {
      BadgeMapExtends(ranks0, key, es[..|es| - 1]);
      ExtendsStep(BadgeMap(ranks0, key, es[..|es| - 1]), ranks0, key, es);
    }
  }

  /** The inner badge loop, over the rows of one category. */
  method AddCategoryBadges(ranks0: map<string, seq<string>>, key: string, es: seq<Entry>)
    returns (ranks: map<string, seq<string>>)
    requires NoEmptyLists(ranks0)
    ensures NoEmptyLists(ranks)
    ensures forall n :: RanksOf(ranks, n) == RanksOf(ranks0, n) + CategoryBadges(key, es, n)
  {
    ranks := ranks0;
    var j := 0;
    assert es[..0] == [];
    while j < |es|
      invariant 0 <= j <= |es|
      invariant ranks == BadgeMap(ranks0, key, es[..j])
    {
      var item := es[j];
      ghost var upTo := es[..j + 1];
      assert |upTo| == j + 1 && upTo[j] == item && upTo[..j] == es[..j];
      if Named(item) {
        ranks := ranks[item.zhuheName := RanksOf(ranks, item.zhuheName) + [Badge(key, j + 1)]];
      }
      assert ranks == BadgeMap(ranks0, key, upTo);
      j := j + 1;
    }
    assert es[..j] == es;
    BadgeMapExtends(ranks0, key, es);
  }

  /**
   * The badge loop of `get_stock_summary`: one list of badges per portfolio
   * name, present exactly for the names that have a badge.
   */
  method CollectRankBadges(d: RankData) returns (ranks: map<string, seq<string>>)
    ensures forall n :: n in ranks <==> BadgesOf(d, n) != []
    ensures forall n :: RanksOf(ranks, n) == BadgesOf(d, n)
  {
    ranks := map[];
    var c := 0;
    while c < |d|
      invariant 0 <= c <= |d|
      invariant NoEmptyLists(ranks)
      invariant forall n :: RanksOf(ranks, n) == BadgesOf(d[..c], n)
    {
      assert d[..c + 1][..c] == d[..c];
      ranks := AddCategoryBadges(ranks, d[c].key, d[c].entries);
      c := c + 1;
    }
    assert d[..c] == d;
  }

  // ---------------------------------------------------------------------
  // Rank tags

  /** The tag type of a badge: the first of the five list names it contains, or "". */
  function TagType(badge: string): (t: string)
    ensures t in {"", "日榜", "周榜", "月榜", "年榜", "总榜"}
  {
    if Contains(badge, "日榜") then "日榜"
    else if Contains(badge, "周榜") then "周榜"
    else if Contains(badge, "月榜") then "月榜"
    else if Contains(badge, "年榜") then "年榜"
    else if Contains(badge, "总榜") then "总榜"
    else ""
  }

  /** The categories of the crawler's configuration. */
  predicate KnownKey(key: string) {
    key in {"daily", "weekly", "monthly", "yearly", "total"}
  }

  /** A configured category's badge is tagged with that category's list name. */
  lemma BadgeTag(key: string, idx: nat)
    requires KnownKey(key)
    ensures TagType(Badge(key, idx)) == DisplayName(key)
  {
    var b := Badge(key, idx);
    var name := DisplayName(key);
    ContainsAt(b, name, 0);
    var digits := NatToString(idx);
    assert b == name + digits;
    forall t | t in {"日榜", "周榜", "月榜", "年榜"} && t != name
      ensures !Contains(b, t)
    {
      NotContainsWithoutHead(b, t);
    }
  }

  /** Text that sits inside an attribute or an element without ending it. */
  predicate Plain(s: string) {
    s != [] && forall i :: 0 <= i < |s| ==> s[i] != '"' && s[i] != '<'
  }

  lemma BadgePlain(key: string, idx: nat)
    requires KnownKey(key)
    ensures Plain(Badge(key, idx))
  {
  }

  const SpanOpen: string := "<span"
  const ComboOpen: string := SpanOpen + " class=\"combo-name\" data-combo-id=\""
  const NameAttr: string := "\" data-combo-name=\""
  const TagOpen: string := SpanOpen + " class=\"rank-tag\" data-rank-type=\""
  const AttrEnd: string := "\">"
  const SpanEnd: string := "</span>"

  /** The markup of one badge: a rank tag when the badge has a tag type, nothing otherwise. */
  function TagMarkup(badge: string): string {
    var t := TagType(badge);
    if t == "" then "" else TagOpen + t + AttrEnd + badge + SpanEnd
  }

  /** `tags_html`: the tags of `badges`, in order. */
  function Tags(badges: seq<string>): string {
    if badges == [] then "" else TagMarkup(badges[0]) + Tags(badges[1..])
  }

  lemma {:induction false} TagsAppend(badges: seq<string>, b: string)
    ensures Tags(badges + [b]) == Tags(badges) + TagMarkup(b)
  {
    if badges == [] {
      assert Tags([b]) == TagMarkup(b) + Tags([]);
    } else {
      var m := TagMarkup(badges[0]);
      assert (badges + [b])[1..] == badges[1..] + [b];
      TagsAppend(badges[1..], b);
      assert Tags(badges + [b]) == m + (Tags(badges[1..]) + TagMarkup(b));
      AppendAssoc(m, Tags(badges[1..]), TagMarkup(b));
    }
  }

  lemma TagsPrefix(badges: seq<string>, i: nat)
    requires i < |badges|
    ensures Tags(badges[..i + 1]) == Tags(badges[..i]) + TagMarkup(badges[i])
  {
    assert badges[..i + 1] == badges[..i] + [badges[i]];
    TagsAppend(badges[..i], badges[i]);
  }

  /** The loop that builds `tags_html`. */
  method RenderTags(badges: seq<string>) returns (html: string)
    ensures html == Tags(badges)
  {
    html := "";
    var i := 0;
    while i < |badges|
      invariant 0 <= i <= |badges|
      invariant html == Tags(badges[..i])
    {
      var rank := badges[i];
      var rankType := TagType(rank);
      TagsPrefix(badges, i);
      if rankType != "" {
        var tag := TagOpen + rankType + AttrEnd + rank + SpanEnd;
        html := html + tag;
      }
      i := i + 1;
    }
    assert badges[..i] == badges;
  }

  /** `portfolio_display`: the portfolio's name element followed by its rank tags. */
  function ComboMarkup(id: string, name: string, badges: seq<string>): string {
    ComboOpen + id + NameAttr + name + AttrEnd + name + SpanEnd + Tags(badges)
  }

  // ---------------------------------------------------------------------
  // Parsing the markup back (`_parse_combo_html`)

  datatype RankTag = RankTag(tagType: string, text: string)
  datatype ComboInfo = ComboInfo(id: string, name: string, displayName: string, ranks: seq<RankTag>)

  /**
   * After the literal `open`, the non-empty run of characters other than
   * `stop` (a `([^stop]+)` group) and what follows it.
   */
  function Field(s: string, open: string, stop: char): (r: Option<(string, string)>)
    ensures r.Some? ==> |r.value.1| < |s|
  {
    if !StartsWith(s, open) then None
    else
      var rest := s[|open|..];
      var x := Before(rest, stop);
      if x == [] then None else Some((x, rest[|x|..]))
  }

  lemma FieldOf(open: string, x: string, stop: char, rest: string)
    requires x != [] && forall i :: 0 <= i < |x| ==> x[i] != stop
    requires rest == [] || rest[0] == stop
    ensures Field(open + (x + rest), open, stop) == Some((x, rest))
  {
    var s := open + (x + rest);
    assert s[..|open|] == open;
    assert s[|open|..] == x + rest;
    BeforeAppend(x, stop, rest);
    assert (x + rest)[|x|..] == rest;
  }

  /** The rank tags at the front of `s`, one after another. */
  function ParseTags(s: string): seq<RankTag>
    decreases |s|
  {
    match Field(s, TagOpen, '"')
    case None => []
    case Some((t, r1)) =>
      match Field(r1, AttrEnd, '<')
      case None => []
      case Some((text, r2)) =>
        if StartsWith(r2, SpanEnd) then [RankTag(t, text)] + ParseTags(r2[|SpanEnd|..]) else []
  }

  /**
   * `_parse_combo_html`: the id, name and displayed name of the name element,
   * `None` when one of them is missing, and the rank tags after it.
   */
  function ParseCombo(html: string): Option<ComboInfo> {
    match Field(html, ComboOpen, '"')
    case None => None
    case Some((id, r1)) =>
      match Field(r1, NameAttr, '"')
      case None => None
      case Some((name, r2)) =>
        match Field(r2, AttrEnd, '<')
        case None => None
        case Some((display, r3)) =>
          var tail := if StartsWith(r3, SpanEnd) then r3[|SpanEnd|..] else r3;
          Some(ComboInfo(id, name, display, ParseTags(tail)))
  }

  /** The tags `Tags(badges)` renders: one per badge with a tag type, in order. */
  function TagsOf(badges: seq<string>): seq<RankTag> {
    if badges == [] then []
    else
      var t := TagType(badges[0]);
      (if t == "" then [] else [RankTag(t, badges[0])]) + TagsOf(badges[1..])
  }

  lemma TagTypePlain(b: string)
    ensures TagType(b) == "" || Plain(TagType(b))
  {
  }

  /** One rendered tag, regrouped from the right. */
  lemma TagShape(t: string, b: string, rest: string)
    ensures TagOpen + t + AttrEnd + b + SpanEnd + rest == TagOpen + (t + (AttrEnd + (b + (SpanEnd + rest))))
  {
    AppendAssoc(TagOpen + t + AttrEnd + b, SpanEnd, rest);
    AppendAssoc(TagOpen + t + AttrEnd, b, SpanEnd + rest);
    AppendAssoc(TagOpen + t, AttrEnd, b + (SpanEnd + rest));
    AppendAssoc(TagOpen, t, AttrEnd + (b + (SpanEnd + rest)));
  }

  /** A tag with plain type and text at the front is parsed, and parsing goes on after it. */
  lemma ParseTagsCons(t: string, b: string, rest: string)
    requires Plain(t) && Plain(b)
    ensures ParseTags(TagOpen + (t + (AttrEnd + (b + (SpanEnd + rest))))) == [RankTag(t, b)] + ParseTags(rest)
  {
    var r2 := SpanEnd + rest;
    var r1 := AttrEnd + (b + r2);
    FieldOf(TagOpen, t, '"', r1);
    FieldOf(AttrEnd, b, '<', r2);
    SpanEndPrefix(rest);
  }

  /** Rendered tags parse back to the badges' types and texts. */
  lemma {:induction false} TagsRoundTrip(badges: seq<string>)
    requires forall i :: 0 <= i < |badges| ==> Plain(badges[i])
    ensures ParseTags(Tags(badges)) == TagsOf(badges)
  {
    if badges != [] {
      var b := badges[0];
      var rest := Tags(badges[1..]);
      TagsRoundTrip(badges[1..]);
      var t := TagType(b);
      if t != "" {
        TagTypePlain(b);
        TagShape(t, b, rest);
        ParseTagsCons(t, b, rest);
        assert TagsOf(badges) == [RankTag(t, b)] + TagsOf(badges[1..]);
      } else {
        assert Tags(badges) == rest;
        assert TagsOf(badges) == [] + TagsOf(badges[1..]);
      }
    }
  }

  /** The name element, regrouped from the right. */
  lemma ComboShape(id: string, name: string, tags: string)
    ensures ComboOpen + id + NameAttr + name + AttrEnd + name + SpanEnd + tags
      == ComboOpen + (id + (NameAttr + (name + (AttrEnd + (name + (SpanEnd + tags))))))
  {
    var r3 := SpanEnd + tags;
    AppendAssoc(ComboOpen + id + NameAttr + name + AttrEnd + name, SpanEnd, tags);
    AppendAssoc(ComboOpen + id + NameAttr + name + AttrEnd, name, r3);
    AppendAssoc(ComboOpen + id + NameAttr + name, AttrEnd, name + r3);
    AppendAssoc(ComboOpen + id + NameAttr, name, AttrEnd + (name + r3));
    AppendAssoc(ComboOpen + id, NameAttr, name + (AttrEnd + (name + r3)));
    AppendAssoc(ComboOpen, id, NameAttr + (name + (AttrEnd + (name + r3))));
  }

  /** A name element with plain id and name is parsed, and the rank tags after it. */
  lemma ParseComboFields(id: string, name: string, tags: string)
    requires Plain(id) && Plain(name)
    ensures ParseCombo(ComboOpen + (id + (NameAttr + (name + (AttrEnd + (name + (SpanEnd + tags)))))))
      == Some(ComboInfo(id, name, name, ParseTags(tags)))
  {
    var r3 := SpanEnd + tags;
    var r2 := AttrEnd + (name + r3);
    var r1 := NameAttr + (name + r2);
    FieldOf(ComboOpen, id, '"', r1);
    FieldOf(NameAttr, name, '"', r2);
    FieldOf(AttrEnd, name, '<', r3);
    SpanEndPrefix(tags);
  }

  lemma SpanEndPrefix(tags: string)
    ensures StartsWith(SpanEnd + tags, SpanEnd) && (SpanEnd + tags)[|SpanEnd|..] == tags
  {
  }

  /** Markup whose id, name and badges are plain parses back to exactly what was rendered. */
  lemma ComboRoundTrip(id: string, name: string, badges: seq<string>)
    requires Plain(id) && Plain(name)
    requires forall i :: 0 <= i < |badges| ==> Plain(badges[i])
    ensures ParseCombo(ComboMarkup(id, name, badges)) == Some(ComboInfo(id, name, name, TagsOf(badges)))
  {
    ComboShape(id, name, Tags(badges));
    ParseComboFields(id, name, Tags(badges));
    TagsRoundTrip(badges);
  }

  /** The name check compares against `markup.split('<span')[0]`, which is "" for every rendered markup. */
  lemma MarkupHead(id: string, name: string, badges: seq<string>)
    ensures SplitHead(ComboMarkup(id, name, badges), SpanOpen) == ""
  {
    var x := id + (NameAttr + (name + (AttrEnd + (name + (SpanEnd + Tags(badges))))));
    ComboShape(id, name, Tags(badges));
    var rest := " class=\"combo-name\" data-combo-id=\"";
    AppendAssoc(SpanOpen, rest, x);
    assert StartsWith(SpanOpen + (rest + x), SpanOpen);
  }

  /** The markup of a portfolio without badges. */
  lemma NoTags(id: string, name: string)
    ensures ComboMarkup(id, name, []) == ComboOpen + id + NameAttr + name + AttrEnd + name + SpanEnd
  {
    assert Tags([]) == [];
  }

  /** `portfolio_display` for one event, with the badges looked up in `ranks`. */
  method RenderCombo(id: string, name: string, ranks: map<string, seq<string>>) returns (display: string)
    ensures display == ComboMarkup(id, name, RanksOf(ranks, name))
  {
    var info := RanksOf(ranks, name);
    if info != [] {
      var tagsHtml := RenderTags(info);
      display := ComboOpen + id + NameAttr + name + AttrEnd + name + SpanEnd + tagsHtml;
    } else {
      display := ComboOpen + id + NameAttr + name + AttrEnd + name + SpanEnd;
      NoTags(id, name);
    }
  }

  // ---------------------------------------------------------------------
  // Grouping the events by stock

  /** One entry of `stock_summary` before its lists are parsed: the lists hold markup. */
  datatype Group = Group(code: string, name: string, buys: seq<string>, sells: seq<string>)

  /** The dict `stock_summary` and its insertion order. */
  datatype Grouping = Grouping(groups: map<string, Group>, order: seq<string>)

  /** `stock_key`: code and name joined by an underscore. */
  function StockKey(e: RebalanceEvent): string {
    e.stockCode + "_" + e.stockName
  }

  /** The event's portfolio rendered with its badges from `d`. */
  function Display(e: RebalanceEvent, d: RankData): string {
    ComboMarkup(e.portfolioId, e.portfolioName, BadgesOf(d, e.portfolioName))
  }

  /** `[name.split('<span')[0] for name in xs]`. */
  function Heads(xs: seq<string>): (r: seq<string>)
    ensures |r| == |xs|
  {
    seq(|xs|, i requires 0 <= i < |xs| => SplitHead(xs[i], SpanOpen))
  }

  /**
   * One event's effect on its stock's entry: the rendered portfolio joins the
   * buy or the sell list unless its name is among the heads of that list.
   */
  function AddEvent(g: Group, e: RebalanceEvent, display: string): (r: Group)
    ensures r.code == g.code && r.name == g.name
  {
    if e.action == Buy then
      if e.portfolioName in Heads(g.buys) then g else g.(buys := g.buys + [display])
    else
      if e.portfolioName in Heads(g.sells) then g else g.(sells := g.sells + [display])
  }

  /** The order lists each key of the dict exactly once. */
  ghost predicate WellGrouped(gr: Grouping) {
    && (forall k :: k in gr.groups <==> k in gr.order)
    && (forall p, q :: 0 <= p < q < |gr.order| ==> gr.order[p] != gr.order[q])
  }

  /** The event loop of `get_stock_summary`: `stock_summary` after `events`, badges from `d`. */
  function GroupEvents(events: seq<RebalanceEvent>, d: RankData): (r: Grouping)
    ensures WellGrouped(r)
  {
    if events == [] then Grouping(map[], [])
    else
      var gr := GroupEvents(events[..|events| - 1], d);
      var e := events[|events| - 1];
      var k := StockKey(e);
      var g := if k in gr.groups then gr.groups[k] else Group(e.stockCode, e.stockName, [], []);
      Grouping(gr.groups[k := AddEvent(g, e, Display(e, d))], if k in gr.groups then gr.order else gr.order + [k])
  }

  /** The grouping after one more event. */
  function Step(gr: Grouping, e: RebalanceEvent, display: string): Grouping {
    var k := StockKey(e);
    var g := if k in gr.groups then gr.groups[k] else Group(e.stockCode, e.stockName, [], []);
    Grouping(gr.groups[k := AddEvent(g, e, display)], if k in gr.groups then gr.order else gr.order + [k])
  }

  lemma GroupEventsPrefix(events: seq<RebalanceEvent>, i: nat, d: RankData)
    requires i < |events|
    ensures GroupEvents(events[..i + 1], d) == Step(GroupEvents(events[..i], d), events[i], Display(events[i], d))
  {
    assert events[..i + 1][..i] == events[..i];
  }

  /** `summary` and `order` are the grouping of the first `i` events. */
  ghost predicate Tracks(summary: map<string, Group>, order: seq<string>, events: seq<RebalanceEvent>, i: nat, d: RankData)
    requires i <= |events|
  {
    Grouping(summary, order) == GroupEvents(events[..i], d)
  }

  lemma TracksStep(summary: map<string, Group>, order: seq<string>, events: seq<RebalanceEvent>, i: nat, d: RankData)
    requires i < |events| && Tracks(summary, order, events, i, d)
    ensures var next := Step(Grouping(summary, order), events[i], Display(events[i], d));
      Tracks(next.groups, next.order, events, i + 1, d)
  {
    GroupEventsPrefix(events, i, d);
  }

  /** The event loop of `get_stock_summary`, with the badges already collected in `ranks`. */
  method GroupRecords(events: seq<RebalanceEvent>, d: RankData, ranks: map<string, seq<string>>)
    returns (summary: map<string, Group>, order: seq<string>)
    requires forall n :: RanksOf(ranks, n) == BadgesOf(d, n)
    ensures Grouping(summary, order) == GroupEvents(events, d)
  {
    summary := map[];
    order := [];
    var i := 0;
    while i < |events|
      invariant 0 <= i <= |events|
      invariant Tracks(summary, order, events, i, d)
    {
      var e := events[i];
      TracksStep(summary, order, events, i, d);
      ghost var next := Step(Grouping(summary, order), e, Display(e, d));
      var key := e.stockCode + "_" + e.stockName;
      var g := Group(e.stockCode, e.stockName, [], []);
      if key in summary {
        g := summary[key];
      } else {
        order := order + [key];
      }
      var display := RenderCombo(e.portfolioId, e.portfolioName, ranks);
      assert display == Display(e, d);
      ghost var g0 := g;
      if e.action == Buy {
        if e.portfolioName !in Heads(g.buys) {
          g := g.(buys := g.buys + [display]);
        }
      } else {
        if e.portfolioName !in Heads(g.sells) {
          g := g.(sells := g.sells + [display]);
        }
      }
      assert g == AddEvent(g0, e, display);
      summary := summary[key := g];
      assert summary == next.groups && order == next.order;
      i := i + 1;
    }
    assert events[..i] == events;
  }

  // ---------------------------------------------------------------------
  // The result list

  /** One stock's line of the result: the parsed portfolio lists and their lengths. */
  datatype StockSummary = StockSummary(code: string, name: string, buys: seq<ComboInfo>, sells: seq<ComboInfo>,
                                       buyCount: int, sellCount: int)

  /** A markup list parsed element by element; markup that does not parse is dropped. */
  function ParseCombos(xs: seq<string>): (r: seq<ComboInfo>)
    ensures |r| <= |xs|
  {
    if xs == [] then []
    else ParseCombos(xs[..|xs| - 1]) + (match ParseCombo(xs[|xs| - 1]) case Some(c) => [c] case None => [])
  }

  /** The loop that turns one markup list into structured entries. */
  method ParseComboList(xs: seq<string>) returns (cs: seq<ComboInfo>)
    ensures cs == ParseCombos(xs)
  {
    cs := [];
    var i := 0;
    while i < |xs|
      invariant 0 <= i <= |xs|
      invariant cs == ParseCombos(xs[..i])
    {
      assert xs[..i + 1][..i] == xs[..i];
      var info := ParseCombo(xs[i]);
      if info.Some? {
        cs := cs + [info.value];
      }
      i := i + 1;
    }
    assert xs[..i] == xs;
  }

  /** A stock's entry with its lists parsed and counted. */
  function Finish(g: Group): StockSummary {
    var b := ParseCombos(g.buys);
    var s := ParseCombos(g.sells);
    StockSummary(g.code, g.name, b, s, |b|, |s|)
  }

  /** The entries under `keys`, in that order, each finished. */
  function RowsOf(groups: map<string, Group>, keys: seq<string>): (r: seq<StockSummary>)
    requires forall i :: 0 <= i < |keys| ==> keys[i] in groups
    ensures |r| == |keys|
  {
    if keys == [] then []
    else RowsOf(groups, keys[..|keys| - 1]) + [Finish(groups[keys[|keys| - 1]])]
  }

  /** The entries in insertion order, each finished. */
  function Rows(gr: Grouping): (r: seq<StockSummary>)
    requires WellGrouped(gr)
    ensures |r| == |gr.order|
  {
    RowsOf(gr.groups, gr.order)
  }

  /** The sort key: `reverse=True` on the buy count is a stable sort on its negation. */
  function BuyKey(s: StockSummary): int {
    -s.buyCount
  }

  /** What `get_stock_summary` returns for the events and the cached rank map `d`. */
  function StockSummaries(events: seq<RebalanceEvent>, d: RankData): seq<StockSummary> {
    SortBy(Rows(GroupEvents(events, d)), BuyKey)
  }

  /** The loop over `stock_summary.values()` that parses and counts each entry's lists. */
  method SummariseGroups(summary: map<string, Group>, order: seq<string>) returns (rows: seq<StockSummary>)
    requires WellGrouped(Grouping(summary, order))
    ensures rows == Rows(Grouping(summary, order))
  {
    rows := [];
    var i := 0;
    while i < |order|
      invariant 0 <= i <= |order|
      invariant rows == RowsOf(summary, order[..i])
    {
      assert order[..i + 1][..i] == order[..i];
      var stock := summary[order[i]];
      var buyCombos := ParseComboList(stock.buys);
      var sellCombos := ParseComboList(stock.sells);
      rows := rows + [StockSummary(stock.code, stock.name, buyCombos, sellCombos, |buyCombos|, |sellCombos|)];
      i := i + 1;
    }
    assert order[..i] == order;
  }

  /**
   * `get_stock_summary` after its two fetches: `events` are the records of
   * `tc_list` and `d` is the cached rank map ([] when none could be had).
   */
  method GetStockSummary(events: seq<RebalanceEvent>, d: RankData) returns (result: seq<StockSummary>)
    ensures result == StockSummaries(events, d)
  {
    var ranks := CollectRankBadges(d);
    var summary, order := GroupRecords(events, d, ranks);
    var rows := SummariseGroups(summary, order);
    result := SortBy(rows, BuyKey);
  }

  // ---------------------------------------------------------------------
  // Properties of the summary

  /** The position of the first event with stock key `k`, or `|events|` when there is none. */
  function FirstIndex(events: seq<RebalanceEvent>, k: string): (r: nat)
    ensures r <= |events|
    ensures r < |events| ==> StockKey(events[r]) == k
    ensures forall i :: 0 <= i < r ==> StockKey(events[i]) != k
  {
    if events == [] then 0
    else if StockKey(events[0]) == k then 0
    else 1 + FirstIndex(events[1..], k)
  }

  /** The first position of `k` after one more event. */
  lemma FirstIndexLast(events: seq<RebalanceEvent>, k: string)
    requires events != []
    ensures var init := events[..|events| - 1];
      FirstIndex(events, k) ==
        if FirstIndex(init, k) < |init| then FirstIndex(init, k)
        else if StockKey(events[|events| - 1]) == k then |init|
        else |events|
  {
    var init := events[..|events| - 1];
    var f := FirstIndex(init, k);
    assert forall i :: 0 <= i < f ==> events[i] == init[i];
    if f < |init| {
      assert events[f] == init[f];
    }
  }

  /** A stock key is in the order exactly when some event carries it. */
  lemma {:induction false} GroupOrderKeys(events: seq<RebalanceEvent>, d: RankData)
    ensures forall k :: k in GroupEvents(events, d).order <==> FirstIndex(events, k) < |events|
  {
    if events != [] {
      var init := events[..|events| - 1];
      var e := events[|events| - 1];
      GroupOrderKeys(init, d);
      forall k ensures k in GroupEvents(events, d).order <==> FirstIndex(events, k) < |events| {
        FirstIndexLast(events, k);
      }
    }
  }

  /** The keys of `order` are listed by increasing first position in `events`. */
  ghost predicate FirstOrdered(order: seq<string>, events: seq<RebalanceEvent>) {
    forall p, q :: 0 <= p < q < |order| ==> FirstIndex(events, order[p]) < FirstIndex(events, order[q])
  }

  /** The stocks appear in the order in which they were first encountered. */
  lemma {:induction false} GroupOrderFirst(events: seq<RebalanceEvent>, d: RankData)
    ensures FirstOrdered(GroupEvents(events, d).order, events)
  {
    if events != [] {
      var init := events[..|events| - 1];
      var e := events[|events| - 1];
      GroupOrderFirst(init, d);
      GroupOrderKeys(init, d);
      var gr0 := GroupEvents(init, d);
      var order0 := gr0.order;
      var k0 := StockKey(e);
      var order := if k0 in gr0.groups then order0 else order0 + [k0];
      assert GroupEvents(events, d).order == order;
      forall p, q | 0 <= p < q < |order| ensures FirstIndex(events, order[p]) < FirstIndex(events, order[q]) {
        assert order[p] == order0[p];
        FirstIndexLast(events, order[p]);
        FirstIndexLast(events, order[q]);
        if q < |order0| {
          assert order[q] == order0[q];
        } else {
          assert order[q] == k0 && k0 !in order0;
        }
      }
    }
  }

  /** Each stock's entry carries the code and name of the first event for its key. */
  lemma {:induction false} GroupFirstEvent(events: seq<RebalanceEvent>, d: RankData)
    ensures var groups := GroupEvents(events, d).groups;
      forall k :: k in groups ==>
        && FirstIndex(events, k) < |events|
        && groups[k].code == events[FirstIndex(events, k)].stockCode
        && groups[k].name == events[FirstIndex(events, k)].stockName
  {
    if events != [] {
      var init := events[..|events| - 1];
      var e := events[|events| - 1];
      GroupFirstEvent(init, d);
      GroupOrderKeys(init, d);
      var groups0 := GroupEvents(init, d).groups;
      var groups := GroupEvents(events, d).groups;
      forall k | k in groups
        ensures FirstIndex(events, k) < |events|
        ensures groups[k].code == events[FirstIndex(events, k)].stockCode
        ensures groups[k].name == events[FirstIndex(events, k)].stockName
      {
        FirstIndexLast(events, k);
        if k in groups0 {
          assert events[FirstIndex(events, k)] == init[FirstIndex(init, k)];
          assert groups[k].code == groups0[k].code && groups[k].name == groups0[k].name;
        } else {
          assert events[FirstIndex(events, k)] == e;
        }
      }
    }
  }

  /** Buy events of the stock with key `k`. */
  function BuysOf(k: string): RebalanceEvent -> bool {
    (e: RebalanceEvent) => StockKey(e) == k && e.action == Buy
  }

  /** Sell events of the stock with key `k`. */
  function SellsOf(k: string): RebalanceEvent -> bool {
    (e: RebalanceEvent) => StockKey(e) == k && e.action == Sell
  }

  /** The events' portfolios rendered with their badges from `d`. */
  function Displays(es: seq<RebalanceEvent>, d: RankData): (r: seq<string>)
    ensures |r| == |es|
  {
    seq(|es|, i requires 0 <= i < |es| => Display(es[i], d))
  }

  lemma DisplaysAppend(es: seq<RebalanceEvent>, e: RebalanceEvent, d: RankData)
    ensures Displays(es + [e], d) == Displays(es, d) + [Display(e, d)]
  {
  }

  /** Every rendered portfolio heads with "", so a non-empty name is never among the heads. */
  lemma DisplaysHeads(es: seq<RebalanceEvent>, d: RankData, name: string)
    requires name != ""
    ensures name !in Heads(Displays(es, d))
  {
    forall i | 0 <= i < |es| ensures Heads(Displays(es, d))[i] == "" {
      MarkupHead(es[i].portfolioId, es[i].portfolioName, BadgesOf(d, es[i].portfolioName));
    }
  }

  lemma FilterNone<T>(s: seq<T>, p: T -> bool)
    requires forall i :: 0 <= i < |s| ==> !p(s[i])
    ensures Filter(s, p) == []
  {
    if s != [] {
      FilterNone(s[1..], p);
    }
  }

  lemma FilterLast<T>(s: seq<T>, x: T, p: T -> bool)
    ensures Filter(s + [x], p) == Filter(s, p) + (if p(x) then [x] else [])
  {
    FilterAppend(s, [x], p);
    assert [x][1..] == [];
  }

  /** Every event names its portfolio. */
  ghost predicate NamedEvents(events: seq<RebalanceEvent>) {
    forall i :: 0 <= i < |events| ==> events[i].portfolioName != ""
  }

  /** A stock's two lists, as rendered markup, are exactly its buy and its sell events. */
  ghost predicate ListsMatch(gr: Grouping, events: seq<RebalanceEvent>, d: RankData) {
    forall k :: k in gr.groups ==>
      gr.groups[k].buys == Displays(Filter(events, BuysOf(k)), d)
      && gr.groups[k].sells == Displays(Filter(events, SellsOf(k)), d)
  }

  /**
   * With named portfolios the name check never rejects: each stock's buy list
   * holds one rendered portfolio per buy event of that stock, in event order,
   * and likewise its sell list.
   */
  lemma {:induction false} GroupLists(events: seq<RebalanceEvent>, d: RankData)
    requires NamedEvents(events)
    ensures ListsMatch(GroupEvents(events, d), events, d)
  {
    if events != [] {
      var init := events[..|events| - 1];
      var e := events[|events| - 1];
      assert events == init + [e];
      GroupLists(init, d);
      GroupOrderKeys(init, d);
      var gr0 := GroupEvents(init, d);
      var gr := GroupEvents(events, d);
      var k0 := StockKey(e);
      forall k | k in gr.groups
        ensures gr.groups[k].buys == Displays(Filter(events, BuysOf(k)), d)
        ensures gr.groups[k].sells == Displays(Filter(events, SellsOf(k)), d)
      {
        FilterLast(init, e, BuysOf(k));
        FilterLast(init, e, SellsOf(k));
        if k == k0 {
          if k !in gr0.groups {
            FilterNone(init, BuysOf(k));
            FilterNone(init, SellsOf(k));
          }
          var g := if k in gr0.groups then gr0.groups[k] else Group(e.stockCode, e.stockName, [], []);
          assert g.buys == Displays(Filter(init, BuysOf(k)), d);
          assert g.sells == Displays(Filter(init, SellsOf(k)), d);
          DisplaysHeads(Filter(init, BuysOf(k)), d, e.portfolioName);
          DisplaysHeads(Filter(init, SellsOf(k)), d, e.portfolioName);
          DisplaysAppend(Filter(init, BuysOf(k)), e, d);
          DisplaysAppend(Filter(init, SellsOf(k)), e, d);
        }
      }
    }
  }

  /** Every category of `d` is one of the configured ones. */
  ghost predicate KnownCategories(d: RankData) {
    forall c :: 0 <= c < |d| ==> KnownKey(d[c].key)
  }

  /** Every string of `xs` is plain text. */
  ghost predicate AllPlain(xs: seq<string>) {
    forall i :: 0 <= i < |xs| ==> Plain(xs[i])
  }

  lemma AllPlainAppend(a: seq<string>, b: seq<string>)
    requires AllPlain(a) && AllPlain(b)
    ensures AllPlain(a + b)
  {
    forall i | 0 <= i < |a + b| ensures Plain((a + b)[i]) {
      if i >= |a| {
        assert (a + b)[i] == b[i - |a|];
      }
    }
  }

  lemma {:induction false} CategoryBadgesPlain(key: string, es: seq<Entry>, name: string)
    requires KnownKey(key)
    ensures AllPlain(CategoryBadges(key, es, name))
  {
    if es != [] {
      CategoryBadgesPlain(key, es[..|es| - 1], name);
      BadgePlain(key, |es|);
      var last := es[|es| - 1];
      AllPlainAppend(CategoryBadges(key, es[..|es| - 1], name),
        if Named(last) && last.zhuheName == name then [Badge(key, |es|)] else []);
    }
  }

  /** Over the configured categories every badge is plain text, so it renders into markup that parses back. */
  lemma {:induction false} BadgesPlain(d: RankData, name: string)
    requires KnownCategories(d)
    ensures AllPlain(BadgesOf(d, name))
  {
    if d != [] {
      BadgesPlain(d[..|d| - 1], name);
      CategoryBadgesPlain(d[|d| - 1].key, d[|d| - 1].entries, name);
      AllPlainAppend(BadgesOf(d[..|d| - 1], name), CategoryBadges(d[|d| - 1].key, d[|d| - 1].entries, name));
    }
  }

  /** Every event's portfolio id and name are plain text. */
  ghost predicate CleanEvents(events: seq<RebalanceEvent>) {
    forall i :: 0 <= i < |events| ==> Plain(events[i].portfolioId) && Plain(events[i].portfolioName)
  }

  /** The structured entry an event's portfolio should come back as. */
  function Info(e: RebalanceEvent, d: RankData): ComboInfo {
    ComboInfo(e.portfolioId, e.portfolioName, e.portfolioName, TagsOf(BadgesOf(d, e.portfolioName)))
  }

  function Infos(es: seq<RebalanceEvent>, d: RankData): (r: seq<ComboInfo>)
    ensures |r| == |es|
  {
    if es == [] then [] else Infos(es[..|es| - 1], d) + [Info(es[|es| - 1], d)]
  }

  /** Rendering clean events and parsing the markup back gives their structured entries. */
  lemma {:induction false} ParseDisplays(es: seq<RebalanceEvent>, d: RankData)
    requires CleanEvents(es) && KnownCategories(d)
    ensures ParseCombos(Displays(es, d)) == Infos(es, d)
  {
    if es != [] {
      var init := es[..|es| - 1];
      var e := es[|es| - 1];
      assert CleanEvents(init) by {
        forall i | 0 <= i < |init| ensures init[i] == es[i] { }
      }
      ParseDisplays(init, d);
      var xs := Displays(es, d);
      assert xs[..|es| - 1] == Displays(init, d);
      BadgesPlain(d, e.portfolioName);
      ComboRoundTrip(e.portfolioId, e.portfolioName, BadgesOf(d, e.portfolioName));
      assert ParseCombo(xs[|es| - 1]) == Some(Info(e, d));
      assert ParseCombos(xs) == ParseCombos(Displays(init, d)) + [Info(e, d)];
    }
  }

  lemma {:induction false} RowsOfAt(groups: map<string, Group>, keys: seq<string>, p: nat)
    requires forall i :: 0 <= i < |keys| ==> keys[i] in groups
    requires p < |keys|
    ensures RowsOf(groups, keys)[p] == Finish(groups[keys[p]])
  {
    if p < |keys| - 1 {
      RowsOfAt(groups, keys[..|keys| - 1], p);
    }
  }

  /**
   * The entry of stock key `k` described from the events alone: code and name
   * of its first event, one structured entry per buy and per sell event, and
   * their counts.
   */
  function Expected(events: seq<RebalanceEvent>, d: RankData, k: string): StockSummary
    requires FirstIndex(events, k) < |events|
  {
    var first := events[FirstIndex(events, k)];
    var buys := Filter(events, BuysOf(k));
    var sells := Filter(events, SellsOf(k));
    StockSummary(first.stockCode, first.stockName, Infos(buys, d), Infos(sells, d), |buys|, |sells|)
  }

  lemma FilterClean(events: seq<RebalanceEvent>, p: RebalanceEvent -> bool)
    requires CleanEvents(events)
    ensures CleanEvents(Filter(events, p))
  {
    FilterIn(events, p);
    var f := Filter(events, p);
    forall i | 0 <= i < |f| ensures Plain(f[i].portfolioId) && Plain(f[i].portfolioName) {
      assert f[i] in events;
    }
  }

  /**
   * For clean events over the configured categories, the entry of the stock
   * at position `p` of the insertion order is the one described from the
   * events alone: every buy and sell is counted once and parses back to its
   * portfolio with its rank tags.
   */
  lemma SummaryRows(events: seq<RebalanceEvent>, d: RankData, p: nat)
    requires CleanEvents(events) && KnownCategories(d)
    requires p < |GroupEvents(events, d).order|
    ensures FirstIndex(events, GroupEvents(events, d).order[p]) < |events|
    ensures Rows(GroupEvents(events, d))[p] == Expected(events, d, GroupEvents(events, d).order[p])
  {
    var gr := GroupEvents(events, d);
    var k := gr.order[p];
    assert NamedEvents(events);
    GroupLists(events, d);
    GroupFirstEvent(events, d);
    RowsOfAt(gr.groups, gr.order, p);
    FilterClean(events, BuysOf(k));
    FilterClean(events, SellsOf(k));
    ParseDisplays(Filter(events, BuysOf(k)), d);
    ParseDisplays(Filter(events, SellsOf(k)), d);
  }

  /** Entries with `n` buys. */
  function WithBuyCount(n: int): StockSummary -> bool {
    (s: StockSummary) => s.buyCount == n
  }

  /** No entry has more buys than an entry before it. */
  ghost predicate ByBuyCount(rows: seq<StockSummary>) {
    forall i, j :: 0 <= i < j < |rows| ==> rows[i].buyCount >= rows[j].buyCount
  }

  /**
   * The result is the entries ordered by buy count, most first; it is a
   * permutation of the entries, and entries with equal buy counts keep the
   * order in which their stocks were first encountered.
   */
  lemma StockSummariesOrder(events: seq<RebalanceEvent>, d: RankData)
    ensures ByBuyCount(StockSummaries(events, d))
    ensures multiset(StockSummaries(events, d)) == multiset(Rows(GroupEvents(events, d)))
    ensures forall n :: Filter(StockSummaries(events, d), WithBuyCount(n)) == Filter(Rows(GroupEvents(events, d)), WithBuyCount(n))
  {
    var rows := Rows(GroupEvents(events, d));
    SortByProperties(rows, BuyKey);
    var r := SortBy(rows, BuyKey);
    forall i, j | 0 <= i < j < |r| ensures r[i].buyCount >= r[j].buyCount {
      assert BuyKey(r[i]) <= BuyKey(r[j]);
    }
    forall n ensures Filter(r, WithBuyCount(n)) == Filter(rows, WithBuyCount(n)) {
      SortByStable(rows, BuyKey, -n, WithBuyCount(n));
    }
  }
}
