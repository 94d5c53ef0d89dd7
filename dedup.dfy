/**
 * Cross-category de-duplication (`deduplicate_rank_data`): a portfolio that
 * appears in several categories is kept only in the one of highest priority
 * (total > yearly > monthly > weekly > daily > anything else); within a
 * category the surviving rows are re-sorted by their previous rank and
 * renumbered from 1.
 *
 * The specification is written in three steps that mirror the three loops
 * of the source: the occurrences visited by the first loop (`Occurrences`),
 * the insertion-ordered `portfolio_map` they build (`BuildMap`), and the
 * lists rebuilt from that map (`Deduplicated`). The winning occurrence of a
 * portfolio is characterised independently by `Wins`.
 */
module Dedup {
  import opened Ranking
  import opened Sorting

  /**
   * `rank_priority.get(rank_type, 999)`: a smaller number wins, so the order
   * is total, yearly, monthly, weekly, daily, then any other key.
   */
  function Priority(key: string): (p: int)
    ensures 1 <= p
    ensures p <= 5 <==> key in {"total", "yearly", "monthly", "weekly", "daily"}
    ensures key == "total" ==> p == 1
    ensures key == "yearly" ==> p == 2
    ensures key == "monthly" ==> p == 3
    ensures key == "weekly" ==> p == 4
    ensures key == "daily" ==> p == 5
  {
    if key == "total" then 1
    else if key == "yearly" then 2
    else if key == "monthly" then 3
    else if key == "weekly" then 4
    else if key == "daily" then 5
    else 999
  }

  /** A `portfolio_map` value: `(priority, rank_type, item)`. */
  datatype Slot = Slot(priority: int, key: string, entry: Entry)

  function Id(s: Slot): string {
    s.entry.zjzh
  }

  /** The slots the inner loop offers for one category: rows with a non-empty id. */
  function CategoryOccurrences(key: string, es: seq<Entry>): seq<Slot> {
    if es == [] then []
    else
      CategoryOccurrences(key, es[..|es| - 1])
      + (if es[|es| - 1].zjzh != "" then [Slot(Priority(key), key, es[|es| - 1])] else [])
  }

  /** The slots the outer loop offers, category after category in key order. */
  function Occurrences(d: RankData): seq<Slot> {
    if d == [] then []
    else Occurrences(d[..|d| - 1]) + CategoryOccurrences(d[|d| - 1].key, d[|d| - 1].entries)
  }

  /** `portfolio_map`: an insertion-ordered dict from portfolio id to its slot. */
  datatype PortfolioMap = PortfolioMap(slots: map<string, Slot>, order: seq<string>)

  /** One step of the first loop: record the slot if the id is new or the priority is strictly better. */
  function Record(pm: PortfolioMap, s: Slot): PortfolioMap {
    if Id(s) !in pm.slots then PortfolioMap(pm.slots[Id(s) := s], pm.order + [Id(s)])
    else if s.priority < pm.slots[Id(s)].priority then PortfolioMap(pm.slots[Id(s) := s], pm.order)
    else pm
  }

  function BuildMap(occ: seq<Slot>): PortfolioMap {
    if occ == [] then PortfolioMap(map[], [])
    else Record(BuildMap(occ[..|occ| - 1]), occ[|occ| - 1])
  }

  /**
   * Occurrence `i` is the one kept for its portfolio: no occurrence of the
   * same id has a smaller priority, and every earlier one has a larger
   * priority (on a tie the first occurrence is kept).
   */
  ghost predicate Wins(occ: seq<Slot>, i: int) {
    && 0 <= i < |occ|
    && (forall j :: 0 <= j < |occ| && Id(occ[j]) == Id(occ[i]) ==> occ[i].priority <= occ[j].priority)
    && (forall j :: 0 <= j < i && Id(occ[j]) == Id(occ[i]) ==> occ[i].priority < occ[j].priority)
  }

  /** Portfolio `id` has its winning occurrence in category `key`. */
  ghost predicate WinsIn(occ: seq<Slot>, id: string, key: string) {
    exists i :: Wins(occ, i) && Id(occ[i]) == id && occ[i].key == key
  }

  /** Row `e` is the winning occurrence of its portfolio, in category `key`. */
  ghost predicate IsWinningRow(occ: seq<Slot>, key: string, e: Entry) {
    exists i :: Wins(occ, i) && occ[i].key == key && occ[i].entry == e
  }

  ghost predicate WellFormed(pm: PortfolioMap) {
    && (forall id :: id in pm.slots <==> id in pm.order)
    && (forall a, b :: 0 <= a < b < |pm.order| ==> pm.order[a] != pm.order[b])
    && (forall id :: id in pm.slots ==> Id(pm.slots[id]) == id)
  }

  /** The rows that the map assigns to category `key`, in the map's insertion order. */
  function Collect(slots: map<string, Slot>, order: seq<string>, key: string): seq<Entry>
    requires forall id :: id in order ==> id in slots
  {
    if order == [] then []
    else
      var s := slots[order[|order| - 1]];
      Collect(slots, order[..|order| - 1], key) + (if s.key == key then [s.entry] else [])
  }

  function RankKey(e: Entry): int {
    e.rank
  }

  /** `item['rank'] = i` for `i` counting from 1. */
  function Renumber(es: seq<Entry>): (r: seq<Entry>)
    ensures |r| == |es|
    ensures forall k :: 0 <= k < |r| ==> r[k] == es[k].(rank := k + 1)
  {
    seq(|es|, k requires 0 <= k < |es| => es[k].(rank := k + 1))
  }

  /** The rows of category `key` that survive, before sorting. */
  function Survivors(d: RankData, key: string): seq<Entry> {
    var pm := BuildMap(Occurrences(d));
    BuildMapWellFormed(Occurrences(d));
    Collect(pm.slots, pm.order, key)
  }

  /** The de-duplicated rank map: same keys in the same order, each list sorted by previous rank and renumbered. */
  function Deduplicated(d: RankData): (r: RankData)
    ensures |r| == |d|
    ensures forall c :: 0 <= c < |d| ==> r[c].key == d[c].key
  {
    seq(|d|, c requires 0 <= c < |d| => Category(d[c].key, Renumber(SortBy(Survivors(d, d[c].key), RankKey))))
  }

  lemma DeduplicatedAt(d: RankData, c: int)
    requires 0 <= c < |d|
    ensures Deduplicated(d)[c] == Category(d[c].key, Renumber(SortBy(Survivors(d, d[c].key), RankKey)))
  {
  }

  function HasId(id: string): Entry -> bool {
    (e: Entry) => e.zjzh == id
  }

  /** How many rows of `es` belong to portfolio `id`. */
  function CountId(es: seq<Entry>, id: string): nat {
    |Filter(es, HasId(id))|
  }

  function SlotHasId(id: string): Slot -> bool {
    (s: Slot) => Id(s) == id
  }

  // ---------------------------------------------------------------------
  // The occurrences

  lemma {:induction false} CategoryOccurrencesShape(key: string, es: seq<Entry>)
    ensures forall i :: 0 <= i < |CategoryOccurrences(key, es)| ==>
      var s := CategoryOccurrences(key, es)[i];
      s.key == key && s.priority == Priority(key) && s.entry in es && Id(s) != ""
    ensures forall j :: 0 <= j < |es| && es[j].zjzh != "" ==> Slot(Priority(key), key, es[j]) in CategoryOccurrences(key, es)
  {
    if es != [] {
      var init := es[..|es| - 1];
      CategoryOccurrencesShape(key, init);
      forall j | 0 <= j < |es| && es[j].zjzh != ""
        ensures Slot(Priority(key), key, es[j]) in CategoryOccurrences(key, es)
      {
        if j < |es| - 1 {
          assert es[j] == init[j];
        }
      }
    }
  }

  /** Every occurrence comes from a row with a non-empty id of some category, with that category's priority. */
  lemma {:induction false} OccurrencesFrom(d: RankData)
    ensures forall i :: 0 <= i < |Occurrences(d)| ==>
      var s := Occurrences(d)[i];
      Id(s) != "" && s.priority == Priority(s.key) && exists c :: 0 <= c < |d| && d[c].key == s.key && s.entry in d[c].entries
  {
    if d != [] {
      var init := d[..|d| - 1];
      var last := d[|d| - 1];
      OccurrencesFrom(init);
      CategoryOccurrencesShape(last.key, last.entries);
      var A := Occurrences(init);
      var B := CategoryOccurrences(last.key, last.entries);
      forall i | 0 <= i < |Occurrences(d)|
        ensures var s := Occurrences(d)[i];
          Id(s) != "" && s.priority == Priority(s.key) && exists c :: 0 <= c < |d| && d[c].key == s.key && s.entry in d[c].entries
      {
        if i < |A| {
          assert Occurrences(d)[i] == A[i];
          var c :| 0 <= c < |init| && init[c].key == A[i].key && A[i].entry in init[c].entries;
          assert d[c] == init[c];
        } else {
          assert Occurrences(d)[i] == B[i - |A|];
          assert d[|d| - 1] == last;
        }
      }
    }
  }

  /** Every row with a non-empty id is offered as an occurrence. */
  lemma {:induction false} OccurrencesCover(d: RankData, c: int, j: int)
    requires 0 <= c < |d| && 0 <= j < |d[c].entries| && d[c].entries[j].zjzh != ""
    ensures Slot(Priority(d[c].key), d[c].key, d[c].entries[j]) in Occurrences(d)
  {
    var init := d[..|d| - 1];
    var last := d[|d| - 1];
    if c < |d| - 1 {
      assert init[c] == d[c];
      OccurrencesCover(init, c, j);
    } else {
      CategoryOccurrencesShape(last.key, last.entries);
    }
  }

  // ---------------------------------------------------------------------
  // The map built by the first loop

  /** Recording one slot keeps the map consistent with its insertion order. */
  lemma RecordWellFormed(pm: PortfolioMap, s: Slot)
    requires WellFormed(pm)
    ensures WellFormed(Record(pm, s))
    ensures forall id :: id in Record(pm, s).slots <==> id in pm.slots || id == Id(s)
  {
    if Id(s) !in pm.slots {
      var order := pm.order + [Id(s)];
      forall a, b | 0 <= a < b < |order| ensures order[a] != order[b] {
        if b == |pm.order| {
          assert order[a] == pm.order[a];
        } else {
          assert order[a] == pm.order[a] && order[b] == pm.order[b];
        }
      }
    }
  }

  lemma {:induction false} BuildMapWellFormed(occ: seq<Slot>)
    ensures WellFormed(BuildMap(occ))
    ensures forall id :: id in BuildMap(occ).slots <==> exists i :: 0 <= i < |occ| && Id(occ[i]) == id
  {
    if occ != [] {
      var init := occ[..|occ| - 1];
      BuildMapWellFormed(init);
      RecordWellFormed(BuildMap(init), occ[|occ| - 1]);
      forall id ensures id in BuildMap(occ).slots <==> exists i :: 0 <= i < |occ| && Id(occ[i]) == id {
        if id in BuildMap(init).slots {
          var i :| 0 <= i < |init| && Id(init[i]) == id;
          assert occ[i] == init[i];
        }
        if exists i :: 0 <= i < |occ| && Id(occ[i]) == id {
          var i :| 0 <= i < |occ| && Id(occ[i]) == id;
          if i < |occ| - 1 {
            assert init[i] == occ[i];
          }
        }
      }
    }
  }

  /** The slot the map holds for an id is that id's winning occurrence. */
  lemma {:induction false} BuildMapWinner(occ: seq<Slot>, id: string)
    requires id in BuildMap(occ).slots
    ensures exists i :: Wins(occ, i) && occ[i] == BuildMap(occ).slots[id]
  {
    var init := occ[..|occ| - 1];
    var n := |occ| - 1;
    var s := occ[n];
    var pm := BuildMap(init);
    assert BuildMap(occ) == Record(pm, s);
    BuildMapWellFormed(init);
    if id != Id(s) || (id in pm.slots && pm.slots[id].priority <= s.priority) {
      assert BuildMap(occ).slots[id] == pm.slots[id];
      BuildMapWinner(init, id);
      var i :| Wins(init, i) && init[i] == pm.slots[id];
      WinsExtend(occ, i);
      assert occ[i] == init[i];
    } else {
      assert BuildMap(occ).slots[id] == s;
      forall j | 0 <= j < n && Id(occ[j]) == Id(s) ensures s.priority < occ[j].priority {
        assert init[j] == occ[j];
        if id in pm.slots {
          BuildMapWinner(init, id);
          var i :| Wins(init, i) && init[i] == pm.slots[id];
        }
      }
      LastWins(occ);
    }
  }

  /** The appended occurrence wins when every earlier occurrence of its id has a larger priority. */
  lemma LastWins(occ: seq<Slot>)
    requires occ != []
    requires forall j :: 0 <= j < |occ| - 1 && Id(occ[j]) == Id(occ[|occ| - 1]) ==> occ[|occ| - 1].priority < occ[j].priority
    ensures Wins(occ, |occ| - 1)
  {
  }

  /** A winner stays the winner when an occurrence is appended that does not beat it. */
  lemma WinsExtend(occ: seq<Slot>, i: int)
    requires occ != [] && Wins(occ[..|occ| - 1], i)
    requires Id(occ[|occ| - 1]) == Id(occ[i]) ==> occ[i].priority <= occ[|occ| - 1].priority
    ensures Wins(occ, i)
  {
    var init := occ[..|occ| - 1];
    forall j | 0 <= j < |occ| && Id(occ[j]) == Id(occ[i]) ensures occ[i].priority <= occ[j].priority {
      if j < |init| {
        assert occ[j] == init[j];
      }
    }
    forall j | 0 <= j < i && Id(occ[j]) == Id(occ[i]) ensures occ[i].priority < occ[j].priority {
      assert occ[j] == init[j];
    }
  }

  /** Each portfolio has at most one winning occurrence. */
  lemma WinnerUnique(occ: seq<Slot>, i: int, k: int)
    ensures Wins(occ, i) && Wins(occ, k) && Id(occ[i]) == Id(occ[k]) ==> i == k
  {
  }

  // ---------------------------------------------------------------------
  // The lists rebuilt from the map

  lemma {:induction false} CollectFrame(s1: map<string, Slot>, s2: map<string, Slot>, order: seq<string>, key: string)
    requires forall id :: id in order ==> id in s1 && id in s2 && s1[id] == s2[id]
    ensures Collect(s1, order, key) == Collect(s2, order, key)
  {
    if order != [] {
      CollectFrame(s1, s2, order[..|order| - 1], key);
    }
  }

  /** No id is listed twice. */
  ghost predicate DistinctOrder(order: seq<string>) {
    forall a, b :: 0 <= a < b < |order| ==> order[a] != order[b]
  }

  /** A portfolio is listed once in the category its slot names, and nowhere else. */
  lemma {:induction false} CollectCount(slots: map<string, Slot>, order: seq<string>, key: string, id: string)
    requires forall k :: k in order ==> k in slots && Id(slots[k]) == k
    requires DistinctOrder(order)
    ensures CountId(Collect(slots, order, key), id) ==
      (if id in order && slots[id].key == key then 1 else 0)
  {
    if order != [] {
      var init := order[..|order| - 1];
      var x := order[|order| - 1];
      assert order == init + [x];
      assert DistinctOrder(init) by {
        forall a, b | 0 <= a < b < |init| ensures init[a] != init[b] {
          assert init[a] == order[a] && init[b] == order[b];
        }
      }
      CollectCount(slots, init, key, id);
      var s := slots[x];
      var tail := if s.key == key then [s.entry] else [];
      FilterAppend(Collect(slots, init, key), tail, HasId(id));
      if x == id {
        assert id !in init by {
          forall a | 0 <= a < |init| ensures init[a] != id {
            assert order[a] != order[|order| - 1];
          }
        }
      }
    }
  }

  /** Every listed row is the entry of a slot of that category. */
  lemma {:induction false} CollectFrom(slots: map<string, Slot>, order: seq<string>, key: string)
    requires forall id :: id in order ==> id in slots
    ensures forall e :: e in Collect(slots, order, key) ==> exists id :: id in order && slots[id].key == key && slots[id].entry == e
  {
    if order != [] {
      var prefix := order[..|order| - 1];
      CollectFrom(slots, prefix, key);
      forall e | e in Collect(slots, order, key)
        ensures exists id :: id in order && slots[id].key == key && slots[id].entry == e
      {
        if e in Collect(slots, prefix, key) {
          var id :| id in prefix && slots[id].key == key && slots[id].entry == e;
          assert id in order;
        } else {
          assert order[|order| - 1] in order;
        }
      }
    }
  }

  // ---------------------------------------------------------------------
  // What de-duplication guarantees

  lemma {:induction false} RenumberCount(a: seq<Entry>, b: seq<Entry>, id: string)
    requires |a| == |b| && forall k :: 0 <= k < |a| ==> a[k].zjzh == b[k].zjzh
    ensures CountId(a, id) == CountId(b, id)
  {
    if a != [] {
      RenumberCount(a[1..], b[1..], id);
    }
  }

  /** The map holds a slot of category `key` for `id` exactly when `id` has a winning occurrence there. */
  lemma MapSlotIsWinner(occ: seq<Slot>, id: string, key: string)
    ensures (id in BuildMap(occ).slots && BuildMap(occ).slots[id].key == key) <==> WinsIn(occ, id, key)
  {
    var pm := BuildMap(occ);
    BuildMapWellFormed(occ);
    if id in pm.slots {
      BuildMapWinner(occ, id);
      var k :| Wins(occ, k) && occ[k] == pm.slots[id];
      forall i | Wins(occ, i) && Id(occ[i]) == id ensures occ[i] == pm.slots[id] {
        WinnerUnique(occ, i, k);
      }
    } else {
      forall i | 0 <= i < |occ| ensures Id(occ[i]) != id {
      }
    }
  }

  /** Before sorting, a category holds a portfolio once if its winning occurrence is there, else not at all. */
  lemma SurvivorsCount(d: RankData, key: string, id: string)
    ensures CountId(Survivors(d, key), id) ==
      (if WinsIn(Occurrences(d), id, key) then 1 else 0)
  {
    var occ := Occurrences(d);
    var pm := BuildMap(occ);
    BuildMapWellFormed(occ);
    CollectCount(pm.slots, pm.order, key, id);
    var n := CountId(Survivors(d, key), id);
    assert n == if id in pm.slots && pm.slots[id].key == key then 1 else 0;
    MapSlotIsWinner(occ, id, key);
  }

  /**
   * A portfolio occurs in a de-duplicated category exactly once when its
   * winning occurrence belongs to that category, and not at all otherwise;
   * rows without an id are dropped.
   */
  lemma DeduplicatedCount(d: RankData, c: int, id: string)
    requires 0 <= c < |d|
    ensures CountId(Deduplicated(d)[c].entries, id) ==
      (if WinsIn(Occurrences(d), id, d[c].key) then 1 else 0)
  {
    var coll := Survivors(d, d[c].key);
    SurvivorsCount(d, d[c].key, id);
    SortByProperties(coll, RankKey);
    SortByCount(coll, RankKey, HasId(id));
    var sorted := SortBy(coll, RankKey);
    RenumberCount(Renumber(sorted), sorted, id);
  }

  /** A portfolio never survives in two categories, nor twice in one. */
  lemma DeduplicatedAtMostOnce(d: RankData, id: string)
    requires DistinctKeys(d)
    ensures forall c :: 0 <= c < |d| ==> CountId(Deduplicated(d)[c].entries, id) <= 1
    ensures forall c1, c2 :: 0 <= c1 < c2 < |d| ==>
      CountId(Deduplicated(d)[c1].entries, id) == 0 || CountId(Deduplicated(d)[c2].entries, id) == 0
    ensures id == "" ==> forall c :: 0 <= c < |d| ==> CountId(Deduplicated(d)[c].entries, id) == 0
  {
    var occ := Occurrences(d);
    OccurrencesFrom(d);
    forall c | 0 <= c < |d| ensures CountId(Deduplicated(d)[c].entries, id) <= 1 {
      DeduplicatedCount(d, c, id);
    }
    forall c1, c2 | 0 <= c1 < c2 < |d|
      ensures CountId(Deduplicated(d)[c1].entries, id) == 0 || CountId(Deduplicated(d)[c2].entries, id) == 0
    {
      DeduplicatedCount(d, c1, id);
      DeduplicatedCount(d, c2, id);
      if CountId(Deduplicated(d)[c1].entries, id) != 0 {
        var i1 :| Wins(occ, i1) && Id(occ[i1]) == id && occ[i1].key == d[c1].key;
        forall i | Wins(occ, i) && Id(occ[i]) == id ensures occ[i].key != d[c2].key {
          WinnerUnique(occ, i, i1);
        }
      }
    }
    if id == "" {
      forall c | 0 <= c < |d| ensures CountId(Deduplicated(d)[c].entries, id) == 0 {
        DeduplicatedCount(d, c, id);
      }
    }
  }

  /** Every portfolio with an id that appears anywhere in the input survives somewhere. */
  lemma DeduplicatedKeepsEveryPortfolio(d: RankData, c: int, j: int)
    requires 0 <= c < |d| && 0 <= j < |d[c].entries| && d[c].entries[j].zjzh != ""
    ensures exists c' :: 0 <= c' < |d| && CountId(Deduplicated(d)[c'].entries, d[c].entries[j].zjzh) == 1
  {
    var occ := Occurrences(d);
    var id := d[c].entries[j].zjzh;
    OccurrencesCover(d, c, j);
    OccurrencesFrom(d);
    BuildMapWellFormed(occ);
    var i0 :| 0 <= i0 < |occ| && occ[i0] == Slot(Priority(d[c].key), d[c].key, d[c].entries[j]);
    assert Id(occ[i0]) == id;
    BuildMapWinner(occ, id);
    var k :| Wins(occ, k) && occ[k] == BuildMap(occ).slots[id];
    var c' :| 0 <= c' < |d| && d[c'].key == occ[k].key && occ[k].entry in d[c'].entries;
    DeduplicatedCount(d, c', id);
  }

  /**
   * A portfolio that also appears in a category of better priority does not
   * survive in a worse one (in both the weekly and the total list, it is
   * dropped from the weekly one).
   */
  lemma DeduplicatedDropsWorse(d: RankData, c: int, better: int, j: int)
    requires 0 <= c < |d| && 0 <= better < |d| && 0 <= j < |d[better].entries|
    requires d[better].entries[j].zjzh != "" && Priority(d[better].key) < Priority(d[c].key)
    ensures CountId(Deduplicated(d)[c].entries, d[better].entries[j].zjzh) == 0
  {
    var occ := Occurrences(d);
    var id := d[better].entries[j].zjzh;
    OccurrencesCover(d, better, j);
    OccurrencesFrom(d);
    var i0 :| 0 <= i0 < |occ| && occ[i0] == Slot(Priority(d[better].key), d[better].key, d[better].entries[j]);
    forall i | Wins(occ, i) && Id(occ[i]) == id
      ensures occ[i].key != d[c].key
    {
      assert occ[i].priority <= occ[i0].priority;
    }
    DeduplicatedCount(d, c, id);
  }

  /** A portfolio on the total list survives there, once, and in no other category. */
  lemma DeduplicatedTotalWins(d: RankData, t: int, j: int)
    requires DistinctKeys(d) && 0 <= t < |d| && d[t].key == "total"
    requires 0 <= j < |d[t].entries| && d[t].entries[j].zjzh != ""
    ensures CountId(Deduplicated(d)[t].entries, d[t].entries[j].zjzh) == 1
    ensures forall c :: 0 <= c < |d| && c != t ==> CountId(Deduplicated(d)[c].entries, d[t].entries[j].zjzh) == 0
  {
    var id := d[t].entries[j].zjzh;
    forall c | 0 <= c < |d| && c != t
      ensures CountId(Deduplicated(d)[c].entries, id) == 0
    {
      assert d[c].key != "total";
      DeduplicatedDropsWorse(d, c, t, j);
    }
    DeduplicatedKeepsEveryPortfolio(d, t, j);
  }

  /** Every row that survives in category `key` is a winning occurrence of that category. */
  lemma SurvivorsAreWinners(d: RankData, key: string)
    ensures forall e :: e in Survivors(d, key) ==>
      IsWinningRow(Occurrences(d), key, e)
  {
    var occ := Occurrences(d);
    var pm := BuildMap(occ);
    BuildMapWellFormed(occ);
    CollectFrom(pm.slots, pm.order, key);
    assert Survivors(d, key) == Collect(pm.slots, pm.order, key);
    forall e | e in Survivors(d, key)
      ensures IsWinningRow(occ, key, e)
    {
      var id :| id in pm.order && pm.slots[id].key == key && pm.slots[id].entry == e;
      BuildMapWinner(occ, id);
    }
  }

  /**
   * The rows of a de-duplicated category are the winning occurrences of that
   * category, ordered by their previous rank and renumbered from 1.
   */
  lemma DeduplicatedCategory(d: RankData, c: int)
    requires 0 <= c < |d|
    ensures var sorted := SortBy(Survivors(d, d[c].key), RankKey);
      && |Deduplicated(d)[c].entries| == |sorted|
      && SortedBy(sorted, RankKey)
      && (forall k :: 0 <= k < |sorted| ==> Deduplicated(d)[c].entries[k] == sorted[k].(rank := k + 1))
      && (forall k :: 0 <= k < |sorted| ==>
            IsWinningRow(Occurrences(d), d[c].key, sorted[k]))
  {
    var coll := Survivors(d, d[c].key);
    SurvivorsAreWinners(d, d[c].key);
    SortByProperties(coll, RankKey);
    var sorted := SortBy(coll, RankKey);
    forall k | 0 <= k < |sorted|
      ensures IsWinningRow(Occurrences(d), d[c].key, sorted[k])
    {
      assert sorted[k] in multiset(sorted);
      assert sorted[k] in coll;
    }
  }

  // ---------------------------------------------------------------------
  // Idempotence

  /** The rows of the slots that name category `key`, in order. */
  function KeyEntries(occ: seq<Slot>, key: string): seq<Entry> {
    if occ == [] then []
    else KeyEntries(occ[..|occ| - 1], key) + (if occ[|occ| - 1].key == key then [occ[|occ| - 1].entry] else [])
  }

  ghost predicate DistinctIds(occ: seq<Slot>) {
    forall a, b :: 0 <= a < b < |occ| ==> Id(occ[a]) != Id(occ[b])
  }

  lemma DistinctIdsPrefix(occ: seq<Slot>, n: nat)
    requires DistinctIds(occ) && n <= |occ|
    ensures DistinctIds(occ[..n])
  {
    forall a, b | 0 <= a < b < n ensures Id(occ[..n][a]) != Id(occ[..n][b]) {
      assert occ[..n][a] == occ[a] && occ[..n][b] == occ[b];
    }
  }

  /** Recording a portfolio not seen before appends its row to its category. */
  lemma CollectFresh(occ: seq<Slot>, key: string)
    requires occ != []
    requires WellFormed(BuildMap(occ[..|occ| - 1])) && Id(occ[|occ| - 1]) !in BuildMap(occ[..|occ| - 1]).slots
    ensures forall id :: id in BuildMap(occ).order ==> id in BuildMap(occ).slots
    ensures var s := occ[|occ| - 1];
      Collect(BuildMap(occ).slots, BuildMap(occ).order, key)
      == Collect(BuildMap(occ[..|occ| - 1]).slots, BuildMap(occ[..|occ| - 1]).order, key) + (if s.key == key then [s.entry] else [])
  {
    var s := occ[|occ| - 1];
    var pm := BuildMap(occ[..|occ| - 1]);
    var pm' := BuildMap(occ);
    assert pm' == PortfolioMap(pm.slots[Id(s) := s], pm.order + [Id(s)]);
    assert pm'.order[..|pm'.order| - 1] == pm.order;
    CollectFrame(pm'.slots, pm.slots, pm.order, key);
  }

  /** With no repeated portfolio, the map keeps every occurrence and rebuilds each category as it was offered. */
  lemma {:induction false} CollectDistinct(occ: seq<Slot>, key: string)
    requires DistinctIds(occ)
    ensures forall id :: id in BuildMap(occ).order ==> id in BuildMap(occ).slots
    ensures Collect(BuildMap(occ).slots, BuildMap(occ).order, key) == KeyEntries(occ, key)
  {
    BuildMapWellFormed(occ);
    if occ != [] {
      var init := occ[..|occ| - 1];
      var s := occ[|occ| - 1];
      DistinctIdsPrefix(occ, |occ| - 1);
      CollectDistinct(init, key);
      BuildMapWellFormed(init);
      forall i | 0 <= i < |init| ensures Id(init[i]) != Id(s) {
        assert init[i] == occ[i];
      }
      CollectFresh(occ, key);
    }
  }

  lemma {:induction false} KeyEntriesAppend(a: seq<Slot>, b: seq<Slot>, key: string)
    ensures KeyEntries(a + b, key) == KeyEntries(a, key) + KeyEntries(b, key)
  {
    if b == [] {
      assert a + b == a;
    } else {
      assert (a + b)[..|a + b| - 1] == a + b[..|b| - 1];
      KeyEntriesAppend(a, b[..|b| - 1], key);
    }
  }

  lemma {:induction false} KeyEntriesCategory(key: string, es: seq<Entry>, k: string)
    requires forall j :: 0 <= j < |es| ==> es[j].zjzh != ""
    ensures KeyEntries(CategoryOccurrences(key, es), k) == if key == k then es else []
  {
    if es != [] {
      var init := es[..|es| - 1];
      KeyEntriesCategory(key, init, k);
      KeyEntriesAppend(CategoryOccurrences(key, init), [Slot(Priority(key), key, es[|es| - 1])], k);
      assert [Slot(Priority(key), key, es[|es| - 1])][..0] == [];
      SplitLast(es);
    }
  }

  lemma {:induction false} KeyEntriesAbsent(d: RankData, k: string)
    requires forall c :: 0 <= c < |d| ==> d[c].key != k
    ensures KeyEntries(Occurrences(d), k) == []
  {
    if d != [] {
      var init := d[..|d| - 1];
      var last := d[|d| - 1];
      KeyEntriesAbsent(init, k);
      KeyEntriesAppend(Occurrences(init), CategoryOccurrences(last.key, last.entries), k);
      CategoryOccurrencesShape(last.key, last.entries);
      KeyEntriesNone(CategoryOccurrences(last.key, last.entries), k);
    }
  }

  lemma {:induction false} KeyEntriesNone(occ: seq<Slot>, k: string)
    requires forall i :: 0 <= i < |occ| ==> occ[i].key != k
    ensures KeyEntries(occ, k) == []
  {
    if occ != [] {
      KeyEntriesNone(occ[..|occ| - 1], k);
    }
  }

  /** When every row has an id and keys are distinct, the slots of a category give back its rows. */
  lemma {:induction false} KeyEntriesOccurrences(d: RankData, c: int)
    requires DistinctKeys(d) && 0 <= c < |d|
    requires forall c', j :: 0 <= c' < |d| && 0 <= j < |d[c'].entries| ==> d[c'].entries[j].zjzh != ""
    ensures KeyEntries(Occurrences(d), d[c].key) == d[c].entries
  {
    var n := |d| - 1;
    var init := d[..n];
    var last := d[n];
    forall c' | 0 <= c' < n ensures init[c'] == d[c'] {
    }
    KeyEntriesAppend(Occurrences(init), CategoryOccurrences(last.key, last.entries), d[c].key);
    KeyEntriesCategory(last.key, last.entries, d[c].key);
    if c == n {
      KeyEntriesAbsent(init, d[c].key);
    } else {
      assert last.key != d[c].key;
      KeyEntriesOccurrences(init, c);
    }
  }

  function CountSlots(occ: seq<Slot>, id: string): nat {
    |Filter(occ, SlotHasId(id))|
  }

  /** `sum` over the categories of the rows of portfolio `id`. */
  function SumCount(d: RankData, id: string): nat {
    if d == [] then 0 else SumCount(d[..|d| - 1], id) + CountId(d[|d| - 1].entries, id)
  }

  lemma {:induction false} CategoryCountSlots(key: string, es: seq<Entry>, id: string)
    requires id != ""
    ensures CountSlots(CategoryOccurrences(key, es), id) == CountId(es, id)
  {
    if es != [] {
      var init := es[..|es| - 1];
      var e := es[|es| - 1];
      CategoryCountSlots(key, init, id);
      var tail := if e.zjzh != "" then [Slot(Priority(key), key, e)] else [];
      FilterAppend(CategoryOccurrences(key, init), tail, SlotHasId(id));
      assert init + [e] == es;
      FilterAppend(init, [e], HasId(id));
      assert [e][1..] == [];
      if tail != [] {
        assert tail[1..] == [];
      }
    }
  }

  lemma {:induction false} OccurrencesCountSlots(d: RankData, id: string)
    requires id != ""
    ensures CountSlots(Occurrences(d), id) == SumCount(d, id)
  {
    if d != [] {
      var init := d[..|d| - 1];
      var last := d[|d| - 1];
      OccurrencesCountSlots(init, id);
      CategoryCountSlots(last.key, last.entries, id);
      FilterAppend(Occurrences(init), CategoryOccurrences(last.key, last.entries), SlotHasId(id));
    }
  }

  lemma {:induction false} SumAtMostOne(d: RankData, id: string)
    requires forall c :: 0 <= c < |d| ==> CountId(d[c].entries, id) <= 1
    requires forall c1, c2 :: 0 <= c1 < c2 < |d| ==> CountId(d[c1].entries, id) == 0 || CountId(d[c2].entries, id) == 0
    ensures SumCount(d, id) <= 1
    ensures SumCount(d, id) > 0 ==> exists c :: 0 <= c < |d| && CountId(d[c].entries, id) > 0
  {
    if d != [] {
      var init := d[..|d| - 1];
      var n := |d| - 1;
      forall c | 0 <= c < n ensures init[c] == d[c] {
      }
      SumAtMostOne(init, id);
      if CountId(d[n].entries, id) > 0 {
        forall c | 0 <= c < n ensures CountId(init[c].entries, id) == 0 {
        }
      }
    }
  }

  /** After de-duplication no portfolio is offered twice. */
  lemma DeduplicatedDistinctIds(d: RankData)
    requires DistinctKeys(d)
    ensures DistinctIds(Occurrences(Deduplicated(d)))
  {
    var dd := Deduplicated(d);
    var occ := Occurrences(dd);
    OccurrencesFrom(dd);
    forall a, b | 0 <= a < b < |occ| ensures Id(occ[a]) != Id(occ[b]) {
      var x := Id(occ[a]);
      DeduplicatedAtMostOnce(d, x);
      OccurrencesCountSlots(dd, x);
      SumAtMostOne(dd, x);
      if Id(occ[b]) == x {
        FilterTwoHits(occ, SlotHasId(x), a, b);
      }
    }
  }

  /** No row left by de-duplication has an empty portfolio id. */
  lemma DeduplicatedNoEmptyId(d: RankData)
    requires DistinctKeys(d)
    ensures var dd := Deduplicated(d);
      forall c, j :: 0 <= c < |dd| && 0 <= j < |dd[c].entries| ==> dd[c].entries[j].zjzh != ""
  {
    var dd := Deduplicated(d);
    DeduplicatedAtMostOnce(d, "");
    forall c, j | 0 <= c < |dd| && 0 <= j < |dd[c].entries| ensures dd[c].entries[j].zjzh != "" {
      if dd[c].entries[j].zjzh == "" {
        FilterHit(dd[c].entries, HasId(""), j);
      }
    }
  }

  /** One category of an already de-duplicated rank map comes back unchanged. */
  lemma DeduplicatedCategoryFixed(d: RankData, c: int)
    requires DistinctKeys(d) && 0 <= c < |d|
    ensures Deduplicated(Deduplicated(d))[c] == Deduplicated(d)[c]
  {
    var dd := Deduplicated(d);
    assert DistinctKeys(dd);
    DeduplicatedNoEmptyId(d);
    DeduplicatedDistinctIds(d);
    var es := dd[c].entries;
    CollectDistinct(Occurrences(dd), dd[c].key);
    KeyEntriesOccurrences(dd, c);
    assert Survivors(dd, dd[c].key) == es;
    assert SortedBy(es, RankKey);
    SortBySorted(es, RankKey);
    assert Renumber(es) == es;
    DeduplicatedAt(dd, c);
  }

  /** De-duplicating an already de-duplicated rank map changes nothing. */
  lemma DeduplicatedIdempotent(d: RankData)
    requires DistinctKeys(d)
    ensures Deduplicated(Deduplicated(d)) == Deduplicated(d)
  {
    var dd := Deduplicated(d);
    forall c | 0 <= c < |dd| ensures Deduplicated(dd)[c] == dd[c] {
      DeduplicatedCategoryFixed(d, c);
    }
  }

  // ---------------------------------------------------------------------
  // The procedure

  /** Every slot in the map names one of the input's categories. */
  lemma SlotKeysFromData(d: RankData)
    ensures forall id :: id in BuildMap(Occurrences(d)).slots ==>
      exists c :: 0 <= c < |d| && d[c].key == BuildMap(Occurrences(d)).slots[id].key
  {
    var occ := Occurrences(d);
    OccurrencesFrom(d);
    forall id | id in BuildMap(occ).slots
      ensures exists c :: 0 <= c < |d| && d[c].key == BuildMap(occ).slots[id].key
    {
      BuildMapWinner(occ, id);
    }
  }

  lemma OccurrencesStep(d: RankData, c: int)
    requires 0 <= c < |d|
    ensures Occurrences(d[..c + 1]) == Occurrences(d[..c]) + CategoryOccurrences(d[c].key, d[c].entries)
  {
    assert d[..c + 1][..c] == d[..c];
  }

  lemma CategoryOccurrencesStep(key: string, es: seq<Entry>, j: int)
    requires 0 <= j < |es|
    ensures CategoryOccurrences(key, es[..j + 1]) ==
      CategoryOccurrences(key, es[..j]) + (if es[j].zjzh != "" then [Slot(Priority(key), key, es[j])] else [])
  {
    assert es[..j + 1][..j] == es[..j];
  }

  lemma BuildMapStep(occ: seq<Slot>, s: Slot)
    ensures BuildMap(occ + [s]) == Record(BuildMap(occ), s)
  {
    assert (occ + [s])[..|occ|] == occ;
  }

  /** The inner loop of the first pass: offer the rows of one category to the map. */
  method RecordCategory(slots0: map<string, Slot>, order0: seq<string>, key: string, es: seq<Entry>, ghost before: seq<Slot>)
    returns (slots: map<string, Slot>, order: seq<string>)
    requires PortfolioMap(slots0, order0) == BuildMap(before)
    ensures PortfolioMap(slots, order) == BuildMap(before + CategoryOccurrences(key, es))
  {
    slots, order := slots0, order0;
    var priority := Priority(key);
    var j := 0;
    assert es[..0] == [] && before + [] == before;
    while j < |es|
      invariant 0 <= j <= |es|
      invariant PortfolioMap(slots, order) == BuildMap(before + CategoryOccurrences(key, es[..j]))
    {
      var item := es[j];
      var id := item.zjzh;
      CategoryOccurrencesStep(key, es, j);
      if id != "" {
        var slot := Slot(priority, key, item);
        assert before + CategoryOccurrences(key, es[..j + 1]) == (before + CategoryOccurrences(key, es[..j])) + [slot];
        BuildMapStep(before + CategoryOccurrences(key, es[..j]), slot);
        if id !in slots {
          slots := slots[id := slot];
          order := order + [id];
        } else if priority < slots[id].priority {
          slots := slots[id := slot];
        }
      } else {
        assert CategoryOccurrences(key, es[..j + 1]) == CategoryOccurrences(key, es[..j]);
      }
      j := j + 1;
    }
    assert es[..j] == es;
  }

  /** The first pass: `portfolio_map` over all categories in key order. */
  method BuildPortfolioMap(data: RankData) returns (slots: map<string, Slot>, order: seq<string>)
    ensures PortfolioMap(slots, order) == BuildMap(Occurrences(data))
  {
    slots, order := map[], [];
    var c := 0;
    while c < |data|
      invariant 0 <= c <= |data|
      invariant PortfolioMap(slots, order) == BuildMap(Occurrences(data[..c]))
    {
      slots, order := RecordCategory(slots, order, data[c].key, data[c].entries, Occurrences(data[..c]));
      OccurrencesStep(data, c);
      c := c + 1;
    }
    assert data[..c] == data;
  }

  /** The category keys of the first `c` categories. */
  ghost function KeysUpTo(d: RankData, c: nat): set<string>
    requires c <= |d|
  {
    set c' | 0 <= c' < c :: d[c'].key
  }

  /** Each bucket holds the rows the map assigns to its category among the first `n` recorded ids. */
  ghost predicate Filled(buckets: map<string, seq<Entry>>, slots: map<string, Slot>, order: seq<string>, n: nat)
    requires n <= |order| && forall id :: id in order ==> id in slots
  {
    forall k :: k in buckets ==> buckets[k] == Collect(slots, order[..n], k)
  }

  lemma FilledStep(buckets: map<string, seq<Entry>>, slots: map<string, Slot>, order: seq<string>, n: nat)
    requires n < |order| && forall id :: id in order ==> id in slots
    requires Filled(buckets, slots, order, n) && slots[order[n]].key in buckets
    ensures var s := slots[order[n]];
      Filled(buckets[s.key := buckets[s.key] + [s.entry]], slots, order, n + 1)
  {
    assert order[..n + 1][..n] == order[..n];
  }

  /** Every category of `data` has a list, and it holds exactly that category's survivors. */
  ghost predicate Distributed(data: RankData, buckets: map<string, seq<Entry>>) {
    forall c :: 0 <= c < |data| ==> data[c].key in buckets && buckets[data[c].key] == Survivors(data, data[c].key)
  }

  /** Sorting and renumbering a distributed list yields that category of `Deduplicated`. */
  lemma DistributedCategory(data: RankData, buckets: map<string, seq<Entry>>, c: int)
    requires Distributed(data, buckets) && 0 <= c < |data|
    ensures data[c].key in buckets
    ensures Category(data[c].key, Renumber(SortBy(buckets[data[c].key], RankKey))) == Deduplicated(data)[c]
  {
    DeduplicatedAt(data, c);
  }

  /** The second pass begins: every category of the input starts with no rows. */
  method InitBuckets(data: RankData) returns (buckets: map<string, seq<Entry>>)
    ensures buckets.Keys == KeysUpTo(data, |data|)
    ensures forall k :: k in buckets ==> buckets[k] == []
  {
    buckets := map[];
    var c := 0;
    while c < |data|
      invariant 0 <= c <= |data|
      invariant buckets.Keys == KeysUpTo(data, c)
      invariant forall k :: k in buckets ==> buckets[k] == []
    {
      assert KeysUpTo(data, c + 1) == KeysUpTo(data, c) + {data[c].key};
      buckets := buckets[data[c].key := []];
      c := c + 1;
    }
  }

  /** The second pass proper: each recorded row, in the map's insertion order, joins its category. */
  method Distribute(data: RankData, slots: map<string, Slot>, order: seq<string>, empty: map<string, seq<Entry>>)
    returns (buckets: map<string, seq<Entry>>)
    requires PortfolioMap(slots, order) == BuildMap(Occurrences(data))
    requires empty.Keys == KeysUpTo(data, |data|) && forall k :: k in empty ==> empty[k] == []
    ensures Distributed(data, buckets)
  {
    BuildMapWellFormed(Occurrences(data));
    SlotKeysFromData(data);
    buckets := empty;
    assert Filled(buckets, slots, order, 0);
    var n := 0;
    while n < |order|
      invariant 0 <= n <= |order|
      invariant buckets.Keys == KeysUpTo(data, |data|)
      invariant Filled(buckets, slots, order, n)
    {
      var slot := slots[order[n]];
      assert slot.key in KeysUpTo(data, |data|);
      FilledStep(buckets, slots, order, n);
      buckets := buckets[slot.key := buckets[slot.key] + [slot.entry]];
      n := n + 1;
    }
    assert order[..n] == order;
    forall c | 0 <= c < |data|
      ensures data[c].key in buckets && buckets[data[c].key] == Survivors(data, data[c].key)
    {
      assert data[c].key in KeysUpTo(data, |data|);
    }
  }

  /** `for i, item in enumerate(rank_data['data'], 1): item['rank'] = i`. */
  method RenumberInPlace(sorted: seq<Entry>) returns (es: seq<Entry>)
    ensures es == Renumber(sorted)
  {
    es := sorted;
    var i := 0;
    while i < |es|
      invariant 0 <= i <= |es| && |es| == |sorted|
      invariant forall k :: 0 <= k < i ==> es[k] == sorted[k].(rank := k + 1)
      invariant forall k :: i <= k < |es| ==> es[k] == sorted[k]
    {
      es := es[i := es[i].(rank := i + 1)];
      i := i + 1;
    }
  }

  /**
   * `deduplicate_rank_data`: fill the insertion-ordered portfolio map, hand
   * each recorded row to its category, then sort each category by previous
   * rank and renumber it.
   */
  method DeduplicateRankData(data: RankData) returns (result: RankData)
    ensures result == Deduplicated(data)
  {
    var slots, order := BuildPortfolioMap(data);
    var empty := InitBuckets(data);
    var buckets := Distribute(data, slots, order, empty);
    result := SortCategories(data, buckets);
  }

  /** The last pass: each category's list sorted by previous rank and renumbered, in the input's key order. */
  method SortCategories(data: RankData, buckets: map<string, seq<Entry>>) returns (result: RankData)
    requires Distributed(data, buckets)
    ensures result == Deduplicated(data)
  {
    ghost var dd := Deduplicated(data);
    result := [];
    var c := 0;
    while c < |data|
      invariant 0 <= c <= |data|
      invariant result == dd[..c]
    {
      DistributedCategory(data, buckets, c);
      var key := data[c].key;
      var sorted := SortBy(buckets[key], RankKey);
      var es := RenumberInPlace(sorted);
      assert dd[..c + 1] == dd[..c] + [Category(key, es)];
      result := result + [Category(key, es)];
      c := c + 1;
    }
    assert dd[..c] == dd;
  }
}
