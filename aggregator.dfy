/**
 * The sync's aggregator (`createAggregator`): it reads the scraper's staging
 * tables and reduces the glamour table to item usage counts and, per slot
 * pair, the ten most frequent B-slot partners of every A-slot item. The SQL
 * it sends is modelled as functions over a snapshot of the tables; the
 * database returns counts as decimal strings, which the code reads back with
 * `Number`.
 */
module Aggregator {
  import opened Common
  import opened Schema
  import Crawler

  datatype ExtractedItem = ExtractedItem(id: string, name: string, slotId: int)
  /** A usage entry as the aggregator emits it: it carries no slot id. */
  datatype AggregatedUsage = AggregatedUsage(itemId: string, usageCount: int)
  datatype AggregatedPair = AggregatedPair(slotPair: string, itemIdA: string, itemIdB: string, pairCount: int, rank: int)

  // ---------------------------------------------------------------------------
  // Counting and distinct values
  // ---------------------------------------------------------------------------

  /** How many times `x` occurs in `s`. */
  function Occurrences<T(==)>(s: seq<T>, x: T): nat
    decreases |s|
  {
    if s == [] then 0 else Occurrences(s[..|s| - 1], x) + (if s[|s| - 1] == x then 1 else 0)
  }

  lemma {:induction false} OccurrencesPositive<T>(s: seq<T>, x: T)
    ensures Occurrences(s, x) > 0 <==> x in s
    decreases |s|
  {
    if s != [] {
      OccurrencesPositive(s[..|s| - 1], x);
      assert s == s[..|s| - 1] + [s[|s| - 1]];
    }
  }

  predicate NoDuplicates<T(==)>(s: seq<T>) {
    forall i, j :: 0 <= i < j < |s| ==> s[i] != s[j]
  }

  /** The distinct values of `s`, in order of first appearance (what a GROUP BY groups). */
  function Distinct<T(==,!new)>(s: seq<T>): (d: seq<T>)
    ensures NoDuplicates(d)
    ensures forall x :: x in d <==> x in s
    decreases |s|
  {
    if s == [] then []
    else
      var d := Distinct(s[..|s| - 1]);
      assert s == s[..|s| - 1] + [s[|s| - 1]];
      if s[|s| - 1] in d then d else d + [s[|s| - 1]]
  }

  /** The occurrences in `s` of every value of `ids`, added up. */
  function SumOccurrences<T(==)>(s: seq<T>, ids: seq<T>): nat
    decreases |ids|
  {
    if ids == [] then 0 else SumOccurrences(s, ids[..|ids| - 1]) + Occurrences(s, ids[|ids| - 1])
  }

  lemma {:induction false} SumOccurrencesSnoc<T>(s: seq<T>, y: T, ids: seq<T>)
    ensures SumOccurrences(s + [y], ids) == SumOccurrences(s, ids) + Occurrences(ids, y)
    decreases |ids|
  {
    assert (s + [y])[..|s|] == s;
    if ids != [] {
      SumOccurrencesSnoc(s, y, ids[..|ids| - 1]);
    }
  }

  lemma {:induction false} OccursOnce<T>(ids: seq<T>, y: T)
    requires NoDuplicates(ids) && y in ids
    ensures Occurrences(ids, y) == 1
    decreases |ids|
  {
    var before := ids[..|ids| - 1];
    if ids[|ids| - 1] == y {
      assert y !in before;
      OccurrencesPositive(before, y);
    } else {
      assert y in before;
      OccursOnce(before, y);
    }
  }

  /** Counting every value of a list of distinct values that covers `s` counts every element of `s` once. */
  lemma {:induction false} SumOccurrencesCovers<T>(s: seq<T>, ids: seq<T>)
    requires NoDuplicates(ids)
    requires forall k :: 0 <= k < |s| ==> s[k] in ids
    ensures SumOccurrences(s, ids) == |s|
    decreases |s|
  {
    if s == [] {
      ZeroOccurrences(ids);
    } else {
      var before := s[..|s| - 1];
      SumOccurrencesCovers(before, ids);
      SumOccurrencesSnoc(before, s[|s| - 1], ids);
      OccursOnce(ids, s[|s| - 1]);
      assert before + [s[|s| - 1]] == s;
    }
  }

  lemma {:induction false} ZeroOccurrences<T>(ids: seq<T>)
    ensures SumOccurrences([], ids) == 0
    decreases |ids|
  {
    if ids != [] {
      ZeroOccurrences(ids[..|ids| - 1]);
    }
  }

  // ---------------------------------------------------------------------------
  // extractUniqueItems, aggregateUsage
  // ---------------------------------------------------------------------------

  /** `extractUniqueItems()`: the item cache's id, name and slot, row for row. */
  function ExtractUniqueItems(cache: seq<ItemCacheRow>): (items: seq<ExtractedItem>)
    ensures |items| == |cache|
  {
    seq(|cache|, k requires 0 <= k < |cache| => ExtractedItem(cache[k].id, cache[k].name, cache[k].slotId))
  }

  /** The item cache is keyed by id, so the extracted items are unique without any deduplication. */
  lemma ExtractedItemsUnique(cache: seq<ItemCacheRow>)
    requires forall i, j :: 0 <= i < j < |cache| ==> cache[i].id != cache[j].id
    ensures var items := ExtractUniqueItems(cache);
      && (forall i, j :: 0 <= i < j < |items| ==> items[i].id != items[j].id)
      && forall k :: 0 <= k < |cache| ==>
           items[k].id == cache[k].id && items[k].name == cache[k].name && items[k].slotId == cache[k].slotId
  {
  }

  function ItemIds(rows: seq<GlamourRow>): (ids: seq<string>)
    ensures |ids| == |rows| && forall k :: 0 <= k < |rows| ==> ids[k] == rows[k].itemId
  {
    seq(|rows|, k requires 0 <= k < |rows| => rows[k].itemId)
  }

  /** A row of the usage query as the driver returns it: `count()` comes back as a decimal string. */
  datatype UsageQueryRow = UsageQueryRow(itemId: string, usageCount: string)

  /** `SELECT item_id, count() FROM characters_glamour GROUP BY item_id`, one row per group in `groups`. */
  function UsageRows(items: seq<string>, groups: seq<string>): (q: seq<UsageQueryRow>)
    ensures |q| == |groups| && forall k :: 0 <= k < |q| ==> IsDigits(q[k].usageCount)
  {
    seq(|groups|, k requires 0 <= k < |groups| => UsageQueryRow(groups[k], NatToString(Occurrences(items, groups[k]))))
  }

  function UsageQuery(rows: seq<GlamourRow>): seq<UsageQueryRow> {
    UsageRows(ItemIds(rows), Distinct(ItemIds(rows)))
  }

  /** `result.map(row => ({ itemId, usageCount: Number(row.usageCount) }))`. */
  function ToUsage(q: seq<UsageQueryRow>): (u: seq<AggregatedUsage>)
    requires forall k :: 0 <= k < |q| ==> IsDigits(q[k].usageCount)
    ensures |u| == |q|
  {
    seq(|q|, k requires 0 <= k < |q| && IsDigits(q[k].usageCount) => AggregatedUsage(q[k].itemId, ParseDigits(q[k].usageCount)))
  }

  /** `aggregateUsage()`. */
  function AggregateUsage(rows: seq<GlamourRow>): seq<AggregatedUsage> {
    ToUsage(UsageQuery(rows))
  }

  /** The usage counts of a list of entries, added up. */
  function TotalUsage(u: seq<AggregatedUsage>): int
    decreases |u|
  {
    if u == [] then 0 else TotalUsage(u[..|u| - 1]) + u[|u| - 1].usageCount
  }

  /** Each group with its number of rows, as numbers. */
  function Counted(items: seq<string>, groups: seq<string>): (u: seq<AggregatedUsage>)
    ensures |u| == |groups|
  {
    seq(|groups|, k requires 0 <= k < |groups| => AggregatedUsage(groups[k], Occurrences(items, groups[k])))
  }

  /** Reading the driver's strings back with `Number` gives the counts themselves. */
  lemma ToUsageOfRows(items: seq<string>, groups: seq<string>)
    ensures ToUsage(UsageRows(items, groups)) == Counted(items, groups)
  {
    var u := ToUsage(UsageRows(items, groups));
    forall k | 0 <= k < |groups|
      ensures u[k] == Counted(items, groups)[k]
    {
      ParseNatToString(Occurrences(items, groups[k]));
    }
  }

  lemma {:induction false} TotalCounted(items: seq<string>, groups: seq<string>)
    ensures TotalUsage(Counted(items, groups)) == SumOccurrences(items, groups)
    decreases |groups|
  {
    if groups != [] {
      var before := groups[..|groups| - 1];
      TotalCounted(items, before);
      assert Counted(items, groups)[..|groups| - 1] == Counted(items, before);
    }
  }

  /**
   * `aggregateUsage()` returns one entry per distinct item of the glamour
   * table, each with the number of rows that wear it, and so the counts add
   * up to the number of rows.
   */
  lemma AggregateUsageCounts(rows: seq<GlamourRow>)
    ensures var u := AggregateUsage(rows);
      && (forall i, j :: 0 <= i < j < |u| ==> u[i].itemId != u[j].itemId)
      && (forall k :: 0 <= k < |rows| ==> exists i :: 0 <= i < |u| && u[i].itemId == rows[k].itemId)
      && (forall i :: 0 <= i < |u| ==> u[i].usageCount == Occurrences(ItemIds(rows), u[i].itemId) >= 1)
      && TotalUsage(u) == |rows|
  {
    var items := ItemIds(rows);
    var groups := Distinct(items);
    ToUsageOfRows(items, groups);
    TotalCounted(items, groups);
    SumOccurrencesCovers(items, groups);
    var u := AggregateUsage(rows);
    forall i | 0 <= i < |u|
      ensures u[i].usageCount >= 1
    {
      OccurrencesPositive(items, groups[i]);
    }
    forall k | 0 <= k < |rows|
      ensures exists i :: 0 <= i < |u| && u[i].itemId == rows[k].itemId
    {
      assert items[k] in groups;
      var i :| 0 <= i < |groups| && groups[i] == items[k];
      assert u[i].itemId == rows[k].itemId;
    }
  }

  // ---------------------------------------------------------------------------
  // aggregatePairs: the join and the group-by
  // ---------------------------------------------------------------------------

  /** An (item on slot A, item on slot B) pair of the join. */
  datatype ItemPair = ItemPair(a: string, b: string)

  /** The join rows contributed by outer row `r`: one per row of `inner` for the same character on slot B, when `r` is on slot A. */
  function Partners(r: GlamourRow, inner: seq<GlamourRow>, slotA: int, slotB: int): seq<ItemPair>
    decreases |inner|
  {
    if inner == [] then []
    else
      var b := inner[|inner| - 1];
      Partners(r, inner[..|inner| - 1], slotA, slotB)
        + (if r.slotId == slotA && b.slotId == slotB && r.characterId == b.characterId then [ItemPair(r.itemId, b.itemId)] else [])
  }

  /** `characters_glamour a INNER JOIN characters_glamour b ON a.character_id = b.character_id WHERE a.slot_id = A AND b.slot_id = B`. */
  function Join(outer: seq<GlamourRow>, inner: seq<GlamourRow>, slotA: int, slotB: int): seq<ItemPair>
    decreases |outer|
  {
    if outer == [] then [] else Join(outer[..|outer| - 1], inner, slotA, slotB) + Partners(outer[|outer| - 1], inner, slotA, slotB)
  }

  /** Some row of `inner` puts `y` on slot B for the character of `r`. */
  predicate HasPartner(r: GlamourRow, inner: seq<GlamourRow>, slotB: int, y: string) {
    exists j :: 0 <= j < |inner| && inner[j].slotId == slotB && inner[j].characterId == r.characterId && inner[j].itemId == y
  }

  /** Some character wears `x` on slot A and `y` on slot B. */
  predicate Worn(outer: seq<GlamourRow>, inner: seq<GlamourRow>, slotA: int, slotB: int, x: string, y: string) {
    exists i :: 0 <= i < |outer| && outer[i].slotId == slotA && outer[i].itemId == x && HasPartner(outer[i], inner, slotB, y)
  }

  lemma {:induction false} PartnersMembers(r: GlamourRow, inner: seq<GlamourRow>, slotA: int, slotB: int, y: string)
    ensures ItemPair(r.itemId, y) in Partners(r, inner, slotA, slotB) <==> r.slotId == slotA && HasPartner(r, inner, slotB, y)
    ensures forall p :: p in Partners(r, inner, slotA, slotB) ==> p.a == r.itemId
    decreases |inner|
  {
    if inner != [] {
      var before := inner[..|inner| - 1];
      PartnersMembers(r, before, slotA, slotB, y);
      assert forall j :: 0 <= j < |before| ==> before[j] == inner[j];
    }
  }

  lemma WornSnoc(outer: seq<GlamourRow>, inner: seq<GlamourRow>, slotA: int, slotB: int, x: string, y: string)
    requires outer != []
    ensures var r := outer[|outer| - 1];
      (Worn(outer, inner, slotA, slotB, x, y) <==>
         Worn(outer[..|outer| - 1], inner, slotA, slotB, x, y) || (r.slotId == slotA && r.itemId == x && HasPartner(r, inner, slotB, y)))
  {
    var before := outer[..|outer| - 1];
    if Worn(outer, inner, slotA, slotB, x, y) {
      var i :| 0 <= i < |outer| && outer[i].slotId == slotA && outer[i].itemId == x && HasPartner(outer[i], inner, slotB, y);
      if i < |before| {
        assert before[i] == outer[i];
      }
    }
    if Worn(before, inner, slotA, slotB, x, y) {
      var i :| 0 <= i < |before| && before[i].slotId == slotA && before[i].itemId == x && HasPartner(before[i], inner, slotB, y);
      assert outer[i] == before[i];
    }
  }

  /** A pair is in the join exactly when one character wears its A item on slot A and its B item on slot B. */
  lemma {:induction false} JoinMembers(outer: seq<GlamourRow>, inner: seq<GlamourRow>, slotA: int, slotB: int, x: string, y: string)
    ensures ItemPair(x, y) in Join(outer, inner, slotA, slotB) <==> Worn(outer, inner, slotA, slotB, x, y)
    decreases |outer|
  {
    if outer != [] {
      var r := outer[|outer| - 1];
      JoinMembers(outer[..|outer| - 1], inner, slotA, slotB, x, y);
      PartnersMembers(r, inner, slotA, slotB, y);
      WornSnoc(outer, inner, slotA, slotB, x, y);
    }
  }

  /** A row of the `pairs` CTE: a joined pair and `COUNT(*)` of its join rows. */
  datatype PairCountRow = PairCountRow(itemIdA: string, itemIdB: string, pairCount: nat)

  /** `GROUP BY a.item_id, b.item_id` with `COUNT(*)`, one row per group in `groups`. */
  function CountPairs(joined: seq<ItemPair>, groups: seq<ItemPair>): (counts: seq<PairCountRow>)
    ensures |counts| == |groups|
  {
    seq(|groups|, k requires 0 <= k < |groups| => PairCountRow(groups[k].a, groups[k].b, Occurrences(joined, groups[k])))
  }

  /** The partition of one A item, in order: the rows `ROW_NUMBER() OVER (PARTITION BY item_id_a ...)` numbers together. */
  function Partition(counts: seq<PairCountRow>, a: string): (part: seq<PairCountRow>)
    ensures forall r :: r in part <==> r in counts && r.itemIdA == a
    decreases |counts|
  {
    if counts == [] then []
    else
      var rest := Partition(counts[..|counts| - 1], a);
      var last := counts[|counts| - 1];
      assert counts == counts[..|counts| - 1] + [last];
      if last.itemIdA == a then rest + [last] else rest
  }

  // ---------------------------------------------------------------------------
  // aggregatePairs: the ranking and the order
  // ---------------------------------------------------------------------------

  predicate ByCountDescending(s: seq<PairCountRow>) {
    forall i, j :: 0 <= i < j < |s| ==> s[i].pairCount >= s[j].pairCount
  }

  predicate AdjacentByCount(s: seq<PairCountRow>) {
    forall k :: 0 <= k < |s| - 1 ==> s[k].pairCount >= s[k + 1].pairCount
  }

  lemma {:induction false} AdjacentIsDescending(s: seq<PairCountRow>)
    requires AdjacentByCount(s)
    ensures ByCountDescending(s)
    decreases |s|
  {
    if s != [] {
      var tail := s[1..];
      AdjacentIsDescending(tail);
      assert forall j :: 0 < j < |s| ==> s[j] == tail[j - 1];
      assert forall j :: 1 <= j < |tail| ==> tail[0].pairCount >= tail[j].pairCount;
    }
  }

  function InsertByCount(r: PairCountRow, s: seq<PairCountRow>): (t: seq<PairCountRow>)
    requires AdjacentByCount(s)
    ensures AdjacentByCount(t)
    ensures multiset(t) == multiset(s) + multiset{r}
    ensures |t| == |s| + 1 && (t[0] == r || (s != [] && t[0] == s[0]))
    decreases |s|
  {
    if s == [] || r.pairCount >= s[0].pairCount then [r] + s
    else
      assert s == [s[0]] + s[1..];
      [s[0]] + InsertByCount(r, s[1..])
  }

  function SortByCountAdjacent(s: seq<PairCountRow>): (t: seq<PairCountRow>)
    ensures AdjacentByCount(t)
    ensures multiset(t) == multiset(s) && |t| == |s|
    decreases |s|
  {
    if s == [] then []
    else
      assert s == [s[0]] + s[1..];
      InsertByCount(s[0], SortByCountAdjacent(s[1..]))
  }

  /** `ORDER BY pair_count DESC`. */
  function SortByCount(s: seq<PairCountRow>): (t: seq<PairCountRow>)
    ensures ByCountDescending(t)
    ensures multiset(t) == multiset(s) && |t| == |s|
  {
    var t := SortByCountAdjacent(s);
    AdjacentIsDescending(t);
    t
  }

  function Min(a: int, b: int): int {
    if a <= b then a else b
  }

  /** The ranked rows of one partition that `rank <= 10` keeps, tagged with the slot pair. */
  function Ranked(slotPair: string, part: seq<PairCountRow>): (ranked: seq<AggregatedPair>)
    ensures |ranked| == Min(10, |part|)
  {
    var sorted := SortByCount(part);
    seq(Min(10, |sorted|), i requires 0 <= i < Min(10, |sorted|) =>
      AggregatedPair(slotPair, sorted[i].itemIdA, sorted[i].itemIdB, sorted[i].pairCount, i + 1))
  }

  /** Code-point order on strings: what `ORDER BY item_id_a` compares. */
  predicate StrLe(x: string, y: string)
    decreases |x|
  {
    x == [] || (y != [] && (x[0] < y[0] || (x[0] == y[0] && StrLe(x[1..], y[1..]))))
  }

  lemma {:induction false} StrLeTotal(x: string, y: string)
    ensures StrLe(x, y) || StrLe(y, x)
    decreases |x|
  {
    if x != [] && y != [] && x[0] == y[0] {
      StrLeTotal(x[1..], y[1..]);
    }
  }

  predicate Ascending(s: seq<string>) {
    forall k :: 0 <= k < |s| - 1 ==> StrLe(s[k], s[k + 1])
  }

  lemma NoDuplicatesCons(x: string, s: seq<string>)
    ensures NoDuplicates([x] + s) <==> x !in s && NoDuplicates(s)
  {
    var t := [x] + s;
    assert forall k :: 0 <= k < |s| ==> t[k + 1] == s[k];
    if x in s {
      var k :| 0 <= k < |s| && s[k] == x;
      assert t[0] == t[k + 1];
    }
  }

  function InsertString(x: string, s: seq<string>): (t: seq<string>)
    requires Ascending(s) && NoDuplicates(s) && x !in s
    ensures Ascending(t) && NoDuplicates(t)
    ensures forall y :: y in t <==> y == x || y in s
    ensures |t| == |s| + 1 && (t[0] == x || (s != [] && t[0] == s[0]))
    decreases |s|
  {
    if s == [] || StrLe(x, s[0]) then
      NoDuplicatesCons(x, s);
      [x] + s
    else
      StrLeTotal(x, s[0]);
      assert s == [s[0]] + s[1..];
      NoDuplicatesCons(s[0], s[1..]);
      var t := InsertString(x, s[1..]);
      NoDuplicatesCons(s[0], t);
      [s[0]] + t
  }

  /** `ORDER BY item_id_a` on the distinct A items. */
  function SortStrings(s: seq<string>): (t: seq<string>)
    requires NoDuplicates(s)
    ensures Ascending(t) && NoDuplicates(t)
    ensures forall y :: y in t <==> y in s
    decreases |s|
  {
    if s == [] then []
    else
      assert s == [s[0]] + s[1..];
      InsertString(s[0], SortStrings(s[1..]))
  }

  /** The partitions of the A items `heads`, one after the other. */
  function RankAll(slotPair: string, counts: seq<PairCountRow>, heads: seq<string>): seq<AggregatedPair>
    decreases |heads|
  {
    if heads == [] then [] else RankAll(slotPair, counts, heads[..|heads| - 1]) + Ranked(slotPair, Partition(counts, heads[|heads| - 1]))
  }

  function ItemsA(counts: seq<PairCountRow>): (heads: seq<string>)
    ensures |heads| == |counts| && forall k :: 0 <= k < |counts| ==> heads[k] == counts[k].itemIdA
  {
    seq(|counts|, k requires 0 <= k < |counts| => counts[k].itemIdA)
  }

  /** The pair counts of one slot pair's join. */
  function PairCounts(rows: seq<GlamourRow>, p: SlotPair): seq<PairCountRow> {
    var joined := Join(rows, rows, SlotA(p), SlotB(p));
    CountPairs(joined, Distinct(joined))
  }

  /** The rows `aggregatePairForSlot` returns, with counts and ranks as numbers. */
  function PairQuery(rows: seq<GlamourRow>, p: SlotPair): seq<AggregatedPair> {
    var counts := PairCounts(rows, p);
    RankAll(SlotPairName(p), counts, SortStrings(Distinct(ItemsA(counts))))
  }

  /** A row of the pair query as the driver returns it: `pair_count` and `rank` come back as decimal strings. */
  datatype PairQueryRow = PairQueryRow(itemIdA: string, itemIdB: string, pairCount: string, rank: string)

  function Rendered(q: seq<AggregatedPair>): (raw: seq<PairQueryRow>)
    requires forall k :: 0 <= k < |q| ==> q[k].pairCount >= 0 && q[k].rank >= 0
    ensures |raw| == |q| && forall k :: 0 <= k < |raw| ==> IsDigits(raw[k].pairCount) && IsDigits(raw[k].rank)
  {
    seq(|q|, k requires 0 <= k < |q| && q[k].pairCount >= 0 && q[k].rank >= 0 =>
      PairQueryRow(q[k].itemIdA, q[k].itemIdB, NatToString(q[k].pairCount), NatToString(q[k].rank)))
  }

  /** The `map` of `aggregatePairForSlot`: tag each row with the slot pair and read the numbers with `Number`. */
  function ToPairs(slotPair: string, raw: seq<PairQueryRow>): (pairs: seq<AggregatedPair>)
    requires forall k :: 0 <= k < |raw| ==> IsDigits(raw[k].pairCount) && IsDigits(raw[k].rank)
    ensures |pairs| == |raw|
  {
    seq(|raw|, k requires 0 <= k < |raw| && IsDigits(raw[k].pairCount) && IsDigits(raw[k].rank) =>
      AggregatedPair(slotPair, raw[k].itemIdA, raw[k].itemIdB, ParseDigits(raw[k].pairCount), ParseDigits(raw[k].rank)))
  }

  /** The rows of the output that belong to one A item, in order. */
  function Group(out: seq<AggregatedPair>, a: string): seq<AggregatedPair>
    decreases |out|
  {
    if out == [] then []
    else
      var last := out[|out| - 1];
      Group(out[..|out| - 1], a) + (if last.itemIdA == a then [last] else [])
  }

  /** The group of `a` holds exactly the output rows for `a`. */
  lemma {:induction false} GroupMembers(out: seq<AggregatedPair>, a: string)
    ensures forall r :: r in Group(out, a) <==> r in out && r.itemIdA == a
    decreases |out|
  {
    if out != [] {
      var before := out[..|out| - 1];
      GroupMembers(before, a);
      assert out == before + [out[|out| - 1]];
    }
  }

  /** Every output row carries the slot pair, a rank in 1..10, and the count of a pair the `pairs` CTE holds. */
  predicate RowsFrom(out: seq<AggregatedPair>, slotPair: string, counts: seq<PairCountRow>) {
    forall k :: 0 <= k < |out| ==>
      out[k].slotPair == slotPair && 1 <= out[k].rank <= 10 && out[k].pairCount >= 0
      && PairCountRow(out[k].itemIdA, out[k].itemIdB, out[k].pairCount) in counts
  }

  /** `ORDER BY item_id_a, rank`, with ranks numbered from 1 within each A item by descending count. */
  predicate RankedInOrder(out: seq<AggregatedPair>) {
    (|out| > 0 ==> out[0].rank == 1)
    && forall k :: 0 <= k < |out| - 1 ==>
      && StrLe(out[k].itemIdA, out[k + 1].itemIdA)
      && (out[k].itemIdA == out[k + 1].itemIdA ==> out[k + 1].rank == out[k].rank + 1 && out[k].pairCount >= out[k + 1].pairCount)
      && (out[k].itemIdA != out[k + 1].itemIdA ==> out[k + 1].rank == 1)
  }

  lemma {:induction false} StrLeReflexive(x: string)
    ensures StrLe(x, x)
    decreases |x|
  {
    if x != [] {
      StrLeReflexive(x[1..]);
    }
  }

  /** One partition after ranking: its rows, sorted by count, numbered 1, 2, … and cut at 10. */
  lemma RankedShape(slotPair: string, part: seq<PairCountRow>, a: string)
    requires forall r :: r in part ==> r.itemIdA == a
    ensures var ranked := Ranked(slotPair, part);
      && (forall i :: 0 <= i < |ranked| ==>
            ranked[i].slotPair == slotPair && ranked[i].itemIdA == a && ranked[i].rank == i + 1 && ranked[i].pairCount >= 0
            && PairCountRow(a, ranked[i].itemIdB, ranked[i].pairCount) in part)
      && (forall i, j :: 0 <= i < j < |ranked| ==> ranked[i].pairCount >= ranked[j].pairCount)
  {
    var sorted := SortByCount(part);
    forall i | 0 <= i < |sorted|
      ensures sorted[i] in part
    {
      assert sorted[i] in multiset(sorted);
    }
  }

  lemma RankedInOrderOfRanked(slotPair: string, part: seq<PairCountRow>, a: string)
    requires forall r :: r in part ==> r.itemIdA == a
    ensures RankedInOrder(Ranked(slotPair, part))
  {
    RankedShape(slotPair, part, a);
    StrLeReflexive(a);
  }

  /** Two ordered runs stay ordered when the second starts a new, larger A item at rank 1. */
  lemma RankedInOrderAppend(prev: seq<AggregatedPair>, next: seq<AggregatedPair>)
    requires RankedInOrder(prev) && RankedInOrder(next)
    requires prev != [] && next != [] ==>
      && StrLe(prev[|prev| - 1].itemIdA, next[0].itemIdA) && prev[|prev| - 1].itemIdA != next[0].itemIdA
    ensures RankedInOrder(prev + next)
  {
    var out := prev + next;
    assert forall k :: 0 <= k < |prev| ==> out[k] == prev[k];
    assert forall k :: |prev| <= k < |out| ==> out[k] == next[k - |prev|];
  }

  lemma AscendingPrefix(heads: seq<string>, n: nat)
    requires Ascending(heads) && NoDuplicates(heads) && n <= |heads|
    ensures Ascending(heads[..n]) && NoDuplicates(heads[..n])
  {
    assert forall k :: 0 <= k < n ==> heads[..n][k] == heads[k];
  }

  lemma RowsFromAppend(prev: seq<AggregatedPair>, next: seq<AggregatedPair>, slotPair: string, counts: seq<PairCountRow>)
    requires RowsFrom(prev, slotPair, counts) && RowsFrom(next, slotPair, counts)
    ensures RowsFrom(prev + next, slotPair, counts)
  {
    var out := prev + next;
    assert forall k :: 0 <= k < |prev| ==> out[k] == prev[k];
    assert forall k :: |prev| <= k < |out| ==> out[k] == next[k - |prev|];
  }

  /** The ranked partition of one A item: ordered rows of the `pairs` CTE, all for that item, present when the partition is. */
  lemma RankedPartition(slotPair: string, counts: seq<PairCountRow>, h: string)
    ensures var ranked := Ranked(slotPair, Partition(counts, h));
      && RowsFrom(ranked, slotPair, counts) && RankedInOrder(ranked)
      && (ranked == [] <==> Partition(counts, h) == [])
      && forall k :: 0 <= k < |ranked| ==> ranked[k].itemIdA == h
  {
    var part := Partition(counts, h);
    RankedShape(slotPair, part, h);
    RankedInOrderOfRanked(slotPair, part, h);
  }

  /** Ranking the partitions of ascending, distinct A items one after the other gives rows in `ORDER BY item_id_a, rank` order. */
  lemma {:induction false} RankAllShape(slotPair: string, counts: seq<PairCountRow>, heads: seq<string>)
    requires Ascending(heads) && NoDuplicates(heads)
    requires forall h :: h in heads ==> Partition(counts, h) != []
    ensures var out := RankAll(slotPair, counts, heads);
      && RowsFrom(out, slotPair, counts) && RankedInOrder(out)
      && (out == [] <==> heads == [])
      && (out != [] ==> out[|out| - 1].itemIdA == heads[|heads| - 1])
    decreases |heads|
  {
    if heads != [] {
      var n := |heads| - 1;
      var h := heads[n];
      AscendingPrefix(heads, n);
      assert forall x :: x in heads[..n] ==> x in heads;
      RankAllShape(slotPair, counts, heads[..n]);
      var prev := RankAll(slotPair, counts, heads[..n]);
      var next := Ranked(slotPair, Partition(counts, h));
      RankedPartition(slotPair, counts, h);
      if prev != [] {
        assert heads[..n][n - 1] == heads[n - 1];
        assert heads[n - 1] != h;
      }
      RankedInOrderAppend(prev, next);
      RowsFromAppend(prev, next, slotPair, counts);
      assert (prev + next)[|prev + next| - 1] == next[|next| - 1];
    }
  }

  lemma {:induction false} GroupAppend(x: seq<AggregatedPair>, y: seq<AggregatedPair>, a: string)
    ensures Group(x + y, a) == Group(x, a) + Group(y, a)
    decreases |y|
  {
    if y == [] {
      assert x + y == x;
    } else {
      var before := y[..|y| - 1];
      var last := y[|y| - 1];
      assert (x + y)[..|x + y| - 1] == x + before;
      assert (x + y)[|x + y| - 1] == last;
      GroupAppend(x, before, a);
    }
  }

  lemma {:induction false} GroupUniform(out: seq<AggregatedPair>, a: string, b: string)
    requires forall k :: 0 <= k < |out| ==> out[k].itemIdA == b
    ensures Group(out, a) == if a == b then out else []
    decreases |out|
  {
    if out != [] {
      var before := out[..|out| - 1];
      GroupUniform(before, a, b);
      assert out == before + [out[|out| - 1]];
    }
  }

  /** Every ranked row of the partition of `h` is for `h`. */
  lemma RankedOfItem(slotPair: string, counts: seq<PairCountRow>, h: string)
    ensures forall k :: 0 <= k < |Ranked(slotPair, Partition(counts, h))| ==> Ranked(slotPair, Partition(counts, h))[k].itemIdA == h
  {
    RankedShape(slotPair, Partition(counts, h), h);
  }

  /** The last element of a list without duplicates is not among the others, which have none either. */
  lemma NoDuplicatesInit<T>(s: seq<T>)
    requires s != [] && NoDuplicates(s)
    ensures NoDuplicates(s[..|s| - 1]) && s[|s| - 1] !in s[..|s| - 1]
  {
    var init := s[..|s| - 1];
    forall i | 0 <= i < |init|
      ensures init[i] != s[|s| - 1]
    {
      assert init[i] == s[i];
    }
    forall i, j | 0 <= i < j < |init|
      ensures init[i] != init[j]
    {
      assert init[i] == s[i] && init[j] == s[j];
    }
  }

  /** The rows of one A item are exactly the ranked top of its partition. */
  lemma {:induction false} GroupOfRankAll(slotPair: string, counts: seq<PairCountRow>, heads: seq<string>, a: string)
    requires NoDuplicates(heads)
    ensures Group(RankAll(slotPair, counts, heads), a) == if a in heads then Ranked(slotPair, Partition(counts, a)) else []
    decreases |heads|
  {
    if heads != [] {
      var n := |heads| - 1;
      var h := heads[n];
      var init := heads[..n];
      var prev := RankAll(slotPair, counts, init);
      var ranked := Ranked(slotPair, Partition(counts, h));
      NoDuplicatesInit(heads);
      assert Group(prev, a) == if a in init then Ranked(slotPair, Partition(counts, a)) else [] by {
        GroupOfRankAll(slotPair, counts, init, a);
      }
      assert Group(ranked, a) == if a == h then ranked else [] by {
        RankedOfItem(slotPair, counts, h);
        GroupUniform(ranked, a, h);
      }
      assert Group(RankAll(slotPair, counts, heads), a) == Group(prev, a) + Group(ranked, a) by {
        assert RankAll(slotPair, counts, heads) == prev + ranked;
        GroupAppend(prev, ranked, a);
      }
      InitLast(heads, a);
    }
  }

  /** The `pairs` CTE: a row holds exactly when its pair is in the join, with the number of join rows of that pair. */
  lemma PairCountsMembers(joined: seq<ItemPair>, x: string, y: string, c: nat)
    ensures PairCountRow(x, y, c) in CountPairs(joined, Distinct(joined))
        <==> ItemPair(x, y) in joined && c == Occurrences(joined, ItemPair(x, y))
  {
    var groups := Distinct(joined);
    var counts := CountPairs(joined, groups);
    if ItemPair(x, y) in joined && c == Occurrences(joined, ItemPair(x, y)) {
      var k :| 0 <= k < |groups| && groups[k] == ItemPair(x, y);
      assert counts[k] == PairCountRow(x, y, c);
    }
  }

  /** Every A item of the `pairs` CTE has a non-empty partition. */
  lemma HeadsHavePartitions(counts: seq<PairCountRow>)
    ensures forall h :: h in SortStrings(Distinct(ItemsA(counts))) ==> Partition(counts, h) != []
  {
    forall h | h in SortStrings(Distinct(ItemsA(counts)))
      ensures Partition(counts, h) != []
    {
      var k :| 0 <= k < |counts| && ItemsA(counts)[k] == h;
      assert counts[k] in Partition(counts, h);
    }
  }

  /**
   * What `aggregatePairForSlot` returns for one slot pair: every row is a pair
   * some character wears on the two slots, with its number of such
   * characters' join rows and a rank in 1..10, and the rows come ordered by A
   * item and then rank, ranks counting up from 1 by descending count.
   */
  lemma PairQueryRows(rows: seq<GlamourRow>, p: SlotPair)
    ensures var out := PairQuery(rows, p);
      var joined := Join(rows, rows, SlotA(p), SlotB(p));
      && RankedInOrder(out)
      && forall k :: 0 <= k < |out| ==>
        && out[k].slotPair == SlotPairName(p) && 1 <= out[k].rank <= 10
        && out[k].pairCount == Occurrences(joined, ItemPair(out[k].itemIdA, out[k].itemIdB)) >= 1
        && Worn(rows, rows, SlotA(p), SlotB(p), out[k].itemIdA, out[k].itemIdB)
  {
    var joined := Join(rows, rows, SlotA(p), SlotB(p));
    var counts := PairCounts(rows, p);
    var heads := SortStrings(Distinct(ItemsA(counts)));
    HeadsHavePartitions(counts);
    RankAllShape(SlotPairName(p), counts, heads);
    var out := PairQuery(rows, p);
    forall k | 0 <= k < |out|
      ensures out[k].pairCount == Occurrences(joined, ItemPair(out[k].itemIdA, out[k].itemIdB)) >= 1
      ensures Worn(rows, rows, SlotA(p), SlotB(p), out[k].itemIdA, out[k].itemIdB)
    {
      PairCountsMembers(joined, out[k].itemIdA, out[k].itemIdB, out[k].pairCount);
      OccurrencesPositive(joined, ItemPair(out[k].itemIdA, out[k].itemIdB));
      JoinMembers(rows, rows, SlotA(p), SlotB(p), out[k].itemIdA, out[k].itemIdB);
    }
  }

  /** A row of a partition is ranked, or the ranked rows are ten that count at least as much. */
  lemma RankedKeepsTopTen(slotPair: string, part: seq<PairCountRow>, row: PairCountRow)
    requires row in part
    ensures var ranked := Ranked(slotPair, part);
      || (exists r :: r in ranked && r.itemIdA == row.itemIdA && r.itemIdB == row.itemIdB && r.pairCount == row.pairCount)
      || (|ranked| == 10 && forall r :: r in ranked ==> r.pairCount >= row.pairCount)
  {
    var ranked := Ranked(slotPair, part);
    var sorted := SortByCount(part);
    assert row in multiset(sorted);
    var j :| 0 <= j < |sorted| && sorted[j] == row;
    if j < 10 {
      assert ranked[j] in ranked;
    } else {
      forall r | r in ranked
        ensures r.pairCount >= row.pairCount
      {
        var i :| 0 <= i < |ranked| && ranked[i] == r;
      }
    }
  }

  /** The A items of the `pairs` CTE, sorted, are exactly the A items of its rows. */
  lemma HeadOfRow(counts: seq<PairCountRow>, row: PairCountRow)
    requires row in counts
    ensures row.itemIdA in SortStrings(Distinct(ItemsA(counts)))
  {
    var k :| 0 <= k < |counts| && counts[k] == row;
    assert ItemsA(counts)[k] == row.itemIdA;
  }

  /**
   * `rank <= 10` drops a worn pair only when its A item already has ten rows,
   * none with a smaller count.
   */
  lemma PairQueryTopTen(rows: seq<GlamourRow>, p: SlotPair, x: string, y: string)
    requires Worn(rows, rows, SlotA(p), SlotB(p), x, y)
    ensures var out := PairQuery(rows, p);
      var c := Occurrences(Join(rows, rows, SlotA(p), SlotB(p)), ItemPair(x, y));
      || (exists r :: r in out && r.itemIdA == x && r.itemIdB == y && r.pairCount == c)
      || (|Group(out, x)| == 10 && forall r :: r in Group(out, x) ==> r.pairCount >= c)
  {
    var joined := Join(rows, rows, SlotA(p), SlotB(p));
    var c := Occurrences(joined, ItemPair(x, y));
    var counts := PairCounts(rows, p);
    var heads := SortStrings(Distinct(ItemsA(counts)));
    var row := PairCountRow(x, y, c);
    JoinMembers(rows, rows, SlotA(p), SlotB(p), x, y);
    PairCountsMembers(joined, x, y, c);
    HeadOfRow(counts, row);
    GroupOfRankAll(SlotPairName(p), counts, heads, x);
    RankedKeepsTopTen(SlotPairName(p), Partition(counts, x), row);
    GroupMembers(PairQuery(rows, p), x);
  }

  /** Tagging the driver's rows with the slot pair and reading them back with `Number` recovers the query's rows. */
  lemma ToPairsOfRendered(slotPair: string, q: seq<AggregatedPair>)
    requires forall k :: 0 <= k < |q| ==> q[k].slotPair == slotPair && q[k].pairCount >= 0 && q[k].rank >= 0
    ensures ToPairs(slotPair, Rendered(q)) == q
  {
    var back := ToPairs(slotPair, Rendered(q));
    forall k | 0 <= k < |q|
      ensures back[k] == q[k]
    {
      ParseNatToString(q[k].pairCount);
      ParseNatToString(q[k].rank);
    }
  }

  /** `aggregatePairForSlot(slotPair)`: the query's rows as the driver returns them, tagged and converted. */
  function AggregatePairForSlot(rows: seq<GlamourRow>, p: SlotPair): (pairs: seq<AggregatedPair>)
    ensures pairs == PairQuery(rows, p)
  {
    PairQueryRows(rows, p);
    var q := PairQuery(rows, p);
    ToPairsOfRendered(SlotPairName(p), q);
    ToPairs(SlotPairName(p), Rendered(q))
  }

  /** The pair rows of the slot pairs `ps`, one slot pair after the other. */
  function AllPairs(rows: seq<GlamourRow>, ps: seq<SlotPair>): seq<AggregatedPair>
    decreases |ps|
  {
    if ps == [] then [] else AllPairs(rows, ps[..|ps| - 1]) + PairQuery(rows, ps[|ps| - 1])
  }

  /** `aggregatePairs()`: the four slot pairs' rows, concatenated in `SLOT_PAIRS` order. */
  method AggregatePairs(rows: seq<GlamourRow>) returns (allPairs: seq<AggregatedPair>)
    ensures allPairs == AllPairs(rows, SlotPairs)
  {
    allPairs := [];
    var i := 0;
    while i < |SlotPairs|
      invariant 0 <= i <= |SlotPairs|
      invariant allPairs == AllPairs(rows, SlotPairs[..i])
    {
      assert SlotPairs[..i + 1][..i] == SlotPairs[..i];
      var pairs := AggregatePairForSlot(rows, SlotPairs[i]);
      allPairs := allPairs + pairs;
      i := i + 1;
    }
    assert SlotPairs[..4] == SlotPairs;
  }

  // ---------------------------------------------------------------------------
  // isCrawlComplete, cleanup
  // ---------------------------------------------------------------------------

  /** `isCrawlComplete()` on the first row of the progress table, if any. */
  function IsCrawlComplete(progress: seq<CrawlProgressRow>): (complete: bool)
    ensures progress == [] ==> !complete
  {
    if progress == [] then false
    else progress[0].lastCompletedIndex >= progress[0].totalKeys - 1
  }

  /** The progress-table row a crawler checkpoint is stored as. */
  function ProgressRow(d: Crawler.ProgressData): (row: CrawlProgressRow)
    ensures row.lastCompletedIndex == d.lastCompletedIndex && row.totalKeys == d.totalKeys
  {
    CrawlProgressRow(d.crawlerName, d.lastCompletedIndex, d.totalKeys, d.processedCharacters)
  }

  /**
   * `isCrawlComplete` compares the origin index of the key iterated last with
   * `totalKeys - 1`, while the crawler iterates its keys in shuffled order: with
   * two keys iterated as index 1 then index 0, the finished crawl stores index 0
   * and is judged incomplete, and a crawl stopped after its first key stores
   * index 1 and is judged complete.
   */
  lemma CompletenessFollowsLastKey(name: string, deps: Crawler.Deps)
    ensures var keys := [Crawler.SearchKey(1), Crawler.SearchKey(0)];
      var c := Crawler.CrawlState(Crawler.Tally(Crawler.ZeroStats.(totalKeys := 2), 0, []), []);
      var full := Crawler.KeySteps(name, 0, deps, c, keys);
      var partial := Crawler.KeySteps(name, 0, deps, c, keys[..1]);
      && |full.saves| == 2 && |partial.saves| == 1
      && !IsCrawlComplete([ProgressRow(full.saves[1])])
      && IsCrawlComplete([ProgressRow(partial.saves[0])])
  {
    var keys := [Crawler.SearchKey(1), Crawler.SearchKey(0)];
    var c := Crawler.CrawlState(Crawler.Tally(Crawler.ZeroStats.(totalKeys := 2), 0, []), []);
    assert keys[..1] == [Crawler.SearchKey(1)] && keys[..1][..0] == [];
    assert Crawler.Pending(keys[..1], 0) == keys[..1];
    assert Crawler.Pending(keys, 0) == keys;
    Crawler.KeyStepsCheckpoints(name, 0, deps, c, keys);
    Crawler.KeyStepsCheckpoints(name, 0, deps, c, keys[..1]);
  }

  /** `cleanup()`: the glamour table, the item cache and the progress table are emptied. */
  method Cleanup(db: StagingDb)
    modifies db
    ensures db.glamour == [] && db.itemsCache == [] && db.crawlProgress == []
  {
    db.glamour := [];
    db.itemsCache := [];
    db.crawlProgress := [];
  }
}
