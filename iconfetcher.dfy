/**
 * The icon back-filler: for the cached items that have no icon URL yet, it
 * fetches each item's page, reads the icon URL off it and stores it in the
 * item's row, counting what was fetched and what failed.
 *
 * The page fetch (the retrying HTTP client) and the page parser are the
 * oracles `fetch` and `parse`.
 */
module IconFetcher {
  import opened Common
  import opened Schema
  import opened RetryHttpClient

  const ItemPagePrefix: string := "https://jp.finalfantasyxiv.com/lodestone/playguide/db/item/"

  /** `getItemPageUrl(itemId)`: the item's page on the Lodestone database. */
  function GetItemPageUrl(itemId: string): string {
    ItemPagePrefix + itemId + "/"
  }

  /** The item id of a page URL, when it is one. */
  function ItemIdOfPageUrl(url: string): Option<string> {
    if |url| > |ItemPagePrefix| && url[..|ItemPagePrefix|] == ItemPagePrefix && url[|url| - 1] == '/'
    then Some(url[|ItemPagePrefix|..|url| - 1])
    else None
  }

  /** The page URL gives back the item id, so distinct items have distinct pages. */
  lemma PageUrlRoundTrip(itemId: string, other: string)
    ensures ItemIdOfPageUrl(GetItemPageUrl(itemId)) == Some(itemId)
    ensures GetItemPageUrl(itemId) == GetItemPageUrl(other) ==> itemId == other
  {
    var url := GetItemPageUrl(itemId);
    assert url[..|ItemPagePrefix|] == ItemPagePrefix;
    assert url[|ItemPagePrefix|..|url| - 1] == itemId;
    var u2 := GetItemPageUrl(other);
    assert u2[|ItemPagePrefix|..|u2| - 1] == other;
  }

  /** `formatElapsed(ms)`, with floor divisions. */
  function FormatElapsed(ms: nat): string {
    var seconds := ms / 1000;
    var minutes := seconds / 60;
    var hours := minutes / 60;
    if hours > 0 then NatToString(hours) + "h " + NatToString(minutes % 60) + "m"
    else if minutes > 0 then NatToString(minutes) + "m " + NatToString(seconds % 60) + "s"
    else NatToString(seconds) + "s"
  }

  /** `n` split as `q * d + r` with `0 <= r < d` is divided as `q` remainder `r`. */
  lemma DivideAs(n: int, d: int, q: int, r: int)
    requires d > 0 && 0 <= r < d && n == q * d + r
    ensures n / d == q && n % d == r
  {
    var q', r' := n / d, n % d;
    assert (q - q') * d == r' - r;
    if q > q' {
      MultipleAtLeast(q - q', d);
    } else if q < q' {
      MultipleAtLeast(q' - q, d);
    }
  }

  lemma MultipleAtLeast(x: int, d: int)
    requires x >= 1 && d > 0
    ensures x * d >= d
  {
    assert x * d == (x - 1) * d + d;
  }

  /**
   * The time shown is the whole seconds elapsed, cut to the two largest
   * units: hours and minutes from an hour on, minutes and seconds from a
   * minute on, seconds below that.
   */
  lemma FormatElapsedUnits(ms: nat)
    ensures var s := ms / 1000;
      && (s >= 3600 ==> FormatElapsed(ms) == NatToString(s / 3600) + "h " + NatToString(s % 3600 / 60) + "m")
      && (60 <= s < 3600 ==> FormatElapsed(ms) == NatToString(s / 60) + "m " + NatToString(s % 60) + "s")
      && (s < 60 ==> FormatElapsed(ms) == NatToString(s) + "s")
  {
    var s := ms / 1000;
    var q, r := s / 3600, s % 3600;
    DivideAs(s, 60, 60 * q + r / 60, r % 60);
    DivideAs(s / 60, 60, q, r / 60);
  }

  /** The rows of the item cache whose icon URL is null, in table order. */
  function Missing(table: seq<ItemCacheRow>): seq<ItemCacheRow>
    decreases |table|
  {
    if table == [] then []
    else
      var rest := Missing(table[..|table| - 1]);
      if table[|table| - 1].iconUrl.None? then rest + [table[|table| - 1]] else rest
  }

  /** The selected rows are exactly the rows without an icon, in table order. */
  lemma {:induction false} MissingRows(table: seq<ItemCacheRow>)
    ensures forall r :: r in Missing(table) <==> r in table && r.iconUrl.None?
    ensures |Missing(table)| <= |table|
    decreases |table|
  {
    if table != [] {
      MissingRows(table[..|table| - 1]);
      assert table == table[..|table| - 1] + [table[|table| - 1]];
    }
  }

  /** `limit ? query.limit(limit) : query`: a limit of 0 or none leaves every row. */
  function Capped(rows: seq<ItemCacheRow>, limit: Option<nat>): (capped: seq<ItemCacheRow>)
    ensures capped <= rows
    ensures |capped| == if limit.Some? && 0 < limit.value < |rows| then limit.value else |rows|
  {
    if limit.Some? && 0 < limit.value < |rows| then rows[..limit.value] else rows
  }

  /** The icon URL stored for `item`, or `None` when its fetch or its parse failed (an empty page or URL counts as failed). */
  function IconOf(item: ItemCacheRow, fetch: string -> FetchResult, parse: string -> Option<string>): Option<string> {
    var page := fetch(GetItemPageUrl(item.id));
    if !page.success || page.html.None? || page.html.value == "" then None
    else
      var icon := parse(page.html.value);
      if icon.None? || icon.value == "" then None else icon
  }

  /** `UPDATE items_cache SET icon_url = icon WHERE id = itemId`. */
  function SetIcon(table: seq<ItemCacheRow>, itemId: string, icon: string): seq<ItemCacheRow> {
    seq(|table|, k requires 0 <= k < |table| => if table[k].id == itemId then table[k].(iconUrl := Some(icon)) else table[k])
  }

  /** The updates of the loop over `items`, in order. */
  function ApplyIcons(table: seq<ItemCacheRow>, items: seq<ItemCacheRow>, fetch: string -> FetchResult, parse: string -> Option<string>): (t: seq<ItemCacheRow>)
    ensures |t| == |table|
    decreases |items|
  {
    if items == [] then table
    else
      var before := ApplyIcons(table, items[..|items| - 1], fetch, parse);
      var icon := IconOf(items[|items| - 1], fetch, parse);
      if icon.Some? then SetIcon(before, items[|items| - 1].id, icon.value) else before
  }

  /** The number of items whose icon was stored. */
  function Fetched(items: seq<ItemCacheRow>, fetch: string -> FetchResult, parse: string -> Option<string>): (n: nat)
    ensures n <= |items|
    decreases |items|
  {
    if items == [] then 0
    else Fetched(items[..|items| - 1], fetch, parse) + (if IconOf(items[|items| - 1], fetch, parse).Some? then 1 else 0)
  }

  /** Every item is counted as fetched exactly when its icon was stored. */
  lemma {:induction false} FetchedCountsStored(items: seq<ItemCacheRow>, fetch: string -> FetchResult, parse: string -> Option<string>)
    ensures Fetched(items, fetch, parse) == |items| <==> forall j :: 0 <= j < |items| ==> IconOf(items[j], fetch, parse).Some?
    ensures Fetched(items, fetch, parse) == 0 <==> forall j :: 0 <= j < |items| ==> IconOf(items[j], fetch, parse).None?
    decreases |items|
  {
    if items != [] {
      var init := items[..|items| - 1];
      FetchedCountsStored(init, fetch, parse);
      assert forall j :: 0 <= j < |init| ==> init[j] == items[j];
    }
  }

  /**
   * Only the icon URL of a row changes, and only to the icon parsed for an
   * item of the loop with that row's id.
   */
  lemma {:induction false} ApplyIconsChangesOnlyIcons(table: seq<ItemCacheRow>, items: seq<ItemCacheRow>, fetch: string -> FetchResult, parse: string -> Option<string>)
    ensures forall k :: 0 <= k < |table| ==>
      var row := ApplyIcons(table, items, fetch, parse)[k];
      && row.(iconUrl := table[k].iconUrl) == table[k]
      && (row != table[k] ==> exists j :: 0 <= j < |items| && items[j].id == table[k].id && row.iconUrl == IconOf(items[j], fetch, parse))
    decreases |items|
  {
    if items != [] {
      var init := items[..|items| - 1];
      ApplyIconsChangesOnlyIcons(table, init, fetch, parse);
      forall k | 0 <= k < |table|
        ensures var row := ApplyIcons(table, items, fetch, parse)[k];
          row != table[k] ==> exists j :: 0 <= j < |items| && items[j].id == table[k].id && row.iconUrl == IconOf(items[j], fetch, parse)
      {
        var row := ApplyIcons(table, items, fetch, parse)[k];
        var prev := ApplyIcons(table, init, fetch, parse)[k];
        if row != table[k] && row == prev {
          var j :| 0 <= j < |init| && init[j].id == table[k].id && prev.iconUrl == IconOf(init[j], fetch, parse);
          assert items[j] == init[j];
        }
      }
    }
  }

  /** Every item whose icon was parsed has it stored in its row, when the items have distinct ids. */
  lemma {:induction false} ApplyIconsStoresEveryIcon(table: seq<ItemCacheRow>, items: seq<ItemCacheRow>, fetch: string -> FetchResult, parse: string -> Option<string>)
    requires forall i, j :: 0 <= i < j < |items| ==> items[i].id != items[j].id
    ensures forall j, k :: 0 <= j < |items| && 0 <= k < |table| && table[k].id == items[j].id && IconOf(items[j], fetch, parse).Some? ==>
      ApplyIcons(table, items, fetch, parse)[k].iconUrl == IconOf(items[j], fetch, parse)
    decreases |items|
  {
    if items != [] {
      var init := items[..|items| - 1];
      ApplyIconsStoresEveryIcon(table, init, fetch, parse);
      ApplyIconsChangesOnlyIcons(table, init, fetch, parse);
    }
  }

  /** The counts `fetchMissingIcons` returns. */
  datatype IconFetchResult = IconFetchResult(total: nat, fetched: nat, failed: nat, skipped: nat)

  /** The loop over the selected items: fetch, parse, update, count. */
  method UpdateIcons(db: StagingDb, items: seq<ItemCacheRow>, fetch: string -> FetchResult, parse: string -> Option<string>)
    returns (fetched: nat, failed: nat, requested: seq<string>)
    modifies db
    ensures db.itemsCache == ApplyIcons(old(db.itemsCache), items, fetch, parse)
    ensures fetched == Fetched(items, fetch, parse) && failed == |items| - fetched
    ensures requested == seq(|items|, k requires 0 <= k < |items| => GetItemPageUrl(items[k].id))
    ensures db.glamour == old(db.glamour) && db.crawlProgress == old(db.crawlProgress)
  {
    fetched, failed, requested := 0, 0, [];
    for i := 0 to |items|
      invariant db.itemsCache == ApplyIcons(old(db.itemsCache), items[..i], fetch, parse)
      invariant fetched == Fetched(items[..i], fetch, parse) && failed == i - fetched
      invariant requested == seq(i, k requires 0 <= k < i => GetItemPageUrl(items[k].id))
      invariant db.glamour == old(db.glamour) && db.crawlProgress == old(db.crawlProgress)
    {
      assert items[..i + 1][..i] == items[..i];
      var url := GetItemPageUrl(items[i].id);
      requested := requested + [url];
      var page := fetch(url);
      if !page.success || page.html.None? || page.html.value == "" {
        failed := failed + 1;
        continue;
      }
      var icon := parse(page.html.value);
      if icon.None? || icon.value == "" {
        failed := failed + 1;
        continue;
      }
      db.itemsCache := SetIcon(db.itemsCache, items[i].id, icon.value);
      fetched := fetched + 1;
    }
    assert items[..|items|] == items;
  }

  /** `fetchMissingIcons({ db, httpClient, limit, dryRun })`. */
  method FetchMissingIcons(db: StagingDb, limit: Option<nat>, dryRun: bool, fetch: string -> FetchResult, parse: string -> Option<string>)
    returns (result: IconFetchResult, requested: seq<string>)
    modifies db
    ensures var items := Capped(Missing(old(db.itemsCache)), limit);
      && result.total == |items|
      && (items == [] ==> result == IconFetchResult(0, 0, 0, 0) && requested == [] && db.itemsCache == old(db.itemsCache))
      && (items != [] && dryRun ==> result == IconFetchResult(|items|, 0, 0, |items|) && requested == [] && db.itemsCache == old(db.itemsCache))
      && (items != [] && !dryRun ==>
            && db.itemsCache == ApplyIcons(old(db.itemsCache), items, fetch, parse)
            && result == IconFetchResult(|items|, Fetched(items, fetch, parse), |items| - Fetched(items, fetch, parse), 0)
            && requested == seq(|items|, k requires 0 <= k < |items| => GetItemPageUrl(items[k].id)))
    ensures db.glamour == old(db.glamour) && db.crawlProgress == old(db.crawlProgress)
  {
    var items := Capped(Missing(db.itemsCache), limit);
    result := IconFetchResult(|items|, 0, 0, 0);
    requested := [];
    if |items| == 0 {
      return;
    }
    if dryRun {
      result := result.(skipped := |items|);
      return;
    }
    var fetched, failed;
    fetched, failed, requested := UpdateIcons(db, items, fetch, parse);
    result := result.(fetched := fetched, failed := failed);
  }
}
