/**
 * The listing-page walker (`fetchAllCharacterIds`): it requests search-result
 * pages 1, 2, 3, ... of one search key, keeps the characters whose level is
 * at least `minLevel`, and stops at a page cap, a failed fetch, an empty page,
 * the first character below the threshold (pages are sorted by level,
 * highest first), or the last page.
 */
module CharacterListFetcher {
  import opened Common
  import opened RetryHttpClient

  datatype CharacterInfo = CharacterInfo(characterId: string, level: int)

  /** What the page parser extracts from one search-result page. */
  datatype ListPage = ListPage(characters: seq<CharacterInfo>, hasNextPage: bool)

  datatype ListFetcherConfig = ListFetcherConfig(minLevel: int, maxPages: int)
  datatype PartialListFetcherConfig = PartialListFetcherConfig(minLevel: Option<int>, maxPages: Option<int>)

  const DefaultMinLevel: int := 100
  const DefaultConfig: ListFetcherConfig := ListFetcherConfig(DefaultMinLevel, 100)

  /** `{ ...DEFAULT_CONFIG, ...config }`. */
  function MergeConfig(config: Option<PartialListFetcherConfig>): ListFetcherConfig {
    if config.None? then DefaultConfig
    else ListFetcherConfig(Override(config.value.minLevel, DefaultMinLevel), Override(config.value.maxPages, 100))
  }

  /** The defaults are level 100 and 100 pages; each supplied field replaces only its own default. */
  lemma MergeConfigFields(p: PartialListFetcherConfig)
    ensures MergeConfig(None) == ListFetcherConfig(100, 100)
    ensures MergeConfig(Some(p)).minLevel == (if p.minLevel.Some? then p.minLevel.value else 100)
    ensures MergeConfig(Some(p)).maxPages == (if p.maxPages.Some? then p.maxPages.value else 100)
  {
  }

  /** The page argument of the search url: none for page 1, the number otherwise. */
  function PageParam(page: nat): (p: Option<nat>)
    ensures p.None? <==> page == 1
    ensures p.Some? ==> p.value == page
  {
    if page == 1 then None else Some(page)
  }

  /** `!result.success || !result.html`: an empty body counts as missing. */
  predicate FetchFailed(r: FetchResult) {
    !r.success || r.html.None? || r.html.value == ""
  }

  /** The longest prefix of `cs` whose characters all have level at least `minLevel`. */
  function LevelPrefix(cs: seq<CharacterInfo>, minLevel: int): (p: seq<CharacterInfo>)
    ensures |p| <= |cs| && p == cs[..|p|]
    ensures forall k :: 0 <= k < |p| ==> p[k].level >= minLevel
    ensures |p| < |cs| ==> cs[|p|].level < minLevel
  {
    if cs == [] || cs[0].level < minLevel then [] else [cs[0]] + LevelPrefix(cs[1..], minLevel)
  }

  /** The ids of a list of characters, in order. */
  function Ids(cs: seq<CharacterInfo>): (ids: seq<string>)
    ensures |ids| == |cs| && forall k :: 0 <= k < |cs| ==> ids[k] == cs[k].characterId
  {
    seq(|cs|, k requires 0 <= k < |cs| => cs[k].characterId)
  }

  lemma IdsAppend(a: seq<CharacterInfo>, b: seq<CharacterInfo>)
    ensures Ids(a + b) == Ids(a) + Ids(b)
  {
    assert forall k :: 0 <= k < |a + b| ==> Ids(a + b)[k] == (Ids(a) + Ids(b))[k];
  }

  /** The characters kept and the page requests made by a walk. */
  datatype Walk = Walk(kept: seq<CharacterInfo>, requests: seq<Option<nat>>)

  /**
   * Page `page` and everything after it, as the loop does it: `fetch` answers a
   * request for a page argument, `parse` reads a page body.
   */
  function WalkFrom(config: ListFetcherConfig, fetch: Option<nat> -> FetchResult, parse: string -> ListPage, page: nat): Walk
    requires page >= 1
    decreases if page > config.maxPages then 0 else config.maxPages - page + 1
  {
    if page > config.maxPages then Walk([], [])
    else
      var r := fetch(PageParam(page));
      if FetchFailed(r) then Walk([], [PageParam(page)])
      else
        var listing := parse(r.html.value);
        if |listing.characters| == 0 then Walk([], [PageParam(page)])
        else
          var kept := LevelPrefix(listing.characters, config.minLevel);
          var rest :=
            if |kept| < |listing.characters| || !listing.hasNextPage then Walk([], [])
            else WalkFrom(config, fetch, parse, page + 1);
          Walk(kept + rest.kept, [PageParam(page)] + rest.requests)
  }

  /** The walk goes on past `page`: it was fetched, had characters, all of them at the threshold, and a next page. */
  predicate PageContinues(config: ListFetcherConfig, fetch: Option<nat> -> FetchResult, parse: string -> ListPage, page: nat) {
    var r := fetch(PageParam(page));
    && !FetchFailed(r)
    && var listing := parse(r.html.value);
    && |listing.characters| > 0
    && (forall c :: c in listing.characters ==> c.level >= config.minLevel)
    && listing.hasNextPage
  }

  /** `fetchAllCharacterIds(key)`, for the key the oracles answer for. */
  method FetchAllCharacterIds(config: ListFetcherConfig, fetch: Option<nat> -> FetchResult, parse: string -> ListPage)
    returns (characterIds: seq<string>, requests: seq<Option<nat>>)
    ensures var w := WalkFrom(config, fetch, parse, 1); characterIds == Ids(w.kept) && requests == w.requests
  {
    ghost var whole := WalkFrom(config, fetch, parse, 1);
    ghost var kept: seq<CharacterInfo> := [];
    characterIds, requests := [], [];
    var page := 1;
    var shouldContinue := true;
    while shouldContinue
      invariant page >= 1 && characterIds == Ids(kept)
      invariant shouldContinue ==> whole == Walk(kept + WalkFrom(config, fetch, parse, page).kept, requests + WalkFrom(config, fetch, parse, page).requests)
      invariant !shouldContinue ==> whole == Walk(kept, requests)
      decreases shouldContinue, if page > config.maxPages then 0 else config.maxPages - page + 1
    {
      if page > config.maxPages {
        assert requests + [] == requests && kept + [] == kept;
        break;
      }
      var param := PageParam(page);
      var result := fetch(param);
      requests := requests + [param];
      if FetchFailed(result) {
        assert kept + [] == kept;
        break;
      }
      var listing := parse(result.html.value);
      if |listing.characters| == 0 {
        assert kept + [] == kept;
        break;
      }
      ghost var prefix := LevelPrefix(listing.characters, config.minLevel);
      var pageIds, belowFound := KeepLevelled(listing.characters, config.minLevel);
      IdsAppend(kept, prefix);
      characterIds := characterIds + pageIds;
      if belowFound {
        shouldContinue := false;
      }
      WalkStep(config, fetch, parse, page, kept, requests[..|requests| - 1]);
      assert requests[..|requests| - 1] + [param] == requests;
      kept := kept + prefix;
      if !listing.hasNextPage {
        shouldContinue := false;
      }
      assert shouldContinue <==> |prefix| == |listing.characters| && listing.hasNextPage;
      page := page + 1;
    }
  }

  /**
   * The loop over one page's characters: push the id of each character at the
   * threshold, and stop at the first one below it, reporting that it was found.
   */
  method KeepLevelled(cs: seq<CharacterInfo>, minLevel: int) returns (ids: seq<string>, belowFound: bool)
    ensures ids == Ids(LevelPrefix(cs, minLevel))
    ensures belowFound <==> |LevelPrefix(cs, minLevel)| < |cs|
  {
    ghost var prefix := LevelPrefix(cs, minLevel);
    ids, belowFound := [], false;
    var k := 0;
    while k < |cs|
      invariant k <= |prefix| && prefix[..k] == cs[..k]
      invariant ids == Ids(prefix[..k])
    {
      if cs[k].level >= minLevel {
        assert k < |prefix|;
        IdsAppend(prefix[..k], [cs[k]]);
        assert prefix[..k + 1] == prefix[..k] + [cs[k]];
        ids := ids + [cs[k].characterId];
        k := k + 1;
      } else {
        belowFound := true;
        break;
      }
    }
    assert k == |prefix| && prefix[..k] == prefix;
  }

  /** One page of a walk that was fetched and had characters, seen from the loop's accumulators. */
  lemma WalkStep(config: ListFetcherConfig, fetch: Option<nat> -> FetchResult, parse: string -> ListPage, page: nat,
                 kept: seq<CharacterInfo>, requests: seq<Option<nat>>)
    requires 1 <= page <= config.maxPages
    requires !FetchFailed(fetch(PageParam(page))) && |parse(fetch(PageParam(page)).html.value).characters| > 0
    ensures var listing := parse(fetch(PageParam(page)).html.value);
      var prefix := LevelPrefix(listing.characters, config.minLevel);
      var w := WalkFrom(config, fetch, parse, page);
      var next := WalkFrom(config, fetch, parse, page + 1);
      Walk(kept + w.kept, requests + w.requests)
        == if |prefix| == |listing.characters| && listing.hasNextPage
           then Walk((kept + prefix) + next.kept, (requests + [PageParam(page)]) + next.requests)
           else Walk(kept + prefix, requests + [PageParam(page)])
  {
    var listing := parse(fetch(PageParam(page)).html.value);
    var prefix := LevelPrefix(listing.characters, config.minLevel);
    var next := WalkFrom(config, fetch, parse, page + 1);
    if |prefix| == |listing.characters| && listing.hasNextPage {
      assert kept + (prefix + next.kept) == (kept + prefix) + next.kept;
      assert requests + ([PageParam(page)] + next.requests) == (requests + [PageParam(page)]) + next.requests;
    } else {
      assert prefix + [] == prefix;
      assert [PageParam(page)] + [] == [PageParam(page)];
    }
  }

  /** Pages are requested as 1, 2, 3, ... in order, the first without a page argument, and at most `maxPages` of them. */
  lemma {:induction false} RequestsInOrder(config: ListFetcherConfig, fetch: Option<nat> -> FetchResult, parse: string -> ListPage, page: nat)
    requires page >= 1
    ensures var w := WalkFrom(config, fetch, parse, page);
      && |w.requests| <= (if page > config.maxPages then 0 else config.maxPages - page + 1)
      && forall k :: 0 <= k < |w.requests| ==> w.requests[k] == PageParam(page + k)
    decreases if page > config.maxPages then 0 else config.maxPages - page + 1
  {
    if page <= config.maxPages {
      RequestsInOrder(config, fetch, parse, page + 1);
    }
  }

  /** Every character kept has level at least `minLevel`. */
  lemma {:induction false} KeptAboveThreshold(config: ListFetcherConfig, fetch: Option<nat> -> FetchResult, parse: string -> ListPage, page: nat)
    requires page >= 1
    ensures forall c :: c in WalkFrom(config, fetch, parse, page).kept ==> c.level >= config.minLevel
    decreases if page > config.maxPages then 0 else config.maxPages - page + 1
  {
    if page <= config.maxPages {
      KeptAboveThreshold(config, fetch, parse, page + 1);
    }
  }

  /**
   * A page is followed by another request only if the walk continues past it:
   * a failed fetch, an empty page, a character below the threshold or a
   * missing next page ends it. Conversely, short of the page cap, the last page
   * requested is one of these.
   */
  lemma {:induction false} StopsExactlyWhenPageEnds(config: ListFetcherConfig, fetch: Option<nat> -> FetchResult, parse: string -> ListPage, page: nat)
    requires page >= 1
    ensures var w := WalkFrom(config, fetch, parse, page);
      && (forall p :: page <= p < page + |w.requests| - 1 ==> PageContinues(config, fetch, parse, p))
      && (|w.requests| > 0 && page + |w.requests| - 1 < config.maxPages ==>
            !PageContinues(config, fetch, parse, page + |w.requests| - 1))
    decreases if page > config.maxPages then 0 else config.maxPages - page + 1
  {
    if page <= config.maxPages {
      OnePage(config, fetch, parse, page);
      if PageContinues(config, fetch, parse, page) {
        StopsExactlyWhenPageEnds(config, fetch, parse, page + 1);
        if page + 1 <= config.maxPages {
          RequestsNonEmpty(config, fetch, parse, page + 1);
        }
      }
    }
  }

  /** The requests of a walk from `page`: that page's, then the next page's walk exactly when the page continues. */
  lemma OnePage(config: ListFetcherConfig, fetch: Option<nat> -> FetchResult, parse: string -> ListPage, page: nat)
    requires 1 <= page <= config.maxPages
    ensures WalkFrom(config, fetch, parse, page).requests
         == if PageContinues(config, fetch, parse, page)
            then [PageParam(page)] + WalkFrom(config, fetch, parse, page + 1).requests
            else [PageParam(page)]
  {
    var r := fetch(PageParam(page));
    if !FetchFailed(r) {
      var listing := parse(r.html.value);
      var kept := LevelPrefix(listing.characters, config.minLevel);
      if |listing.characters| > 0 && |kept| == |listing.characters| {
        assert kept == listing.characters;
      }
      if |kept| < |listing.characters| {
        assert listing.characters[|kept|] in listing.characters;
      }
    }
  }

  /** Every page within the cap is requested once it is reached. */
  lemma RequestsNonEmpty(config: ListFetcherConfig, fetch: Option<nat> -> FetchResult, parse: string -> ListPage, page: nat)
    requires 1 <= page <= config.maxPages
    ensures |WalkFrom(config, fetch, parse, page).requests| >= 1
  {
  }
}
