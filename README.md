# mirapri-stats crawl and sync pipeline in Dafny

This project models the data pipeline of mirapri-stats. The pipeline collects the glamour (outfit) of Final Fantasy XIV characters from the Lodestone, aggregates it, and publishes item usage and item-pair rankings.

The model covers these parts.

- **Crawl side** (`apps/scraper`):
  - the seeded Mulberry32 generator and the in-place Fisher–Yates shuffle of the search keys (`Shuffle`);
  - the fixed-delay retry wrapper around the page fetch (`RetryHttpClient`);
  - the walker over the listing pages of one search key (`CharacterListFetcher`);
  - the crawl orchestrator, with its resume threshold, per-character classification and per-key checkpoint (`Crawler`);
  - the icon back-filler (`IconFetcher`);
  - the glamour save filter of the repository (`Repository`).
- **Sync side** (`apps/sync`):
  - the aggregator, whose SQL is written as functions over a snapshot of the staging tables (`Aggregator`);
  - the client of the writer service, with chunking, exponential backoff and fail-fast on 401 (`WorkerClient`, `Batching`);
  - the three-phase runner: pre-check, items, then a versioned stats session that commits or aborts, then cleanup (`SyncRunner`).
- **Writer side** (`apps/writer`):
  - the `items`, `usage` and `pairs` routes, each a validator followed by batched inserts (`ItemsRoute`, `UsageRoute`, `PairsRoute`);
  - the tables they write (`WriterDb`) and the JSON values they read (`Json`).

The outside world is passed in as oracles:

- the HTTP client, the page parsers, `characterExists`, `scrape` and the network are arrow-typed parameters;
- the database insert of the repository and the driver's change report are oracles too;
- the tables are `seq` fields of the classes `StagingDb` and `Tables`;
- the progress store is a class holding a map with upsert.

Sleeps appear only as the delays requested. Requests appear as the sequence of URLs or page arguments fetched.

Where the source updates state step by step, the model is imperative:

- the shuffle works in place on an `array`;
- the crawler is a class whose `stats` fields its methods update;
- the retry loops, the listing walk, the client's chunk loops, the route loops and the icon loop are `while`/`for` loops.

Each such method is proved against a specification function. The properties the source promises are proved about that function as lemmas.

## Model

| member | source | states |
|---|---|---|
| Common.NatToString | apps/sync/src/aggregator.ts:62-65 | The decimal string of a count is non-empty, all digits, and has no leading zero. |
| Common.ParseNatToString | apps/sync/src/aggregator.ts:64 | Reading a count's decimal string back with `Number` gives the count. |
| Schema.SlotIdOf | packages/shared/src/schema.ts:8-14 | A slot name maps to an id in 1..5. |
| Schema.SlotNamesRoundTrip | packages/shared/src/schema.ts:8-14 | The five slot names and ids correspond one to one, in both directions. |
| Schema.SlotPairNamesRoundTrip | apps/writer/src/routes/pairs.ts:44-45 | The four slot-pair names and the slot pairs correspond one to one; a name is accepted iff it is in the list. |
| Schema.SlotB | apps/sync/src/aggregator.ts:74-76 | Both slots of a slot pair are valid slot ids, and slot B comes after slot A. |
| Shuffle.Word | apps/scraper/src/crawler/shuffle.ts:20 | The final `>>> 0` reads the 32-bit pattern as an unsigned number below 2^32. |
| Shuffle.ValueOf | apps/scraper/src/crawler/shuffle.ts:20 | Every generator output `u / 2^32` lies in [0, 1). |
| Shuffle.ValuesInRange | apps/scraper/src/crawler/shuffle.ts:16-21 | Every value of the sequence a seed generates lies in [0, 1). |
| Shuffle.SeededRandom.Next | apps/scraper/src/crawler/shuffle.ts:16-21 | One call advances the state by the constant and returns the mixed output, counting the call. |
| Shuffle.SameSeedSameValues | apps/scraper/src/crawler/shuffle.ts:13-22 | Two generators made with the same seed produce identical sequences, determined by seed and call count. |
| Shuffle.SwapIndex | apps/scraper/src/crawler/shuffle.ts:33 | The swap partner `j` satisfies `j <= i`. |
| Shuffle.SwapIndexIsFloor | apps/scraper/src/crawler/shuffle.ts:33 | The integer swap index is exactly `Math.floor(rng() * (i + 1))` of the real output. |
| Shuffle.Partner | apps/scraper/src/crawler/shuffle.ts:32-33 | The partner drawn from a generator state is at most `i`. |
| Shuffle.SwapPermutes | apps/scraper/src/crawler/shuffle.ts:34 | A swap keeps the multiset of elements. |
| Shuffle.ShuffleFromPermutes | apps/scraper/src/crawler/shuffle.ts:31-35 | The descending swap loop keeps the length and the multiset of elements. |
| Shuffle.ShuffledIsPermutation | apps/scraper/src/crawler/shuffle.ts:28-37 | The shuffled sequence is a permutation of the input. |
| Shuffle.ShortInputUnchanged | apps/scraper/src/crawler/shuffle.ts:32 | Inputs of length 0 or 1 come back unchanged. |
| Shuffle.ShuffleFromStep | apps/scraper/src/crawler/shuffle.ts:32-35 | One loop step swaps `i` with a partner `j <= i` and continues from `i - 1` with the advanced state. |
| Shuffle.SwapWithDrawn | apps/scraper/src/crawler/shuffle.ts:33-34 | Drawing a partner and swapping the two cells is one step of the specified shuffle. |
| Shuffle.ShuffleWithSeed | apps/scraper/src/crawler/shuffle.ts:28-37 | The array is shuffled in place to the specified order, is a permutation of its old contents, and the same array is returned. |
| RetryHttpClient.MergeOverridesSuppliedFields | apps/scraper/src/utils/retry-http-client.ts:58-61 | A partial config replaces exactly the fields it supplies; the rest keep the defaults 3, 60000 and [429, 503, 0]. |
| RetryHttpClient.MergeDefaults | apps/scraper/src/utils/retry-http-client.ts:37-41 | No config and an empty config both give the defaults; a complete config is used as it is. |
| RetryHttpClient.CallLimit | apps/scraper/src/utils/retry-http-client.ts:66-84 | At least one call and at least `maxRetries` calls are allowed. |
| RetryHttpClient.FetchWithRateLimit | apps/scraper/src/utils/retry-http-client.ts:64-87 | The base client is called between 1 and `max(1, maxRetries)` times. Every call before the last failed with a retryable status. It stops early only on a final result. It returns the last result. Each retry is preceded by one sleep of `retryDelayMs`. |
| RetryHttpClient.CallsNeeded | apps/scraper/src/utils/retry-http-client.ts:66-86 | The number of calls the loop needs from a given try lies between that try and the limit. |
| RetryHttpClient.CallsDetermined | apps/scraper/src/utils/retry-http-client.ts:66-86 | The number of calls is determined by the base client's answers. |
| RetryHttpClient.DefaultFetch | apps/scraper/src/utils/retry-http-client.ts:6-20 | With the defaults: at most 3 calls, 60000 ms sleeps, and an early return only on success or on a status outside 429, 503 and 0. |
| CharacterListFetcher.MergeConfigFields | apps/scraper/src/crawler/character-list-fetcher.ts:24-51 | The defaults are `minLevel` 100 and `maxPages` 100; each supplied field overrides only its own default. |
| CharacterListFetcher.PageParam | apps/scraper/src/crawler/character-list-fetcher.ts:68 | Page 1 is requested without a page argument; every other page with its number. |
| CharacterListFetcher.LevelPrefix | apps/scraper/src/crawler/character-list-fetcher.ts:93-104 | The characters kept from a page are its longest prefix at or above `minLevel`; the next one, if any, is below it. |
| CharacterListFetcher.Ids | apps/scraper/src/crawler/character-list-fetcher.ts:95 | The ids are the characters' ids, in order. |
| CharacterListFetcher.FetchAllCharacterIds | apps/scraper/src/crawler/character-list-fetcher.ts:54-116 | The ids returned and the pages requested are those of the specified walk from page 1. |
| CharacterListFetcher.KeepLevelled | apps/scraper/src/crawler/character-list-fetcher.ts:93-104 | The inner loop keeps the level prefix and reports a below-threshold character exactly when the prefix is not the whole page. |
| CharacterListFetcher.RequestsInOrder | apps/scraper/src/crawler/character-list-fetcher.ts:56-111 | Pages are requested as 1, 2, 3, … in order, and at most `maxPages` of them. |
| CharacterListFetcher.KeptAboveThreshold | apps/scraper/src/crawler/character-list-fetcher.ts:93-95 | Every returned character has level at least `minLevel`. |
| CharacterListFetcher.StopsExactlyWhenPageEnds | apps/scraper/src/crawler/character-list-fetcher.ts:73-109 | A further page is requested only after a page that was fetched, had characters, all at the threshold, and a next page. Short of the page cap, the last page requested failed one of these. |
| CharacterListFetcher.OnePage | apps/scraper/src/crawler/character-list-fetcher.ts:59-111 | A page within the cap is requested, followed by the next page's walk exactly when the page continues. |
| CharacterListFetcher.RequestsNonEmpty | apps/scraper/src/crawler/character-list-fetcher.ts:61-71 | A page within the cap is always requested once the walk reaches it. |
| Crawler.ClassifyCases | apps/scraper/src/crawler/crawler.ts:102-131 | A character counts as processed iff it is new and its scrape saved something, and as an error iff it is new and its scrape failed. A successful scrape that saved nothing counts as skipped. |
| Crawler.CountAddsOne | apps/scraper/src/crawler/crawler.ts:105-130 | Each character increments exactly one of the skipped, processed and error counters. |
| Crawler.Threshold | apps/scraper/src/crawler/crawler.ts:79-80 | The resume threshold is 0 without stored progress, and `lastCompletedIndex + 1` with it. |
| Crawler.Pending | apps/scraper/src/crawler/crawler.ts:88-91 | The keys processed are exactly the keys of the input whose origin index is at or above the threshold: no other key is processed, and none of those is skipped. |
| Crawler.VisitAllCounts | apps/scraper/src/crawler/crawler.ts:102-131 | Visiting characters adds one to exactly one counter per character and leaves the key counters alone. Only new characters are scraped, in visit order. |
| Crawler.KeyStepsCheckpoints | apps/scraper/src/crawler/crawler.ts:88-145 | The checkpoints are exactly the pending keys in iteration order, each with its own index. `processedKeys` grows by their number, and every listed character of a pending key is counted once. |
| Crawler.LastCheckpointIsLastPending | apps/scraper/src/crawler/crawler.ts:134-140 | The stored checkpoint is the key iterated last, not the largest index done. |
| Crawler.ResumeSkipsUnprocessedKey | apps/scraper/src/crawler/crawler.ts:80-91 | Resuming by origin index under a shuffled order skips a key that no run processed. |
| Crawler.ProgressStore.Load | apps/scraper/src/crawler/crawler.ts:79 | `load` returns the stored row of the crawler, or none. |
| Crawler.ProgressStore.Save | apps/scraper/src/crawler/crawler.ts:135-140 | `save` upserts the row under the crawler's name. |
| Crawler.AfterSavesOneName | apps/scraper/src/crawler/crawler.ts:135-140 | After saves under one name, the table holds the last save for that name and is otherwise unchanged. |
| Crawler.Crawler.constructor | apps/scraper/src/crawler/crawler.ts:52-58 | All counters start at 0. |
| Crawler.Crawler.Start | apps/scraper/src/crawler/crawler.ts:61-153 | A dry run only sets `totalKeys` and touches neither the store nor the scraper. Otherwise the counters, the scrapes and the checkpoints are those of the specified crawl from the resumed counters. `totalKeys` is set anew. On resume, `processedCharacters` is taken from the store. The other counters carry on from the crawler's current values, since `stats` is created once per crawler and never reset. |
| Crawler.Crawler.CrawlKey | apps/scraper/src/crawler/crawler.ts:98-140 | One key: visit its characters, count the key, and save the checkpoint with the key's index and the current `processedCharacters`. |
| Crawler.Crawler.VisitCharacters | apps/scraper/src/crawler/crawler.ts:102-131 | The character loop's counters and scrapes are those of the specified visits. |
| Crawler.Crawler.GetStats | apps/scraper/src/crawler/crawler.ts:155-157 | `getStats` returns the current counters. |
| Aggregator.OccurrencesPositive | apps/sync/src/aggregator.ts:57 | A value occurs in the table iff its count is positive. |
| Aggregator.Distinct | apps/sync/src/aggregator.ts:60 | The groups of a GROUP BY are distinct and cover exactly the values present. |
| Aggregator.ExtractUniqueItems | apps/sync/src/aggregator.ts:38-48 | One extracted item per item-cache row. |
| Aggregator.ExtractedItemsUnique | apps/sync/src/aggregator.ts:38-48 | The items are the cache's rows, field for field, and unique by id because the cache is keyed by id. |
| Aggregator.UsageRows | apps/sync/src/aggregator.ts:53-60 | One query row per group, with the count as a digit string. |
| Aggregator.ToUsageOfRows | apps/sync/src/aggregator.ts:62-65 | Reading the driver's strings with `Number` gives the counts themselves. |
| Aggregator.TotalCounted | apps/sync/src/aggregator.ts:53-65 | The counts of the groups add up to the rows of those groups. |
| Aggregator.AggregateUsageCounts | apps/sync/src/aggregator.ts:53-66 | One entry per distinct item of the glamour table, each with its number of rows (at least 1); the counts add up to the number of rows. |
| Aggregator.PartnersMembers | apps/sync/src/aggregator.ts:127-130 | A row on slot A joins exactly the slot-B items of the same character. |
| Aggregator.JoinMembers | apps/sync/src/aggregator.ts:127-130 | A pair is in the join iff some character wears its A item on slot A and its B item on slot B. |
| Aggregator.CountPairs | apps/sync/src/aggregator.ts:121-132 | One count row per group of the pairs CTE. |
| Aggregator.Partition | apps/sync/src/aggregator.ts:138 | A partition holds exactly the rows of one A item. |
| Aggregator.SortByCount | apps/sync/src/aggregator.ts:138 | `ORDER BY pair_count DESC` is a permutation sorted by descending count. |
| Aggregator.Ranked | apps/sync/src/aggregator.ts:133-143 | A ranked partition keeps `min(10, size)` rows. |
| Aggregator.SortStrings | apps/sync/src/aggregator.ts:144 | The A items sorted ascending, without duplicates, and with the same members. |
| Aggregator.Rendered | apps/sync/src/aggregator.ts:147-153 | The driver returns counts and ranks as digit strings. |
| Aggregator.ToPairs | apps/sync/src/aggregator.ts:154-160 | One output pair per driver row. |
| Aggregator.GroupMembers | apps/sync/src/aggregator.ts:144 | The group of an A item holds exactly the output rows for that item. |
| Aggregator.RankedShape | apps/sync/src/aggregator.ts:133-143 | Ranks are 1, 2, … in order, each row is from the partition, and counts do not increase as rank grows. |
| Aggregator.RankedInOrderOfRanked | apps/sync/src/aggregator.ts:138-144 | A ranked partition is in `ORDER BY item_id_a, rank` order. |
| Aggregator.RankedInOrderAppend | apps/sync/src/aggregator.ts:144 | Two ordered runs stay ordered when the second starts a larger A item at rank 1. |
| Aggregator.RankedPartition | apps/sync/src/aggregator.ts:133-144 | A ranked partition is ordered, all for its A item, and present iff the partition is. |
| Aggregator.RankAllShape | apps/sync/src/aggregator.ts:133-144 | Ranking ascending, distinct A items one after another gives rows ordered by A item then rank, each from the pairs CTE. |
| Aggregator.GroupOfRankAll | apps/sync/src/aggregator.ts:138-143 | The rows of one A item are exactly the ranked top of its partition. |
| Aggregator.PairCountsMembers | apps/sync/src/aggregator.ts:121-132 | A count row exists iff its pair is in the join, with the number of join rows of that pair. |
| Aggregator.PairQueryRows | apps/sync/src/aggregator.ts:121-145 | For one slot pair, every row is a pair some character wears, with its join count (at least 1), a rank in 1..10, and the slot pair's name. Rows are ordered by A item then rank, and ranks count up from 1 by descending count. |
| Aggregator.RankedKeepsTopTen | apps/sync/src/aggregator.ts:138-143 | A row of a partition is either ranked, or ten ranked rows count at least as much. |
| Aggregator.PairQueryTopTen | apps/sync/src/aggregator.ts:138-143 | `rank <= 10` drops a worn pair only when its A item already has ten rows, none with a smaller count. |
| Aggregator.ToPairsOfRendered | apps/sync/src/aggregator.ts:147-160 | Tagging the driver's rows and reading them with `Number` recovers the query's rows. |
| Aggregator.AggregatePairForSlot | apps/sync/src/aggregator.ts:114-161 | `aggregatePairForSlot` returns exactly the query's rows, after the round trip through the driver's strings. |
| Aggregator.AggregatePairs | apps/sync/src/aggregator.ts:71-81 | The four slot pairs' rows, concatenated in `SLOT_PAIRS` order. |
| Aggregator.IsCrawlComplete | apps/sync/src/aggregator.ts:87-97 | The crawl is incomplete when there is no progress row. |
| Aggregator.CompletenessFollowsLastKey | apps/sync/src/aggregator.ts:87-97 | Completeness depends on the key iterated last: a finished shuffled crawl can be judged incomplete, and an interrupted one complete. |
| Aggregator.Cleanup | apps/sync/src/aggregator.ts:103-107 | `cleanup` empties the glamour, item-cache and progress tables. |
| Batching.Chunk | apps/sync/src/worker-client.ts:94-100 | The loop returns the specified chunks. |
| Batching.ChunksConcat | apps/sync/src/worker-client.ts:94-100 | Concatenating the chunks gives back the input. |
| Batching.ChunkSizes | apps/sync/src/worker-client.ts:94-100 | Every chunk holds between 1 and `size` elements. |
| Batching.ChunkCount | apps/sync/src/worker-client.ts:94-100 | There are ⌈n / size⌉ chunks. |
| Batching.ChunkAt | apps/sync/src/worker-client.ts:96-97 | Chunk `k` is the slice from `k * size`, cut at the end of the input. |
| Batching.ConcatAppend | apps/writer/src/routes/items.ts:58-61 | The batches of two runs, concatenated, are the concatenation of their rows. |
| Json.Get | apps/writer/src/routes/items.ts:30-44 | Reading a field fails iff the value is `null`; on an object it gives the field or `undefined`. |
| Json.AcceptedValues | apps/writer/src/routes/items.ts:35-43 | The tests accept exactly a non-empty string, a number in range, or an array. |
| WriterDb.FirstErrorIsFirst | apps/writer/src/routes/items.ts:34-44 | A validation loop gets through iff every check passes; otherwise it answers the first failing check, all earlier ones having passed. |
| WorkerClient.ChunkSizesOf | apps/sync/src/worker-client.ts:13-21 | The chunk sizes default to 500, 1000 and 1000, and each supplied size overrides its own default. |
| WorkerClient.RetryCountOf | apps/sync/src/worker-client.ts:57 | The attempt count defaults to 3. |
| WorkerClient.Outcome | apps/sync/src/worker-client.ts:68-78 | A 401 and a status of 500 or more throw; any other response is returned; a rejected fetch throws its error. |
| WorkerClient.FetchWithRetry | apps/sync/src/worker-client.ts:59-92 | The loop returns what the specified retry from try 0 returns, with the same fetch count and delays. |
| WorkerClient.RetryShape | apps/sync/src/worker-client.ts:64-91 | At most `attempts` fetches. Every fetch before the last threw a retryable error. It stops early only on a response or an authentication error, and returns or throws the last outcome. It sleeps `1000 * 2^k` after each failed try `k` except the last. |
| WorkerClient.NoAttempts | apps/sync/src/worker-client.ts:91 | With no attempts, nothing is fetched and `'Request failed'` is thrown. |
| WorkerClient.UnauthorizedFailsFast | apps/sync/src/worker-client.ts:70-72 | A 401 throws `'Unauthorized: Invalid AUTH_TOKEN'` after exactly one request, without sleeping. |
| WorkerClient.UnauthorizedIsAuthError | apps/sync/src/worker-client.ts:80-83 | The 401 message is one the `catch` rethrows at once. |
| WorkerClient.NoUnauthorized | apps/sync/src/worker-client.ts:81 | A message without a capital U cannot contain "Unauthorized". |
| WorkerClient.StatusHandling | apps/sync/src/worker-client.ts:70-78 | A status of 500 or more is retried; a 401 is not; any other status is handed back to the caller. |
| WorkerClient.BatchResult | apps/sync/src/worker-client.ts:160-178 | A chunk's request succeeds only with an OK response. |
| WorkerClient.SendBatch | apps/sync/src/worker-client.ts:160-178 | One chunk's request, then the `response.ok` check, as specified. |
| WorkerClient.PostAllSucceeds | apps/sync/src/worker-client.ts:180-185 | A post succeeds iff every chunk does, and then returns the sums of the chunks' counts, missing counts as 0. |
| WorkerClient.PostAllFails | apps/sync/src/worker-client.ts:159-183 | A failing post stops at its first failing chunk, requests no later chunk, and throws that chunk's error. |
| WorkerClient.PostBatches | apps/sync/src/worker-client.ts:156-183 | The chunk loop sends a prefix of the bodies in order, with the specified outcome. |
| WorkerClient.PostAllStops | apps/sync/src/worker-client.ts:159-183 | Once a chunk has failed, later chunks change nothing. |
| WorkerClient.PostItems | apps/sync/src/worker-client.ts:154-186 | One request per chunk of at most `chunkSizes.items` items, to `/api/items`; the summed `inserted` and `skipped`. |
| WorkerClient.PostUsage | apps/sync/src/worker-client.ts:188-218 | One request per usage chunk, to `/api/usage?version=…`; the summed `inserted`. |
| WorkerClient.PostPairs | apps/sync/src/worker-client.ts:220-252 | One request per pairs chunk, to `/api/pairs?version=…`; the summed `inserted`. |
| WorkerClient.EmptyPayload | apps/sync/src/worker-client.ts:155-185 | An empty payload sends no request and returns zero counts. |
| WorkerClient.StartSync | apps/sync/src/worker-client.ts:103-120 | The version of an OK response, or the thrown or `Failed to start sync` error. |
| WorkerClient.Finish | apps/sync/src/worker-client.ts:122-152 | Commit or abort returns normally iff the response is OK; otherwise it throws the fetch error or the failure message. |
| WorkerClient.VersionBody | apps/sync/src/worker-client.ts:129 | The commit and abort body is an object whose only field is the version. |
| WorkerClient.CommitSync | apps/sync/src/worker-client.ts:122-136 | `commitSync(version)` sends `{ version }` and returns normally iff the retried fetch gives an OK response. A thrown fetch error is the error raised. A non-OK response raises `Failed to commit sync: <status> - <text>`. |
| WorkerClient.AbortSync | apps/sync/src/worker-client.ts:138-152 | `abortSync(version)` sends `{ version }` and returns normally iff the retried fetch gives an OK response. A thrown fetch error is the error raised. A non-OK response raises `Failed to abort sync: <status> - <text>`. |
| SyncRunner.StatsTry | apps/sync/src/sync-runner.ts:67-100 | The `try` block returns normally iff start, usage, pairs and commit all succeed. Otherwise it reports the first error thrown. It returns the version the start gave. The usage count is kept once `postUsage` returns, and the pairs count once `postPairs` returns, even when the commit then throws. Commit is called only as the sixth call, after start, usage and pairs. A failed start makes no other call. |
| SyncRunner.StatsPhase | apps/sync/src/sync-runner.ts:64-112 | No error iff start, usage, pairs and commit all succeed. Commit is called at most once, after start, usage and pairs. Abort is called once, with the version, as the last call, iff a failure follows a truthy version. A failed start calls nothing else. A second error appears iff the abort threw. The usage and pairs counts are those the posts returned, including when a later step fails. |
| SyncRunner.ItemsPhase | apps/sync/src/sync-runner.ts:49-59 | The items' totals, or one `Items sync failed` error. |
| SyncRunner.RunSync | apps/sync/src/sync-runner.ts:15-134 | The calls made and the result returned (all four counts and the errors) are those of the run's specification: `SyncCalls` and `SyncOutcome`, whose properties the lemmas below state. |
| SyncRunner.StatsCallsKinds | apps/sync/src/sync-runner.ts:64-112 | The stats phase starts with `startSync`, never touches items or cleanup, and calls `abortSync` iff it failed after a truthy version. |
| SyncRunner.ItemsCallsKinds | apps/sync/src/sync-runner.ts:29-61 | The calls before the stats phase include no session call and no cleanup, and post the extracted items iff neither `statsOnly` nor a dry run. |
| SyncRunner.SyncPrecheckAndDryRun | apps/sync/src/sync-runner.ts:30-36 | Outside a dry run, an unfinished crawl gives exactly one error and zero counts, and nothing else is called. A dry run calls no client method and no cleanup, and reports nothing. |
| SyncRunner.SyncPhasesSelected | apps/sync/src/sync-runner.ts:39-64 | The stats session is opened iff the run passed the pre-check and is neither `itemsOnly` nor dry. The items are posted iff it passed and is neither `statsOnly` nor dry, and only the extracted items are posted. |
| SyncRunner.SyncCleanup | apps/sync/src/sync-runner.ts:115-131 | Cleanup runs, as the last call, iff nothing failed, items-only runs included. Then the only error is a failed cleanup's. |
| SyncRunner.SyncAbort | apps/sync/src/sync-runner.ts:100-110 | The session is aborted iff it was opened with a truthy version and then a step failed. |
| SyncRunner.SyncErrors | apps/sync/src/sync-runner.ts:55-131 | The items error comes first. The stats error follows it, since an items failure does not stop the stats phase. An `Abort failed` error follows iff the abort threw. A run reports no error iff it is a dry run or every phase it ran returned normally, cleanup included. |
| ItemsRoute.ItemCheckAccepts | apps/writer/src/routes/items.ts:34-44 | An item passes the checks iff it has a non-empty string `id` and `name` and a number `slotId` in 1..5; a `null` item makes the handler throw. |
| ItemsRoute.ValidateItems | apps/writer/src/routes/items.ts:34-44 | The error is the first failing check of the first failing item. |
| ItemsRoute.NoErrorAllValid | apps/writer/src/routes/items.ts:34-44 | A validation that gets through leaves only valid items. |
| ItemsRoute.InsertIgnoringAppend | apps/writer/src/routes/items.ts:58-61 | Inserting in batches is inserting the rows one after another. |
| ItemsRoute.InsertIgnoringGrows | apps/writer/src/routes/items.ts:59 | The insert keeps the old rows in front, adds at most one row per request row, and every added row is a request row. |
| ItemsRoute.InsertIgnoringIds | apps/writer/src/routes/items.ts:59 | After the insert, the ids present are exactly the old ids plus the requested ones. |
| ItemsRoute.InsertIgnoringUnique | apps/writer/src/routes/items.ts:59 | An insert into a table with unique ids leaves the ids unique. |
| ItemsRoute.InsertIgnoringAdds | apps/writer/src/routes/items.ts:59 | The insert keeps the old rows, adds only request rows, ends with every requested id present, and keeps ids unique. |
| ItemsRoute.InsertIgnoringKnown | apps/writer/src/routes/items.ts:59 | Rows whose ids are all present insert nothing. |
| ItemsRoute.InsertIgnoringIdempotent | apps/writer/src/routes/items.ts:59 | Posting the same items again inserts nothing. |
| ItemsRoute.BatchesFitBindLimit | apps/writer/src/routes/items.ts:8-9 | Every batch of 300 rows × 3 columns fits the 999 bind variables. |
| ItemsRoute.InsertBatch | apps/writer/src/routes/items.ts:59-60 | One batch: ON CONFLICT DO NOTHING, and `changes` is the number of rows added. |
| ItemsRoute.InsertBatches | apps/writer/src/routes/items.ts:55-61 | The batch loop inserts all rows and totals their changes. |
| ItemsRoute.PostItems | apps/writer/src/routes/items.ts:27-70 | 400 on a missing `items` array or the first invalid item, with nothing written. Otherwise every row goes in, ignoring known ids, with `skipped = items.length - inserted`. |
| UsageRoute.UsageCheckAccepts | apps/writer/src/routes/usage.ts:25-35 | An entry passes iff it has a number `slotId` in 1..5, a non-empty string `itemId`, and a number `usageCount` ≥ 0. |
| UsageRoute.ValidateUsage | apps/writer/src/routes/usage.ts:25-35 | The error is the first failing check of the first failing entry. |
| UsageRoute.NoErrorAllValid | apps/writer/src/routes/usage.ts:25-35 | A validation that gets through leaves only valid entries. |
| UsageRoute.KeyTakenAppend | apps/writer/src/routes/usage.ts:42-47 | A key is taken after an insert iff it was taken before or is the inserted row's key. |
| UsageRoute.InsertEachShape | apps/writer/src/routes/usage.ts:39-49 | The loop leaves the old rows plus a prefix of the request's rows, in order. It completes iff every row is in, and stops only at a row whose key is taken. |
| UsageRoute.InsertEachUnique | packages/shared/src/d1-schema.ts:61 | The loop keeps the usage primary key unique. |
| UsageRoute.FreshKeysAllInserted | apps/writer/src/routes/usage.ts:39-49 | Rows with distinct keys, none already taken, all go in. |
| UsageRoute.InsertRows | apps/writer/src/routes/usage.ts:39-49 | The insert loop is the specified one; `inserted` counts every row when it completes. |
| UsageRoute.PostUsage | apps/writer/src/routes/usage.ts:12-57 | 400 on a missing version, before the body is read, and on a missing array or the first invalid entry, with nothing written. Otherwise one row per entry, in order, tagged with the version, and `inserted` is the number of entries. |
| UsageRoute.ClientUsageRejected | apps/sync/src/worker-client.ts:201 | A non-empty usage post from the client carries no `slotId`, so the route rejects it with the slot-id error. |
| PairsRoute.SlotPairAccepted | apps/writer/src/routes/pairs.ts:44-46 | The slot-pair test accepts exactly the four slot-pair names. |
| PairsRoute.PairCheckValid | apps/writer/src/routes/pairs.ts:43-59 | The per-pair checks pass iff the pair is an object with a known slot-pair name, non-empty string item ids, a `pairCount` ≥ 0 and a `rank` in 1..10. |
| PairsRoute.PairCheckAccepts | apps/writer/src/routes/pairs.ts:43-59 | A pair passes iff its slot pair is a known name, `itemIdA` and `itemIdB` are non-empty strings, `pairCount` ≥ 0, and `rank` is in 1..10. |
| PairsRoute.ValidatePairs | apps/writer/src/routes/pairs.ts:43-59 | The error is the first failing check of the first failing pair. |
| PairsRoute.NoErrorAllValid | apps/writer/src/routes/pairs.ts:43-59 | A validation that gets through leaves only valid pairs. |
| PairsRoute.ValuesCarryVersion | apps/writer/src/routes/pairs.ts:63-70 | Every row carries the query's version and a slot-pair name. |
| PairsRoute.FitKeepsUnique | packages/shared/src/d1-schema.ts:93 | A batch that fits keeps the pairs primary key unique. |
| PairsRoute.RunBatchesTable | apps/writer/src/routes/pairs.ts:76-79 | After the loop, the table is the old one followed by the whole batches before the failing one. All batches went in iff none failed. |
| PairsRoute.RunBatchesUnique | apps/writer/src/routes/pairs.ts:76-79 | The batch loop keeps the table's primary key (version, slot pair, A item, rank) unique. |
| PairsRoute.RunBatchesShape | apps/writer/src/routes/pairs.ts:76-79 | The table is the old one followed by the whole batches before the failing one, keys stay unique, and a complete run holds all the rows. |
| PairsRoute.FallbackCountsRows | apps/writer/src/routes/pairs.ts:20-24 | When the driver reports no count, each batch counts as its length, so `inserted` is the number of rows. |
| PairsRoute.BatchesFitBindLimit | apps/writer/src/routes/pairs.ts:9-10 | Every batch of 150 rows × 6 columns fits the 999 bind variables. |
| PairsRoute.InsertBatches | apps/writer/src/routes/pairs.ts:73-79 | The batch loop is the specified one, stopping at the first statement that throws. |
| PairsRoute.PostPairs | apps/writer/src/routes/pairs.ts:30-87 | 400 on a missing version, a missing array or the first invalid pair, with nothing written. Otherwise the batches go in with the summed changes. |
| IconFetcher.PageUrlRoundTrip | apps/scraper/src/icon-fetcher.ts:37-39 | The page URL is the prefix, the id, then "/", and it gives the id back, so distinct items have distinct pages. |
| IconFetcher.DivideAs | apps/scraper/src/icon-fetcher.ts:45-49 | A split `q * d + r` with `0 <= r < d` is the floor division. |
| IconFetcher.FormatElapsedUnits | apps/scraper/src/icon-fetcher.ts:44-51 | "Hh Mm" from an hour on, "Mm Ss" from a minute on, "Ss" below, with floor divisions. |
| IconFetcher.MissingRows | apps/scraper/src/icon-fetcher.ts:60-63 | The selected rows are exactly the rows without an icon, in table order. |
| IconFetcher.Capped | apps/scraper/src/icon-fetcher.ts:65 | The limit caps the rows; a limit of 0 or none leaves every row. |
| IconFetcher.ApplyIcons | apps/scraper/src/icon-fetcher.ts:88-123 | The updates keep the table's size. |
| IconFetcher.Fetched | apps/scraper/src/icon-fetcher.ts:104-122 | At most one fetched item per item. |
| IconFetcher.FetchedCountsStored | apps/scraper/src/icon-fetcher.ts:104-122 | All items count as fetched iff every icon was stored, and none iff none was. |
| IconFetcher.ApplyIconsChangesOnlyIcons | apps/scraper/src/icon-fetcher.ts:121 | Only a row's icon URL changes, and only to the icon parsed for an item with that row's id. |
| IconFetcher.ApplyIconsStoresEveryIcon | apps/scraper/src/icon-fetcher.ts:121 | Every parsed icon is stored in its item's row. |
| IconFetcher.UpdateIcons | apps/scraper/src/icon-fetcher.ts:88-123 | The loop requests each item's page and stores the icons, with `fetched + failed = total`. |
| IconFetcher.FetchMissingIcons | apps/scraper/src/icon-fetcher.ts:56-130 | `total` is the capped number of icon-less items. Nothing is fetched when there are none, and in a dry run `skipped = total`. Otherwise `fetched + failed = total`, `skipped = 0`, and only icons are written. |
| Repository.ValidDataAppend | apps/scraper/src/repository.ts:37 | Filtering a concatenation filters each part. |
| Repository.ValidDataKeeps | apps/scraper/src/repository.ts:37 | The filter keeps exactly the entries with an item, and all of them when no slot is empty. |
| Repository.SaveOutcome | apps/scraper/src/repository.ts:35-71 | With no valid entries: success, count 0, and no insert. Otherwise one insert of one row per valid entry, in order, with the slot's id. Success reports that many rows; failure reports 0 with the error's message or 'Unknown database error'. |

## Left out

- `formatProgress` in `sync-runner.ts` is not modelled: it rounds a float percentage, and an integer model would disagree at .5 boundaries.
- The icon back-filler's ETA is not modelled, nor any console or stdout output: they read the clock and use float averages.
- The HTML parsers (`parsers/*.ts`) are oracles: the listing walk and the icon loop receive their outputs.
- `progress.ts` and `progress-repository.ts` are not part of this model. The progress store is a map with upsert by crawler name.
- The search-key generator is not part of this model. The keys come as a sequence; only their origin indices matter.
- HTTP transport, Hono request plumbing and drizzle execution are not modelled. Tables are sequences, and responses are oracle answers.
- Sleeps are not taken: only the delays requested are recorded.
- The `onProgress` callbacks of `runSync` are not modelled: they report progress and change nothing.
- Shuffle.ShuffleWithSeed: the seed is a 32-bit pattern, so a seed outside the 32-bit range is not modelled.
- Shuffle.SwapIndex: equals `Math.floor(rng() * (i + 1))` on exact reals, not on doubles. The two agree for arrays shorter than 2^20.
- Aggregator: ties in `ROW_NUMBER() OVER (... ORDER BY pair_count DESC)` are broken by a fixed insertion sort; the database's tie order is unspecified.
- Aggregator: string order is code-point order, not a database collation. The order in which GROUP BY returns groups is modelled as first appearance.
- Aggregator.IsCrawlComplete: `aggregator.ts:95` reads `result[0].progress`, but the schema has flat columns. The model reads the flat `lastCompletedIndex` and `totalKeys`.
- Aggregator: `SLOT_PAIRS` and `SLOT_PAIR_CONFIG` are not part of this model's source files. The slot pairs head-body, body-hands, body-legs and legs-feet and their slots are taken from how they are used.
- Json: numbers are exact reals, not doubles. A body that is not valid JSON makes Hono answer 500, and is not modelled.
- WriterDb: the exact text of the driver's constraint error is not modelled. A failed insert reports the fixed message `ConstraintFailed`.
- WorkerClient.ChunkSizesOf: a chunk size passed explicitly as `undefined` is not modelled. `chunk` with a size of 0 never ends, so the post methods require positive sizes.
- WorkerClient: the request bodies of `startSync` (`{}`) and the request headers are not modelled. The fetch oracle sees the URL, not the body.
- SyncRunner: the aggregator's methods never throw in the model. Their results are supplied values.
- Crawler.Crawler.Start: `progress.load`, `listFetcher.fetchAllCharacterIds`, `characterExists`, `scraper.scrape` and `progress.save` never throw in the model; they are total oracles. In `crawler.ts` (lines 79, 98, 104, 112 and 135) none of them is inside a `try`, so a rejection aborts `start()`. The counters are then left half updated and the current key gets no checkpoint. The model does not capture that.
- IconFetcher.UpdateIcons: the `db.update` of `icon-fetcher.ts:121` never throws in the model. In the source a rejection aborts the loop, so later items are not fetched and no result is returned.
- RetryHttpClient.MergeOverridesSuppliedFields: a field passed explicitly as `undefined` is not modelled. Such a field overrides the default in the spread of `retry-http-client.ts:58-61`. With `maxRetries: undefined`, `attempt < undefined - 1` is false and exactly one call is made. With `retryableStatusCodes: undefined`, the `includes` call throws.
- CharacterListFetcher.MergeConfigFields: a field passed explicitly as `undefined` is not modelled. Such a field overrides the default in the spread of `character-list-fetcher.ts:47-50`. With `maxPages: undefined`, `page > undefined` is false and the page cap is gone. With `minLevel: undefined`, `level >= undefined` is false and the first character ends the walk.
- IconFetcher.FetchMissingIcons: a negative `limit` is not modelled (the limit is a `nat`), and `formatElapsed` takes whole milliseconds.
- Tests that call `postUsage`/`postPairs` without a version, or expect the name 'Unknown', disagree with the code. The model follows the code.
