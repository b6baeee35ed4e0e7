/**
 * The crawl orchestrator (`createCrawler`). `start` walks the search keys in
 * the order the key generator returns them (shuffled), skips every key whose
 * origin index lies below the resume threshold, lists the characters of each
 * remaining key, classifies each character as skipped, processed or an error,
 * and saves a progress checkpoint after every key.
 *
 * The dependencies are oracles. The list fetcher answers a key with the ids
 * it lists (the walk `CharacterListFetcher` models). `characterExists` and
 * `scrape` talk to a database that the crawl itself fills, so they are
 * indexed by the visit number: the `n`-th character looked at during one
 * `start` (from 0) is answered by `characterExists(id, n)` and, when scraped, by
 * `scrape(id, n)`.
 */
module Crawler {
  import opened Common

  /** A search key; only its origin index (its position before the shuffle) matters to the crawl. */
  datatype SearchKey = SearchKey(index: int)

  datatype CrawlerStats = CrawlerStats(
    processedKeys: int, totalKeys: int, processedCharacters: int, skippedCharacters: int, errors: int)

  const ZeroStats: CrawlerStats := CrawlerStats(0, 0, 0, 0, 0)

  /** What a scrape of one character reports: whether it worked and how many glamour rows it saved. */
  datatype ScrapeResult = ScrapeResult(success: bool, savedCount: int)

  /** A row of the progress table, as the crawl saves it. */
  datatype ProgressData = ProgressData(crawlerName: string, lastCompletedIndex: int, totalKeys: int, processedCharacters: int)

  /** The injected dependencies other than the progress store. */
  datatype Deps = Deps(
    listCharacters: SearchKey -> seq<string>,
    characterExists: (string, nat) -> bool,
    scrape: (string, nat) -> ScrapeResult)

  /** How one listed character is counted. */
  datatype Outcome = Skipped | Processed | Failed

  /** The classification of a character: existing, or scraped with nothing saved, is skipped. */
  function Classify(existing: bool, r: ScrapeResult): Outcome {
    if existing then Skipped
    else if !r.success then Failed
    else if r.savedCount > 0 then Processed
    else Skipped
  }

  /** Increment the one counter an outcome names. */
  function Count(s: CrawlerStats, o: Outcome): CrawlerStats {
    match o
    case Skipped => s.(skippedCharacters := s.skippedCharacters + 1)
    case Processed => s.(processedCharacters := s.processedCharacters + 1)
    case Failed => s.(errors := s.errors + 1)
  }

  /** A character is counted as processed exactly when it is new and its scrape saved something. */
  lemma ClassifyCases(existing: bool, r: ScrapeResult)
    ensures Classify(existing, r) == Processed <==> !existing && r.success && r.savedCount > 0
    ensures Classify(existing, r) == Failed <==> !existing && !r.success
    ensures !existing && r.success && r.savedCount == 0 ==> Classify(existing, r) == Skipped
  {
  }

  /** Counting an outcome adds one to exactly one character counter and leaves the key counters alone. */
  lemma CountAddsOne(s: CrawlerStats, o: Outcome)
    ensures var t := Count(s, o);
      && t.processedKeys == s.processedKeys && t.totalKeys == s.totalKeys
      && t.processedCharacters + t.skippedCharacters + t.errors
         == s.processedCharacters + s.skippedCharacters + s.errors + 1
      && t.processedCharacters >= s.processedCharacters
      && t.skippedCharacters >= s.skippedCharacters
      && t.errors >= s.errors
  {
  }

  // ---------------------------------------------------------------------------
  // The specification of one crawl
  // ---------------------------------------------------------------------------

  /** The counters, the number of characters looked at, and the visits at which `scrape` was called. */
  datatype Tally = Tally(stats: CrawlerStats, visits: nat, scrapes: seq<nat>)

  /** One character: check existence, scrape only a new one, and count the outcome. */
  function Visit(deps: Deps, t: Tally, id: string): Tally {
    var n := t.visits;
    if deps.characterExists(id, n) then Tally(Count(t.stats, Skipped), n + 1, t.scrapes)
    else Tally(Count(t.stats, Classify(false, deps.scrape(id, n))), n + 1, t.scrapes + [n])
  }

  /** The characters of one key, visited in order. */
  function VisitAll(deps: Deps, t: Tally, ids: seq<string>): Tally
    decreases |ids|
  {
    if ids == [] then t else Visit(deps, VisitAll(deps, t, ids[..|ids| - 1]), ids[|ids| - 1])
  }

  /** The tally of a crawl so far and the checkpoints it saved, in order. */
  datatype CrawlState = CrawlState(tally: Tally, saves: seq<ProgressData>)

  /** One key: skipped when below the threshold, otherwise its characters, one more processed key and a checkpoint. */
  function KeyStep(name: string, threshold: int, deps: Deps, c: CrawlState, key: SearchKey): CrawlState {
    if key.index < threshold then c
    else
      var t := VisitAll(deps, c.tally, deps.listCharacters(key));
      var s := t.stats.(processedKeys := t.stats.processedKeys + 1);
      CrawlState(t.(stats := s), c.saves + [ProgressData(name, key.index, s.totalKeys, s.processedCharacters)])
  }

  /** The keys, in the order given. */
  function KeySteps(name: string, threshold: int, deps: Deps, c: CrawlState, keys: seq<SearchKey>): CrawlState
    decreases |keys|
  {
    if keys == [] then c else KeyStep(name, threshold, deps, KeySteps(name, threshold, deps, c, keys[..|keys| - 1]), keys[|keys| - 1])
  }

  /** The resume threshold: one past the stored checkpoint, or 0 when nothing is stored. */
  function Threshold(stored: Option<ProgressData>): (t: int)
    ensures stored.None? ==> t == 0
    ensures stored.Some? ==> t == stored.value.lastCompletedIndex + 1
  {
    if stored.Some? then stored.value.lastCompletedIndex + 1 else 0
  }

  /** The counters a non-dry run starts from: the previous ones with `totalKeys` set, and the stored character count on resume. */
  function Resumed(stats: CrawlerStats, totalKeys: int, stored: Option<ProgressData>): CrawlerStats {
    var s := stats.(totalKeys := totalKeys);
    if stored.Some? then s.(processedCharacters := stored.value.processedCharacters) else s
  }

  /** The keys a crawl works on: those whose origin index is at least the threshold, in iteration order. */
  function Pending(keys: seq<SearchKey>, threshold: int): (p: seq<SearchKey>)
    ensures |p| <= |keys|
    ensures forall k :: k in p ==> k in keys && k.index >= threshold
    ensures forall j :: 0 <= j < |keys| && keys[j].index >= threshold ==> keys[j] in p
    decreases |keys|
  {
    if keys == [] then []
    else
      var init := keys[..|keys| - 1];
      var rest := Pending(init, threshold);
      assert forall j :: 0 <= j < |init| ==> init[j] == keys[j];
      if keys[|keys| - 1].index < threshold then rest else rest + [keys[|keys| - 1]]
  }

  /** The number of characters listed for a sequence of keys. */
  function Listed(deps: Deps, keys: seq<SearchKey>): nat
    decreases |keys|
  {
    if keys == [] then 0 else Listed(deps, keys[..|keys| - 1]) + |deps.listCharacters(keys[|keys| - 1])|
  }

  // ---------------------------------------------------------------------------
  // Properties of the specification
  // ---------------------------------------------------------------------------

  /**
   * Visiting characters adds one to exactly one of the three character
   * counters per character, touches no key counter, and scrapes only
   * characters the database did not have yet, in visit order.
   */
  lemma {:induction false} VisitAllCounts(deps: Deps, t: Tally, ids: seq<string>)
    ensures var r := VisitAll(deps, t, ids);
      && r.visits == t.visits + |ids|
      && r.stats.processedKeys == t.stats.processedKeys && r.stats.totalKeys == t.stats.totalKeys
      && r.stats.processedCharacters + r.stats.skippedCharacters + r.stats.errors
         == t.stats.processedCharacters + t.stats.skippedCharacters + t.stats.errors + |ids|
      && |r.scrapes| >= |t.scrapes| && r.scrapes[..|t.scrapes|] == t.scrapes
      && forall j :: |t.scrapes| <= j < |r.scrapes| ==>
           t.visits <= r.scrapes[j] < r.visits && !deps.characterExists(ids[r.scrapes[j] - t.visits], r.scrapes[j])
    decreases |ids|
  {
    if ids != [] {
      var before := ids[..|ids| - 1];
      VisitAllCounts(deps, t, before);
      var m := VisitAll(deps, t, before);
      var n := m.visits;
      assert forall j :: |t.scrapes| <= j < |m.scrapes| ==> ids[m.scrapes[j] - t.visits] == before[m.scrapes[j] - t.visits];
      if deps.characterExists(ids[|ids| - 1], n) {
        CountAddsOne(m.stats, Skipped);
      } else {
        CountAddsOne(m.stats, Classify(false, deps.scrape(ids[|ids| - 1], n)));
        assert (m.scrapes + [n])[..|t.scrapes|] == m.scrapes[..|t.scrapes|];
      }
    }
  }

  /**
   * The crawl over the keys: the checkpoints are exactly the pending keys, in
   * iteration order, each recording that key's own index; `processedKeys` grows
   * by their number; every listed character of a pending key is counted once.
   */
  lemma {:induction false} KeyStepsCheckpoints(name: string, threshold: int, deps: Deps, c: CrawlState, keys: seq<SearchKey>)
    ensures var r := KeySteps(name, threshold, deps, c, keys);
      var p := Pending(keys, threshold);
      && |r.saves| == |c.saves| + |p|
      && r.saves[..|c.saves|] == c.saves
      && (forall j :: 0 <= j < |p| ==>
            r.saves[|c.saves| + j].lastCompletedIndex == p[j].index && r.saves[|c.saves| + j].crawlerName == name)
      && r.tally.stats.processedKeys == c.tally.stats.processedKeys + |p|
      && r.tally.stats.totalKeys == c.tally.stats.totalKeys
      && r.tally.visits == c.tally.visits + Listed(deps, p)
      && r.tally.stats.processedCharacters + r.tally.stats.skippedCharacters + r.tally.stats.errors
         == c.tally.stats.processedCharacters + c.tally.stats.skippedCharacters + c.tally.stats.errors + Listed(deps, p)
    decreases |keys|
  {
    if keys != [] {
      var before := keys[..|keys| - 1];
      var key := keys[|keys| - 1];
      KeyStepsCheckpoints(name, threshold, deps, c, before);
      var m := KeySteps(name, threshold, deps, c, before);
      var pb := Pending(before, threshold);
      if key.index >= threshold {
        VisitAllCounts(deps, m.tally, deps.listCharacters(key));
        var p := Pending(keys, threshold);
        assert p == pb + [key];
        assert p[..|p| - 1] == pb;
        var r := KeySteps(name, threshold, deps, c, keys);
        assert r.saves == m.saves + [r.saves[|r.saves| - 1]];
        assert r.saves[..|c.saves|] == m.saves[..|c.saves|];
      } else {
        assert Pending(keys, threshold) == pb;
        assert KeySteps(name, threshold, deps, c, keys) == m;
      }
    }
  }

  /** The stored checkpoint after a crawl that saved anything is the key iterated last, not the largest index done. */
  lemma LastCheckpointIsLastPending(name: string, threshold: int, deps: Deps, c: CrawlState, keys: seq<SearchKey>)
    requires Pending(keys, threshold) != []
    ensures var r := KeySteps(name, threshold, deps, c, keys);
      var p := Pending(keys, threshold);
      |r.saves| > 0 && r.saves[|r.saves| - 1].lastCompletedIndex == p[|p| - 1].index
  {
    KeyStepsCheckpoints(name, threshold, deps, c, keys);
  }

  /**
   * Resume by origin index under a shuffled order skips keys that were never
   * processed: with keys iterated as index 5 then index 3, a crawl stopped after
   * the first key stores index 5, and the next run's threshold 6 leaves key 3
   * out although no run ever processed it.
   */
  lemma ResumeSkipsUnprocessedKey(name: string)
    ensures var keys := [SearchKey(5), SearchKey(3)];
      var stored := ProgressData(name, 5, 2, 0);
      && Pending(keys[..1], 0) == [SearchKey(5)]
      && Threshold(Some(stored)) == 6
      && Pending(keys, Threshold(Some(stored))) == []
  {
    var keys := [SearchKey(5), SearchKey(3)];
    assert keys[..1] == [SearchKey(5)] && keys[..1][..0] == [];
  }

  // ---------------------------------------------------------------------------
  // The progress store and the crawler
  // ---------------------------------------------------------------------------

  /** The progress table as a map from crawler name to its row; `save` is an upsert. */
  class ProgressStore {
    var rows: map<string, ProgressData>
    /** Every save, in order. */
    ghost var saved: seq<ProgressData>

    constructor ()
      ensures rows == map[] && saved == []
    {
      rows := map[];
      saved := [];
    }

    /** `load(crawlerName)`: the stored row, or none. */
    method Load(crawlerName: string) returns (p: Option<ProgressData>)
      ensures p.Some? <==> crawlerName in rows
      ensures p.Some? ==> p.value == rows[crawlerName]
    {
      p := if crawlerName in rows then Some(rows[crawlerName]) else None;
    }

    /** `save(data)`: insert, or replace the row with the same crawler name. */
    method Save(data: ProgressData)
      modifies this
      ensures rows == old(rows)[data.crawlerName := data]
      ensures saved == old(saved) + [data]
    {
      rows := rows[data.crawlerName := data];
      saved := saved + [data];
    }
  }

  /** The rows after a sequence of saves, each an upsert keyed by crawler name. */
  function AfterSaves(rows: map<string, ProgressData>, saves: seq<ProgressData>): map<string, ProgressData>
    decreases |saves|
  {
    if saves == [] then rows
    else
      var last := saves[|saves| - 1];
      AfterSaves(rows, saves[..|saves| - 1])[last.crawlerName := last]
  }

  /** When every save is under one name, the table ends with the last save for that name and nothing else changed. */
  lemma {:induction false} AfterSavesOneName(rows: map<string, ProgressData>, name: string, saves: seq<ProgressData>)
    requires saves != []
    requires forall j :: 0 <= j < |saves| ==> saves[j].crawlerName == name
    ensures AfterSaves(rows, saves) == rows[name := saves[|saves| - 1]]
    decreases |saves|
  {
    var before := saves[..|saves| - 1];
    if before != [] {
      AfterSavesOneName(rows, name, before);
    }
  }

  class Crawler {
    const crawlerName: string
    const dryRun: bool
    /** What `keyGenerator.generateAll()` returns: the keys in their shuffled order. */
    const keys: seq<SearchKey>
    const deps: Deps
    const progress: ProgressStore
    var stats: CrawlerStats
    /** The visits at which `scrape` was called during the latest `start`. */
    ghost var scrapes: seq<nat>

    /** `createCrawler(config, deps)`: all counters start at 0. */
    constructor (crawlerName: string, dryRun: bool, keys: seq<SearchKey>, deps: Deps, progress: ProgressStore)
      ensures this.crawlerName == crawlerName && this.dryRun == dryRun && this.keys == keys
      ensures this.deps == deps && this.progress == progress
      ensures stats == ZeroStats && scrapes == []
    {
      this.crawlerName := crawlerName;
      this.dryRun := dryRun;
      this.keys := keys;
      this.deps := deps;
      this.progress := progress;
      stats := ZeroStats;
      scrapes := [];
    }

    /**
     * `start()`. A dry run only sets `totalKeys`. Otherwise the counters,
     * the scrape calls and the checkpoints are those of `KeySteps` from the
     * resumed counters, and each checkpoint is upserted into the progress table.
     */
    method Start() returns (result: CrawlerStats)
      modifies this, progress
      ensures result == stats
      ensures dryRun ==> stats == old(stats).(totalKeys := |keys|) && scrapes == old(scrapes)
      ensures dryRun ==> progress.rows == old(progress.rows) && progress.saved == old(progress.saved)
      ensures !dryRun ==>
        var stored := if crawlerName in old(progress.rows) then Some(old(progress.rows)[crawlerName]) else None;
        var r := KeySteps(crawlerName, Threshold(stored), deps,
                          CrawlState(Tally(Resumed(old(stats), |keys|, stored), 0, []), []), keys);
        && stats == r.tally.stats
        && scrapes == r.tally.scrapes
        && progress.saved == old(progress.saved) + r.saves
        && progress.rows == AfterSaves(old(progress.rows), r.saves)
    {
      stats := stats.(totalKeys := |keys|);
      if dryRun {
        return stats;
      }
      var existing := progress.Load(crawlerName);
      var startIndex := if existing.Some? then existing.value.lastCompletedIndex + 1 else 0;
      if existing.Some? {
        stats := stats.(processedCharacters := existing.value.processedCharacters);
      }
      ghost var c0 := CrawlState(Tally(stats, 0, []), []);
      ghost var savedBefore := progress.saved;
      ghost var rowsBefore := progress.rows;
      var visits := 0;
      scrapes := [];
      for i := 0 to |keys|
        invariant var r := KeySteps(crawlerName, startIndex, deps, c0, keys[..i]);
          && stats == r.tally.stats && visits == r.tally.visits && scrapes == r.tally.scrapes
          && progress.saved == savedBefore + r.saves
          && progress.rows == AfterSaves(rowsBefore, r.saves)
      {
        assert keys[..i + 1][..i] == keys[..i];
        var key := keys[i];
        if key.index < startIndex {
          continue;
        }
        ghost var r := KeySteps(crawlerName, startIndex, deps, c0, keys[..i]);
        visits := CrawlKey(key, visits);
        ghost var r' := KeySteps(crawlerName, startIndex, deps, c0, keys[..i + 1]);
        assert r'.saves == r.saves + [r'.saves[|r'.saves| - 1]];
        assert r'.saves[..|r'.saves| - 1] == r.saves;
      }
      assert keys[..|keys|] == keys;
      result := stats;
    }

    /**
     * The body of the key loop for a key at or above the threshold: visit its
     * characters, count the key, and save the checkpoint for it.
     */
    method CrawlKey(key: SearchKey, visits0: nat) returns (visits: nat)
      modifies this, progress
      ensures var t := VisitAll(deps, Tally(old(stats), visits0, old(scrapes)), deps.listCharacters(key));
        && stats == t.stats.(processedKeys := t.stats.processedKeys + 1)
        && visits == t.visits && scrapes == t.scrapes
      ensures var checkpoint := ProgressData(crawlerName, key.index, stats.totalKeys, stats.processedCharacters);
        && progress.saved == old(progress.saved) + [checkpoint]
        && progress.rows == old(progress.rows)[crawlerName := checkpoint]
    {
      var characterIds := deps.listCharacters(key);
      visits := VisitCharacters(characterIds, visits0);
      stats := stats.(processedKeys := stats.processedKeys + 1);
      progress.Save(ProgressData(crawlerName, key.index, stats.totalKeys, stats.processedCharacters));
    }

    /** The loop over one key's characters. */
    method VisitCharacters(characterIds: seq<string>, visits0: nat) returns (visits: nat)
      modifies this
      ensures var t := VisitAll(deps, Tally(old(stats), visits0, old(scrapes)), characterIds);
        stats == t.stats && visits == t.visits && scrapes == t.scrapes
    {
      ghost var t0 := Tally(stats, visits0, scrapes);
      visits := visits0;
      for j := 0 to |characterIds|
        invariant var t := VisitAll(deps, t0, characterIds[..j]);
          stats == t.stats && visits == t.visits && scrapes == t.scrapes
      {
        assert characterIds[..j + 1][..j] == characterIds[..j];
        var id := characterIds[j];
        var existing := deps.characterExists(id, visits);
        if existing {
          stats := stats.(skippedCharacters := stats.skippedCharacters + 1);
        } else {
          var r := deps.scrape(id, visits);
          scrapes := scrapes + [visits];
          if r.success {
            if r.savedCount > 0 {
              stats := stats.(processedCharacters := stats.processedCharacters + 1);
            } else {
              stats := stats.(skippedCharacters := stats.skippedCharacters + 1);
            }
          } else {
            stats := stats.(errors := stats.errors + 1);
          }
        }
        visits := visits + 1;
      }
      assert characterIds[..|characterIds|] == characterIds;
    }

    /** `getStats()`: a copy of the current counters. */
    method GetStats() returns (s: CrawlerStats)
      ensures s == stats
    {
      s := stats;
    }
  }
}
