/**
 * `runSync`: the three-phase sync of the staging tables to the writer. After
 * a completeness check it posts the items (unversioned), then opens a sync
 * session, posts usage and pairs under its version and commits it, aborting
 * the session when anything after its start fails; when nothing failed it
 * empties the staging tables.
 *
 * The aggregator's query results and the client's answers are supplied in
 * `SyncDeps`; the calls made are returned in order, so that the protocol can
 * be stated about them.
 */
module SyncRunner {
  import opened Common
  import opened Aggregator
  import opened WorkerClient

  datatype SyncOptions = SyncOptions(dryRun: bool, statsOnly: bool, itemsOnly: bool)

  datatype SyncResult = SyncResult(itemsInserted: int, itemsSkipped: int, usageInserted: int, pairsInserted: int, errors: seq<string>)

  /**
   * What the aggregator returns and how the client answers. A client call
   * that throws is a `Failure` with the error message; `commitSync`,
   * `abortSync` and `cleanup` answer `None` when they return normally.
   */
  datatype SyncDeps = SyncDeps(
    crawlComplete: bool,
    items: seq<ExtractedItem>,
    usage: seq<AggregatedUsage>,
    pairs: seq<AggregatedPair>,
    postItems: seq<ExtractedItem> -> Result<Totals, string>,
    startSync: Result<Option<string>, string>,
    postUsage: (Option<string>, seq<AggregatedUsage>) -> Result<int, string>,
    postPairs: (Option<string>, seq<AggregatedPair>) -> Result<int, string>,
    commitSync: Option<string> -> Option<string>,
    abortSync: string -> Option<string>,
    cleanup: Option<string>)

  /** The calls `runSync` makes on the aggregator and on the client. */
  datatype Call =
    | IsCrawlComplete
    | ExtractUniqueItems
    | PostItems(items: seq<ExtractedItem>)
    | StartSync
    | AggregateUsage
    | PostUsage(version: Option<string>, usage: seq<AggregatedUsage>)
    | AggregatePairs
    | PostPairs(version: Option<string>, pairs: seq<AggregatedPair>)
    | CommitSync(version: Option<string>)
    | AbortSync(abortVersion: string)
    | Cleanup

  /** `if (version)`: a string version is truthy unless it is empty. */
  predicate Truthy(version: Option<string>) {
    version.Some? && version.value != ""
  }

  const NotFinishedMessage: string := "Scraper not finished yet, skipping sync"

  /** The versioned stats sync succeeds: start, usage, pairs and commit all return normally. */
  predicate StatsSucceed(deps: SyncDeps) {
    var v := deps.startSync;
    && v.Success?
    && deps.postUsage(v.value, deps.usage).Success?
    && deps.postPairs(v.value, deps.pairs).Success?
    && deps.commitSync(v.value).None?
  }

  /** The message of the first of start, usage, pairs and commit to throw. */
  function StatsError(deps: SyncDeps): string
    requires !StatsSucceed(deps)
  {
    var v := deps.startSync;
    if v.Failure? then v.error
    else if deps.postUsage(v.value, deps.usage).Failure? then deps.postUsage(v.value, deps.usage).error
    else if deps.postPairs(v.value, deps.pairs).Failure? then deps.postPairs(v.value, deps.pairs).error
    else deps.commitSync(v.value).value
  }

  /** The count `postUsage` reported, when it was called and returned; 0 otherwise. */
  function UsageInserted(deps: SyncDeps): int {
    var v := deps.startSync;
    if v.Success? && deps.postUsage(v.value, deps.usage).Success? then deps.postUsage(v.value, deps.usage).value else 0
  }

  /** The count `postPairs` reported, when it was called and returned; 0 otherwise. */
  function PairsInserted(deps: SyncDeps): int {
    var v := deps.startSync;
    if v.Success? && deps.postUsage(v.value, deps.usage).Success? && deps.postPairs(v.value, deps.pairs).Success?
    then deps.postPairs(v.value, deps.pairs).value else 0
  }

  /** The errors the stats phase records: the first failure, then a failed abort of a truthy version. */
  function StatsErrors(deps: SyncDeps): (errors: seq<string>)
    ensures errors == [] <==> StatsSucceed(deps)
  {
    if StatsSucceed(deps) then []
    else
      var v := deps.startSync;
      var aborted := v.Success? && Truthy(v.value) && deps.abortSync(v.value.value).Some?;
      ["Stats sync failed: " + StatsError(deps)] + (if aborted then ["Abort failed: " + deps.abortSync(v.value.value).value] else [])
  }

  /** The errors the items phase records. */
  function ItemsErrors(deps: SyncDeps): (errors: seq<string>)
    ensures errors == [] <==> deps.postItems(deps.items).Success?
  {
    if deps.postItems(deps.items).Success? then [] else ["Items sync failed: " + deps.postItems(deps.items).error]
  }

  /** The calls of the stats phase's `try` block: each step after the start only when the previous one returned. */
  function StatsTriedCalls(deps: SyncDeps): seq<Call> {
    var v := deps.startSync;
    if v.Failure? then [StartSync]
    else
      var u := deps.postUsage(v.value, deps.usage);
      var p := deps.postPairs(v.value, deps.pairs);
      var commit := if p.Failure? then [] else [CommitSync(v.value)];
      var afterUsage := if u.Failure? then [] else [AggregatePairs, PostPairs(v.value, deps.pairs)] + commit;
      [StartSync, AggregateUsage, PostUsage(v.value, deps.usage)] + afterUsage
  }

  /** Whether `abortSync` is among the calls. */
  predicate Aborts(calls: seq<Call>) {
    exists c :: c in calls && c.AbortSync?
  }

  lemma AbortsAppend(a: seq<Call>, b: seq<Call>)
    ensures Aborts(a + b) <==> Aborts(a) || Aborts(b)
  {
    if Aborts(a + b) {
      var c :| c in a + b && c.AbortSync?;
    }
    if Aborts(a) {
      var c :| c in a && c.AbortSync?;
      assert c in a + b;
    }
    if Aborts(b) {
      var c :| c in b && c.AbortSync?;
      assert c in a + b;
    }
  }

  /** The calls of the stats phase: the `try` block, then an abort when it failed after a truthy version. */
  function StatsCalls(deps: SyncDeps): seq<Call> {
    var v := deps.startSync;
    StatsTriedCalls(deps)
    + (if !StatsSucceed(deps) && v.Success? && Truthy(v.value) then [AbortSync(v.value.value)] else [])
  }

  /**
   * The stats phase (the `try` block and its `catch`): it records the errors
   * it caught and the calls it made.
   */
  method StatsPhase(deps: SyncDeps) returns (usageInserted: int, pairsInserted: int, errors: seq<string>, calls: seq<Call>)
    ensures |calls| >= 1 && calls[0] == StartSync
    // it ends without an error exactly when everything up to the commit returned normally
    ensures errors == [] <==> StatsSucceed(deps)
    ensures !StatsSucceed(deps) ==> 1 <= |errors| <= 2 && errors[0] == "Stats sync failed: " + StatsError(deps)
    // commit: at most once, and only after start, usage and pairs have returned
    ensures forall k :: 0 <= k < |calls| && calls[k].CommitSync? ==>
      && deps.startSync.Success? && calls[k] == CommitSync(deps.startSync.value)
      && k == 5 && calls[..k] == [StartSync, AggregateUsage, PostUsage(deps.startSync.value, deps.usage),
                                  AggregatePairs, PostPairs(deps.startSync.value, deps.pairs)]
    // abort: exactly once, with the version, when a failure follows a truthy version, and as the last call
    ensures (exists k :: 0 <= k < |calls| && calls[k].AbortSync?) <==>
      !StatsSucceed(deps) && deps.startSync.Success? && Truthy(deps.startSync.value)
    ensures forall k :: 0 <= k < |calls| && calls[k].AbortSync? ==>
      k == |calls| - 1 && calls[k] == AbortSync(deps.startSync.value.value)
    // a failed start calls nothing else
    ensures deps.startSync.Failure? ==> calls == [StartSync] && errors == ["Stats sync failed: " + deps.startSync.error]
    // a second error only when the abort itself threw
    ensures |errors| == 2 <==>
      !StatsSucceed(deps) && deps.startSync.Success? && Truthy(deps.startSync.value)
      && deps.abortSync(deps.startSync.value.value).Some?
    ensures |errors| == 2 ==> errors[1] == "Abort failed: " + deps.abortSync(deps.startSync.value.value).value
    ensures usageInserted == UsageInserted(deps) && pairsInserted == PairsInserted(deps)
    ensures errors == StatsErrors(deps) && calls == StatsCalls(deps)
    ensures forall c :: c in calls ==> !c.IsCrawlComplete? && !c.ExtractUniqueItems? && !c.PostItems? && !c.Cleanup?
  {
    var version, failure;
    usageInserted, pairsInserted, version, failure, calls := StatsTry(deps);
    errors := [];
    if failure.Some? {
      errors := errors + ["Stats sync failed: " + failure.value];
      if Truthy(version) {
        calls := calls + [AbortSync(version.value)];
        assert calls[|calls| - 1].AbortSync?;
        var a := deps.abortSync(version.value);
        if a.Some? {
          errors := errors + ["Abort failed: " + a.value];
        }
      }
    }
  }

  /**
   * The `try` block of the stats phase: start, usage, pairs and commit, in
   * that order, stopping at the first that throws; it returns the version
   * the start gave and what was thrown.
   */
  method StatsTry(deps: SyncDeps) returns (usageInserted: int, pairsInserted: int, version: Option<string>, failure: Option<string>, calls: seq<Call>)
    ensures |calls| >= 1 && calls[0] == StartSync
    ensures failure.None? <==> StatsSucceed(deps)
    ensures failure.Some? ==> failure.value == StatsError(deps)
    ensures version == if deps.startSync.Success? then deps.startSync.value else None
    ensures forall k :: 0 <= k < |calls| && calls[k].CommitSync? ==>
      && deps.startSync.Success? && calls[k] == CommitSync(deps.startSync.value)
      && k == 5 && calls[..k] == [StartSync, AggregateUsage, PostUsage(deps.startSync.value, deps.usage),
                                  AggregatePairs, PostPairs(deps.startSync.value, deps.pairs)]
    ensures forall c :: c in calls ==> !c.AbortSync? && !c.IsCrawlComplete? && !c.ExtractUniqueItems? && !c.PostItems? && !c.Cleanup?
    ensures deps.startSync.Failure? ==> calls == [StartSync]
    ensures usageInserted == UsageInserted(deps) && pairsInserted == PairsInserted(deps)
    ensures calls == StatsTriedCalls(deps)
  {
    usageInserted, pairsInserted := 0, 0;
    calls := [StartSync];
    version := None;
    failure := None;
    var start := deps.startSync;
    if start.Failure? {
      failure := Some(start.error);
    } else {
      version := start.value;
      calls := calls + [AggregateUsage, PostUsage(version, deps.usage)];
      var u := deps.postUsage(version, deps.usage);
      if u.Failure? {
        failure := Some(u.error);
      } else {
        usageInserted := u.value;
        calls := calls + [AggregatePairs, PostPairs(version, deps.pairs)];
        var p := deps.postPairs(version, deps.pairs);
        if p.Failure? {
          failure := Some(p.error);
        } else {
          pairsInserted := p.value;
          calls := calls + [CommitSync(version)];
          var c := deps.commitSync(version);
          if c.Some? {
            failure := Some(c.value);
          }
        }
      }
    }
  }

  /** The items phase outside a dry run: post the items, catch what it throws. */
  method ItemsPhase(deps: SyncDeps) returns (totals: Totals, errors: seq<string>)
    ensures deps.postItems(deps.items).Success? ==> totals == deps.postItems(deps.items).value && errors == []
    ensures deps.postItems(deps.items).Failure? ==>
      totals == Totals(0, 0) && errors == ["Items sync failed: " + deps.postItems(deps.items).error]
    ensures errors == ItemsErrors(deps)
  {
    var r := deps.postItems(deps.items);
    if r.Success? {
      totals, errors := r.value, [];
    } else {
      totals, errors := Totals(0, 0), ["Items sync failed: " + r.error];
    }
  }

  /** Whether the stats phase runs: neither `itemsOnly` nor a dry run. */
  predicate StatsRuns(options: SyncOptions) {
    !options.itemsOnly && !options.dryRun
  }

  /** Whether the items are posted: neither `statsOnly` nor a dry run. */
  predicate ItemsPosted(options: SyncOptions) {
    !options.statsOnly && !options.dryRun
  }

  /** The errors of the items and stats phases that ran, in that order. */
  function PhaseErrors(deps: SyncDeps, options: SyncOptions): seq<string> {
    (if ItemsPosted(options) then ItemsErrors(deps) else []) + (if StatsRuns(options) then StatsErrors(deps) else [])
  }

  /** Whether the pre-check stops the run: outside a dry run, the crawl is not finished. */
  predicate Unfinished(deps: SyncDeps, options: SyncOptions) {
    !options.dryRun && !deps.crawlComplete
  }

  /** Whether the staging tables are emptied: outside a dry run, when no phase recorded an error. */
  predicate CleanupRuns(deps: SyncDeps, options: SyncOptions) {
    !Unfinished(deps, options) && !options.dryRun && PhaseErrors(deps, options) == []
  }

  /** The calls up to the end of the items part of a run that passed the pre-check. */
  function ItemsCalls(deps: SyncDeps, options: SyncOptions): seq<Call> {
    (if options.dryRun then [] else [IsCrawlComplete])
    + (if options.statsOnly then [] else [ExtractUniqueItems])
    + (if ItemsPosted(options) then [PostItems(deps.items)] else [])
  }

  /** The calls `runSync` makes, in order. */
  function SyncCalls(deps: SyncDeps, options: SyncOptions): seq<Call> {
    if Unfinished(deps, options) then [IsCrawlComplete]
    else
      ItemsCalls(deps, options)
      + (if StatsRuns(options) then StatsCalls(deps) else [])
      + (if CleanupRuns(deps, options) then [Cleanup] else [])
  }

  /** The result `runSync` returns. */
  function SyncOutcome(deps: SyncDeps, options: SyncOptions): SyncResult {
    if Unfinished(deps, options) then SyncResult(0, 0, 0, 0, [NotFinishedMessage])
    else
      var items := if ItemsPosted(options) && deps.postItems(deps.items).Success? then deps.postItems(deps.items).value else Totals(0, 0);
      var stats := StatsRuns(options);
      SyncResult(items.inserted, items.skipped,
                 if stats then UsageInserted(deps) else 0, if stats then PairsInserted(deps) else 0,
                 PhaseErrors(deps, options)
                 + (if CleanupRuns(deps, options) && deps.cleanup.Some? then ["Cleanup failed: " + deps.cleanup.value] else []))
  }

  /** `runSync(deps, options)`: its calls and its result are `SyncCalls` and `SyncOutcome`. */
  method RunSync(deps: SyncDeps, options: SyncOptions) returns (result: SyncResult, calls: seq<Call>)
    ensures calls == SyncCalls(deps, options)
    ensures result == SyncOutcome(deps, options)
  {
    result := SyncResult(0, 0, 0, 0, []);
    calls := [];
    if !options.dryRun {
      calls := calls + [IsCrawlComplete];
      if !deps.crawlComplete {
        result := result.(errors := result.errors + [NotFinishedMessage]);
        return;
      }
    }
    if !options.statsOnly {
      calls := calls + [ExtractUniqueItems];
      if !options.dryRun {
        calls := calls + [PostItems(deps.items)];
        var totals, errors := ItemsPhase(deps);
        result := result.(itemsInserted := totals.inserted, itemsSkipped := totals.skipped, errors := result.errors + errors);
      }
    }
    ghost var itemsCalls := calls;
    assert itemsCalls == ItemsCalls(deps, options);
    assert result.errors == if ItemsPosted(options) then ItemsErrors(deps) else [];
    if !options.itemsOnly && !options.dryRun {
      var usageInserted, pairsInserted, errors, statsCalls := StatsPhase(deps);
      calls := calls + statsCalls;
      result := result.(usageInserted := usageInserted, pairsInserted := pairsInserted, errors := result.errors + errors);
    }
    assert calls == itemsCalls + (if StatsRuns(options) then StatsCalls(deps) else []);
    assert result.errors == PhaseErrors(deps, options);
    if !options.dryRun && result.errors == [] {
      calls := calls + [Cleanup];
      if deps.cleanup.Some? {
        result := result.(errors := result.errors + ["Cleanup failed: " + deps.cleanup.value]);
      }
    }
  }

  /** The kinds of call the stats phase makes: it starts the session and touches neither items nor cleanup. */
  lemma StatsCallsKinds(deps: SyncDeps)
    ensures StatsCalls(deps) != [] && StatsCalls(deps)[0] == StartSync
    ensures forall c :: c in StatsCalls(deps) ==> !c.IsCrawlComplete? && !c.ExtractUniqueItems? && !c.PostItems? && !c.Cleanup?
    ensures Aborts(StatsCalls(deps)) <==> !StatsSucceed(deps) && deps.startSync.Success? && Truthy(deps.startSync.value)
  {
    var v := deps.startSync;
    var tried := StatsTriedCalls(deps);
    assert forall c :: c in tried ==> !c.AbortSync?;
    var abort := if !StatsSucceed(deps) && v.Success? && Truthy(v.value) then [AbortSync(v.value.value)] else [];
    AbortsAppend(tried, abort);
    if abort != [] {
      assert abort[0] in abort;
    }
  }

  /**
   * The pre-check and the dry run: an unfinished crawl is one error, zero
   * counts and no other call; a dry run calls no client method and no
   * cleanup, and reports nothing.
   */
  lemma SyncPrecheckAndDryRun(deps: SyncDeps, options: SyncOptions)
    ensures Unfinished(deps, options) ==>
      SyncOutcome(deps, options) == SyncResult(0, 0, 0, 0, [NotFinishedMessage]) && SyncCalls(deps, options) == [IsCrawlComplete]
    ensures options.dryRun ==>
      && SyncOutcome(deps, options) == SyncResult(0, 0, 0, 0, [])
      && SyncCalls(deps, options) == (if options.statsOnly then [] else [ExtractUniqueItems])
  {
  }

  /** The items part makes no stats call and no cleanup, and posts the extracted items exactly when they are posted. */
  lemma ItemsCallsKinds(deps: SyncDeps, options: SyncOptions)
    ensures forall c :: c in ItemsCalls(deps, options) ==> !c.StartSync? && !c.AbortSync? && !c.Cleanup?
    ensures forall c :: c in ItemsCalls(deps, options) && c.PostItems? ==> c == PostItems(deps.items)
    ensures PostItems(deps.items) in ItemsCalls(deps, options) <==> ItemsPosted(options)
  {
  }

  /** The phases each option selects; the items posted are the extracted ones. */
  lemma SyncPhasesSelected(deps: SyncDeps, options: SyncOptions)
    ensures StartSync in SyncCalls(deps, options) <==> !Unfinished(deps, options) && StatsRuns(options)
    ensures PostItems(deps.items) in SyncCalls(deps, options) <==> !Unfinished(deps, options) && ItemsPosted(options)
    ensures forall c :: c in SyncCalls(deps, options) && c.PostItems? ==> c == PostItems(deps.items)
  {
    if !Unfinished(deps, options) {
      StatsCallsKinds(deps);
      ItemsCallsKinds(deps, options);
      var before := ItemsCalls(deps, options);
      var stats := if StatsRuns(options) then StatsCalls(deps) else [];
      var cleanup := if CleanupRuns(deps, options) then [Cleanup] else [];
      assert SyncCalls(deps, options) == before + stats + cleanup;
      assert forall c :: c in SyncCalls(deps, options) <==> c in before || c in stats || c in cleanup;
      if StatsRuns(options) {
        assert stats[0] in stats;
      }
    }
  }

  /**
   * Cleanup runs, as the last call, exactly when nothing failed, items-only
   * runs included; only its own failure is then reported.
   */
  lemma SyncCleanup(deps: SyncDeps, options: SyncOptions)
    ensures Cleanup in SyncCalls(deps, options) <==>
      && !Unfinished(deps, options) && !options.dryRun
      && (options.statsOnly || deps.postItems(deps.items).Success?)
      && (options.itemsOnly || StatsSucceed(deps))
    ensures Cleanup in SyncCalls(deps, options) ==> SyncCalls(deps, options)[|SyncCalls(deps, options)| - 1] == Cleanup
    ensures Cleanup in SyncCalls(deps, options) ==>
      SyncOutcome(deps, options).errors == if deps.cleanup.Some? then ["Cleanup failed: " + deps.cleanup.value] else []
  {
    if !Unfinished(deps, options) {
      StatsCallsKinds(deps);
      ItemsCallsKinds(deps, options);
      var before := ItemsCalls(deps, options);
      var stats := if StatsRuns(options) then StatsCalls(deps) else [];
      var cleanup := if CleanupRuns(deps, options) then [Cleanup] else [];
      assert SyncCalls(deps, options) == before + stats + cleanup;
      assert Cleanup in SyncCalls(deps, options) <==> cleanup != [];
      assert PhaseErrors(deps, options) == [] <==>
        (options.dryRun || options.statsOnly || deps.postItems(deps.items).Success?)
        && (options.dryRun || options.itemsOnly || StatsSucceed(deps));
    }
  }

  /** The session is aborted exactly when it was opened with a truthy version and then failed. */
  lemma SyncAbort(deps: SyncDeps, options: SyncOptions)
    ensures Aborts(SyncCalls(deps, options)) <==>
      !Unfinished(deps, options) && StatsRuns(options) && !StatsSucceed(deps)
      && deps.startSync.Success? && Truthy(deps.startSync.value)
  {
    StatsCallsKinds(deps);
    if Unfinished(deps, options) {
      assert !Aborts([IsCrawlComplete]);
    } else {
      var before := ItemsCalls(deps, options);
      var stats := if StatsRuns(options) then StatsCalls(deps) else [];
      var cleanup := if CleanupRuns(deps, options) then [Cleanup] else [];
      assert SyncCalls(deps, options) == before + stats + cleanup;
      assert !Aborts(before) && !Aborts(cleanup);
      AbortsAppend(before, stats);
      AbortsAppend(before + stats, cleanup);
    }
  }

  /**
   * The errors of a run that passed the pre-check: the items phase's first,
   * then the stats phase's first failure right after it (an items failure
   * does not stop the stats phase), then a failed abort's; a run reports no
   * error exactly when it is a dry run or every phase it ran, cleanup
   * included, returned normally.
   */
  lemma SyncErrors(deps: SyncDeps, options: SyncOptions)
    requires !Unfinished(deps, options)
    ensures var errors := SyncOutcome(deps, options).errors;
      var itemsFailed := ItemsPosted(options) && deps.postItems(deps.items).Failure?;
      var n := if itemsFailed then 1 else 0;
      && (itemsFailed ==> errors[0] == "Items sync failed: " + deps.postItems(deps.items).error)
      && (StatsRuns(options) && !StatsSucceed(deps) ==>
            && |errors| > n && errors[n] == "Stats sync failed: " + StatsError(deps)
            && (|errors| == n + 2 <==> deps.startSync.Success? && Truthy(deps.startSync.value)
                                        && deps.abortSync(deps.startSync.value.value).Some?))
      && (errors == [] <==>
            || options.dryRun
            || ((options.statsOnly || deps.postItems(deps.items).Success?)
                && (options.itemsOnly || StatsSucceed(deps)) && deps.cleanup.None?))
  {
  }
}
