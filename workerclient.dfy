/**
 * The sync client of the writer service (`createWorkerClient`): every request
 * goes through `fetchWithRetry`, which retries server errors with exponential
 * backoff and gives up at once on an authentication failure; the post
 * operations cut their payload into chunks and send one request per chunk,
 * adding up the counts the writer reports.
 *
 * The network is the oracle `fetch`: `fetch(url, b, i)` is what the `i`-th try
 * (from 0) of the `b`-th request to `url` (from 0) gets, a response or a
 * rejection. Sleeps are reported as the delays requested.
 */
module WorkerClient {
  import opened Common
  import opened Json
  import opened Batching
  import opened Aggregator

  const DefaultItemsChunkSize: int := 500
  const DefaultUsageChunkSize: int := 1000
  const DefaultPairsChunkSize: int := 1000
  const DefaultRetryCount: int := 3
  /** The base of the backoff: 1000 ms, 2000 ms, 4000 ms, … */
  const RetryDelayMs: int := 1000

  datatype ChunkSizes = ChunkSizes(items: int, usage: int, pairs: int)

  datatype PartialChunkSizes = PartialChunkSizes(items: Option<int>, usage: Option<int>, pairs: Option<int>)

  datatype WorkerClientConfig =
    WorkerClientConfig(baseUrl: string, authToken: string, chunkSizes: Option<PartialChunkSizes>, retryCount: Option<int>)

  function Pick(given: Option<int>, default: int): int {
    if given.Some? then given.value else default
  }

  /** `{ ...DEFAULT_CHUNK_SIZES, ...config.chunkSizes }`. */
  function ChunkSizesOf(config: WorkerClientConfig): (sizes: ChunkSizes)
    ensures config.chunkSizes.None? ==> sizes == ChunkSizes(500, 1000, 1000)
    ensures config.chunkSizes.Some? ==>
      && sizes.items == Pick(config.chunkSizes.value.items, 500)
      && sizes.usage == Pick(config.chunkSizes.value.usage, 1000)
      && sizes.pairs == Pick(config.chunkSizes.value.pairs, 1000)
  {
    var d := ChunkSizes(DefaultItemsChunkSize, DefaultUsageChunkSize, DefaultPairsChunkSize);
    if config.chunkSizes.None? then d
    else
      var p := config.chunkSizes.value;
      ChunkSizes(Pick(p.items, d.items), Pick(p.usage, d.usage), Pick(p.pairs, d.pairs))
  }

  /** `config.retryCount ?? 3`. */
  function RetryCountOf(config: WorkerClientConfig): (n: int)
    ensures config.retryCount.None? ==> n == 3
    ensures config.retryCount.Some? ==> n == config.retryCount.value
  {
    Pick(config.retryCount, DefaultRetryCount)
  }

  // ---------------------------------------------------------------------------
  // fetchWithRetry
  // ---------------------------------------------------------------------------

  /** A response of the writer: status, body text, and the fields of its JSON body the client reads. */
  datatype Response = Response(status: nat, text: string, inserted: Option<int>, skipped: Option<int>, version: Option<string>)

  /** What one call of `fetch` does: answer, or reject with an error message. */
  datatype Attempt = Answered(response: Response) | Rejected(message: string)

  /** The network: the answer to try `i` of request `b` to `url`. */
  type Fetch = (string, nat, nat) -> Attempt

  /** `response.ok`. */
  predicate Ok(r: Response) {
    200 <= r.status <= 299
  }

  const UnauthorizedMessage: string := "Unauthorized: Invalid AUTH_TOKEN"
  const RequestFailedMessage: string := "Request failed"

  /** `message.includes(part)`. */
  predicate Contains(message: string, part: string) {
    exists k :: 0 <= k <= |message| && PartAt(message, part, k)
  }

  predicate PartAt(message: string, part: string, k: int) {
    0 <= k <= |message| - |part| && message[k..k + |part|] == part
  }

  /** The body of the `try`: a 401 and a status of 500 or more throw, any other response is returned. */
  function Outcome(a: Attempt): (o: Result<Response, string>)
    ensures o.Success? <==> a.Answered? && a.response.status != 401 && a.response.status < 500
    ensures o.Success? ==> o.value == a.response
    ensures a.Rejected? ==> o == Failure(a.message)
    ensures a.Answered? && a.response.status == 401 ==> o == Failure(UnauthorizedMessage)
  {
    match a
    case Rejected(message) => Failure(message)
    case Answered(r) =>
      if r.status == 401 then Failure(UnauthorizedMessage)
      else if r.status >= 500 then Failure("Server error: " + NatToString(r.status))
      else Success(r)
  }

  /** The `catch` goes on to the next try: the try threw, and not with an authentication error. */
  predicate Retryable(a: Attempt) {
    var o := Outcome(a);
    o.Failure? && !Contains(o.error, "Unauthorized")
  }

  function Pow2(n: nat): nat {
    if n == 0 then 1 else 2 * Pow2(n - 1)
  }

  /** The sleep after a failed try `i` that is not the last one: `1000 * 2 ** i`. */
  function Backoff(i: nat): int {
    RetryDelayMs * Pow2(i)
  }

  /** The result of a `fetchWithRetry`, the number of `fetch` calls it made and the sleeps it requested. */
  datatype Retried = Retried(result: Result<Response, string>, requests: nat, delays: seq<int>)

  /** `fetchWithRetry` from try `i` on, `lastError` being the error of the try before. */
  function RetryFrom(attempts: int, fetch: Fetch, url: string, b: nat, i: nat, lastError: Option<string>): Retried
    decreases if i < attempts then attempts - i else 0
  {
    if i >= attempts then Retried(Failure(if lastError.Some? then lastError.value else RequestFailedMessage), i, [])
    else
      var o := Outcome(fetch(url, b, i));
      if o.Success? || Contains(o.error, "Unauthorized") then Retried(o, i + 1, [])
      else
        var rest := RetryFrom(attempts, fetch, url, b, i + 1, Some(o.error));
        Retried(rest.result, rest.requests, (if i < attempts - 1 then [Backoff(i)] else []) + rest.delays)
  }

  /** `fetchWithRetry(url, options, attempts)` for request `b` to `url`. */
  method FetchWithRetry(attempts: int, fetch: Fetch, url: string, b: nat)
    returns (r: Result<Response, string>, requests: nat, delays: seq<int>)
    ensures Retried(r, requests, delays) == RetryFrom(attempts, fetch, url, b, 0, None)
  {
    var lastError: Option<string> := None;
    delays := [];
    var i := 0;
    while i < attempts
      invariant 0 <= i && (i <= attempts || i == 0)
      invariant var rest := RetryFrom(attempts, fetch, url, b, i, lastError);
        RetryFrom(attempts, fetch, url, b, 0, None) == Retried(rest.result, rest.requests, delays + rest.delays)
      decreases attempts - i
    {
      var o := Outcome(fetch(url, b, i));
      if o.Success? {
        return o, i + 1, delays;
      }
      lastError := Some(o.error);
      if Contains(o.error, "Unauthorized") {
        return o, i + 1, delays;
      }
      ghost var before := delays;
      if i < attempts - 1 {
        delays := delays + [Backoff(i)];
      }
      assert before + ((if i < attempts - 1 then [Backoff(i)] else []) + RetryFrom(attempts, fetch, url, b, i + 1, lastError).delays)
          == delays + RetryFrom(attempts, fetch, url, b, i + 1, lastError).delays;
      i := i + 1;
    }
    r := Failure(if lastError.Some? then lastError.value else RequestFailedMessage);
    requests := i;
  }

  /**
   * The retry loop from try `i` on, when a try remains: it makes at most
   * `attempts` calls in all; every call before the last one threw a retryable
   * error; it stops before the limit only on a response or an authentication
   * error; what it returns or throws is the outcome of the last call; and it
   * sleeps `1000 * 2 ** k` after each failed try `k` except the last.
   */
  lemma {:induction false} RetryShape(attempts: int, fetch: Fetch, url: string, b: nat, i: nat, lastError: Option<string>)
    requires i < attempts
    ensures var out := RetryFrom(attempts, fetch, url, b, i, lastError);
      && i < out.requests <= attempts
      && out.result == Outcome(fetch(url, b, out.requests - 1))
      && (forall k :: i <= k < out.requests - 1 ==> Retryable(fetch(url, b, k)))
      && (out.requests < attempts ==> !Retryable(fetch(url, b, out.requests - 1)))
      && |out.delays| == out.requests - i - 1
      && (forall k :: 0 <= k < |out.delays| ==> out.delays[k] == Backoff(i + k))
    decreases attempts - i
  {
    var o := Outcome(fetch(url, b, i));
    if !(o.Success? || Contains(o.error, "Unauthorized")) {
      if i + 1 < attempts {
        RetryShape(attempts, fetch, url, b, i + 1, Some(o.error));
      }
    }
  }

  /** With no attempts allowed, nothing is fetched and `'Request failed'` is thrown. */
  lemma NoAttempts(attempts: int, fetch: Fetch, url: string, b: nat)
    requires attempts <= 0
    ensures RetryFrom(attempts, fetch, url, b, 0, None) == Retried(Failure("Request failed"), 0, [])
  {
  }

  /** A 401 ends the retry loop after that one request, with the authentication error. */
  lemma UnauthorizedFailsFast(attempts: int, fetch: Fetch, url: string, b: nat)
    requires attempts >= 1 && fetch(url, b, 0).Answered? && fetch(url, b, 0).response.status == 401
    ensures RetryFrom(attempts, fetch, url, b, 0, None) == Retried(Failure("Unauthorized: Invalid AUTH_TOKEN"), 1, [])
  {
    UnauthorizedIsAuthError();
  }

  /** The error a 401 throws is the one the `catch` rethrows at once. */
  lemma UnauthorizedIsAuthError()
    ensures Contains(UnauthorizedMessage, "Unauthorized")
  {
    assert PartAt(UnauthorizedMessage, "Unauthorized", 0);
  }

  /** No character of `s` is an upper-case U: then `s` cannot contain "Unauthorized". */
  lemma NoUnauthorized(s: string)
    requires forall k :: 0 <= k < |s| ==> s[k] != 'U'
    ensures !Contains(s, "Unauthorized")
  {
    forall k | 0 <= k <= |s|
      ensures !PartAt(s, "Unauthorized", k)
    {
      if k < |s| {
        PartAtStart(s, "Unauthorized", k);
      }
    }
  }

  /** A part found at `k` begins with the character at `k`. */
  lemma PartAtStart(message: string, part: string, k: int)
    requires 0 <= k < |message| && |part| > 0
    ensures PartAt(message, part, k) ==> message[k] == part[0]
  {
    if PartAt(message, part, k) {
      assert message[k..k + |part|][0] == message[k];
    }
  }

  /** A server error (status 500 or more) is retried; any other status but 401 is handed back to the caller. */
  lemma StatusHandling(r: Response)
    ensures r.status >= 500 ==> Retryable(Answered(r))
    ensures r.status != 401 && r.status < 500 ==> Outcome(Answered(r)) == Success(r)
    ensures r.status == 401 ==> !Retryable(Answered(r))
  {
    if r.status >= 500 {
      var m := "Server error: " + NatToString(r.status);
      forall k | 0 <= k < |m|
        ensures m[k] != 'U'
      {
        if k >= 14 {
          assert m[k] == NatToString(r.status)[k - 14];
        }
      }
      NoUnauthorized(m);
    }
    if r.status == 401 {
      UnauthorizedIsAuthError();
    }
  }

  // ---------------------------------------------------------------------------
  // Posting in chunks
  // ---------------------------------------------------------------------------

  /** The counts a post operation returns. */
  datatype Totals = Totals(inserted: int, skipped: int)

  /** `${response.status} - ${errorBody}` after a description of what failed. */
  function Failed(what: string, r: Response): string {
    "Failed to " + what + ": " + NatToString(r.status) + " - " + r.text
  }

  /** One chunk's request: the retried fetch, then the `response.ok` check. */
  function BatchResult(what: string, attempts: int, fetch: Fetch, url: string, b: nat): (r: Result<Response, string>)
    ensures r.Success? ==> Ok(r.value)
  {
    var t := RetryFrom(attempts, fetch, url, b, 0, None).result;
    if t.Failure? then t
    else if !Ok(t.value) then Failure(Failed(what, t.value))
    else t
  }

  /** The request of chunk `b`, then the `response.ok` check. */
  method SendBatch(what: string, attempts: int, fetch: Fetch, url: string, b: nat) returns (r: Result<Response, string>)
    ensures r == BatchResult(what, attempts, fetch, url, b)
  {
    var t, _, _ := FetchWithRetry(attempts, fetch, url, b);
    if t.Success? && !Ok(t.value) {
      return Failure(Failed(what, t.value));
    }
    r := t;
  }

  /** The outcome of a post and the number of chunk requests it started. */
  datatype Posted = Posted(result: Result<Totals, string>, sent: nat)

  /** The loop over the first `n` chunks: the counts added up, missing ones as 0, until the first chunk that fails. */
  function PostAll(what: string, attempts: int, fetch: Fetch, url: string, n: nat): Posted
    decreases n
  {
    if n == 0 then Posted(Success(Totals(0, 0)), 0)
    else
      var prev := PostAll(what, attempts, fetch, url, n - 1);
      if prev.result.Failure? then prev
      else
        var r := BatchResult(what, attempts, fetch, url, n - 1);
        if r.Failure? then Posted(Failure(r.error), n)
        else
          var t := prev.result.value;
          Posted(Success(Totals(t.inserted + OrZero(r.value.inserted), t.skipped + OrZero(r.value.skipped))), n)
  }

  /** The counts of chunks `0..n`, added up, missing ones as 0. */
  function SumInserted(what: string, attempts: int, fetch: Fetch, url: string, n: nat): int
    decreases n
  {
    if n == 0 then 0
    else
      var r := BatchResult(what, attempts, fetch, url, n - 1);
      SumInserted(what, attempts, fetch, url, n - 1) + (if r.Success? then OrZero(r.value.inserted) else 0)
  }

  function SumSkipped(what: string, attempts: int, fetch: Fetch, url: string, n: nat): int
    decreases n
  {
    if n == 0 then 0
    else
      var r := BatchResult(what, attempts, fetch, url, n - 1);
      SumSkipped(what, attempts, fetch, url, n - 1) + (if r.Success? then OrZero(r.value.skipped) else 0)
  }

  /** A post succeeds exactly when every chunk does, and then returns the sums of the chunks' counts. */
  lemma {:induction false} PostAllSucceeds(what: string, attempts: int, fetch: Fetch, url: string, n: nat)
    ensures var p := PostAll(what, attempts, fetch, url, n);
      && (p.result.Success? <==> forall b :: 0 <= b < n ==> BatchResult(what, attempts, fetch, url, b).Success?)
      && (p.result.Success? ==>
            p.sent == n && p.result.value == Totals(SumInserted(what, attempts, fetch, url, n), SumSkipped(what, attempts, fetch, url, n)))
    decreases n
  {
    if n > 0 {
      PostAllSucceeds(what, attempts, fetch, url, n - 1);
    }
  }

  /** A failing post stops at its first failing chunk, requests no later chunk, and throws that chunk's error. */
  lemma {:induction false} PostAllFails(what: string, attempts: int, fetch: Fetch, url: string, n: nat)
    requires PostAll(what, attempts, fetch, url, n).result.Failure?
    ensures var p := PostAll(what, attempts, fetch, url, n);
      && 1 <= p.sent <= n
      && (forall b :: 0 <= b < p.sent - 1 ==> BatchResult(what, attempts, fetch, url, b).Success?)
      && BatchResult(what, attempts, fetch, url, p.sent - 1).Failure?
      && p.result.error == BatchResult(what, attempts, fetch, url, p.sent - 1).error
    decreases n
  {
    var prev := PostAll(what, attempts, fetch, url, n - 1);
    if prev.result.Failure? {
      PostAllFails(what, attempts, fetch, url, n - 1);
    } else {
      PostAllSucceeds(what, attempts, fetch, url, n - 1);
    }
  }

  /** The requests of the chunks in order, with the outcome of `PostAll`. */
  method PostBatches(what: string, url: string, bodies: seq<Json>, attempts: int, fetch: Fetch)
    returns (r: Result<Totals, string>, sent: seq<Json>)
    ensures Posted(r, |sent|) == PostAll(what, attempts, fetch, url, |bodies|)
    ensures |sent| <= |bodies| && sent == bodies[..|sent|]
  {
    var inserted, skipped := 0, 0;
    var b := 0;
    while b < |bodies|
      invariant 0 <= b <= |bodies|
      invariant PostAll(what, attempts, fetch, url, b) == Posted(Success(Totals(inserted, skipped)), b)
    {
      var t := SendBatch(what, attempts, fetch, url, b);
      if t.Failure? {
        PostAllStops(what, attempts, fetch, url, b + 1, |bodies|);
        return Failure(t.error), bodies[..b + 1];
      }
      inserted := inserted + OrZero(t.value.inserted);
      skipped := skipped + OrZero(t.value.skipped);
      b := b + 1;
    }
    r, sent := Success(Totals(inserted, skipped)), bodies;
  }

  /** Once a chunk has failed, later chunks change nothing. */
  lemma {:induction false} PostAllStops(what: string, attempts: int, fetch: Fetch, url: string, m: nat, n: nat)
    requires m <= n && PostAll(what, attempts, fetch, url, m).result.Failure?
    ensures PostAll(what, attempts, fetch, url, n) == PostAll(what, attempts, fetch, url, m)
    decreases n - m
  {
    if m < n {
      PostAllStops(what, attempts, fetch, url, m, n - 1);
    }
  }

  /** `{ id, name, slotId }` of an item. */
  function ItemJson(item: ExtractedItem): Json {
    JObj(map["id" := JStr(item.id), "name" := JStr(item.name), "slotId" := JNum(item.slotId as real)])
  }

  /**
   * `{ slotId: item.slotId, itemId, usageCount }` of a usage entry. The entry
   * has no `slotId`, so the field is `undefined` and `JSON.stringify` leaves it
   * out.
   */
  function UsageJson(u: AggregatedUsage): Json {
    JObj(map["itemId" := JStr(u.itemId), "usageCount" := JNum(u.usageCount as real)])
  }

  function PairJson(p: AggregatedPair): Json {
    JObj(map["slotPair" := JStr(p.slotPair), "itemIdA" := JStr(p.itemIdA), "itemIdB" := JStr(p.itemIdB),
             "pairCount" := JNum(p.pairCount as real), "rank" := JNum(p.rank as real)])
  }

  /** The request body of an items chunk. */
  function ItemsBody(batch: seq<ExtractedItem>): Json {
    JObj(map["items" := JArr(seq(|batch|, k requires 0 <= k < |batch| => ItemJson(batch[k])))])
  }

  function UsageBody(batch: seq<AggregatedUsage>): Json {
    JObj(map["usage" := JArr(seq(|batch|, k requires 0 <= k < |batch| => UsageJson(batch[k])))])
  }

  function PairsBody(batch: seq<AggregatedPair>): Json {
    JObj(map["pairs" := JArr(seq(|batch|, k requires 0 <= k < |batch| => PairJson(batch[k])))])
  }

  function ItemsUrl(config: WorkerClientConfig): string {
    config.baseUrl + "/api/items"
  }

  /** The version travels in the query string. */
  function UsageUrl(config: WorkerClientConfig, version: string): string {
    config.baseUrl + "/api/usage?version=" + version
  }

  function PairsUrl(config: WorkerClientConfig, version: string): string {
    config.baseUrl + "/api/pairs?version=" + version
  }

  /** `postItems(items)`: one request per chunk of at most `chunkSizes.items` items. */
  method PostItems(config: WorkerClientConfig, items: seq<ExtractedItem>, fetch: Fetch)
    returns (r: Result<Totals, string>, sent: seq<Json>)
    requires ChunkSizesOf(config).items > 0
    ensures var chunks := Chunks(items, ChunkSizesOf(config).items);
      && Posted(r, |sent|) == PostAll("post items", RetryCountOf(config), fetch, ItemsUrl(config), |chunks|)
      && |sent| <= |chunks| && forall b :: 0 <= b < |sent| ==> sent[b] == ItemsBody(chunks[b])
  {
    var chunks := Chunk(items, ChunkSizesOf(config).items);
    var bodies := seq(|chunks|, b requires 0 <= b < |chunks| => ItemsBody(chunks[b]));
    r, sent := PostBatches("post items", ItemsUrl(config), bodies, RetryCountOf(config), fetch);
  }

  /** `postUsage(version, usage)`: the `inserted` counts of the chunk requests, added up. */
  method PostUsage(config: WorkerClientConfig, version: string, usage: seq<AggregatedUsage>, fetch: Fetch)
    returns (r: Result<int, string>, sent: seq<Json>)
    requires ChunkSizesOf(config).usage > 0
    ensures var chunks := Chunks(usage, ChunkSizesOf(config).usage);
      var p := PostAll("post usage", RetryCountOf(config), fetch, UsageUrl(config, version), |chunks|);
      && |sent| == p.sent && (r.Success? <==> p.result.Success?)
      && (r.Success? ==> r.value == p.result.value.inserted)
      && (r.Failure? ==> r.error == p.result.error)
      && |sent| <= |chunks| && forall b :: 0 <= b < |sent| ==> sent[b] == UsageBody(chunks[b])
  {
    var chunks := Chunk(usage, ChunkSizesOf(config).usage);
    var bodies := seq(|chunks|, b requires 0 <= b < |chunks| => UsageBody(chunks[b]));
    var t;
    t, sent := PostBatches("post usage", UsageUrl(config, version), bodies, RetryCountOf(config), fetch);
    r := if t.Success? then Success(t.value.inserted) else Failure(t.error);
  }

  /** `postPairs(version, pairs)`: the `inserted` counts of the chunk requests, added up. */
  method PostPairs(config: WorkerClientConfig, version: string, pairs: seq<AggregatedPair>, fetch: Fetch)
    returns (r: Result<int, string>, sent: seq<Json>)
    requires ChunkSizesOf(config).pairs > 0
    ensures var chunks := Chunks(pairs, ChunkSizesOf(config).pairs);
      var p := PostAll("post pairs", RetryCountOf(config), fetch, PairsUrl(config, version), |chunks|);
      && |sent| == p.sent && (r.Success? <==> p.result.Success?)
      && (r.Success? ==> r.value == p.result.value.inserted)
      && (r.Failure? ==> r.error == p.result.error)
      && |sent| <= |chunks| && forall b :: 0 <= b < |sent| ==> sent[b] == PairsBody(chunks[b])
  {
    var chunks := Chunk(pairs, ChunkSizesOf(config).pairs);
    var bodies := seq(|chunks|, b requires 0 <= b < |chunks| => PairsBody(chunks[b]));
    var t;
    t, sent := PostBatches("post pairs", PairsUrl(config, version), bodies, RetryCountOf(config), fetch);
    r := if t.Success? then Success(t.value.inserted) else Failure(t.error);
  }

  /** An empty payload sends nothing and returns zero counts. */
  lemma EmptyPayload<T>(what: string, attempts: int, fetch: Fetch, url: string, payload: seq<T>, size: nat)
    requires size > 0 && payload == []
    ensures PostAll(what, attempts, fetch, url, |Chunks(payload, size)|) == Posted(Success(Totals(0, 0)), 0)
  {
  }

  // ---------------------------------------------------------------------------
  // startSync, commitSync, abortSync
  // ---------------------------------------------------------------------------

  /** `startSync()`: the version of a new sync session. */
  method StartSync(config: WorkerClientConfig, fetch: Fetch) returns (r: Result<Option<string>, string>)
    ensures var t := RetryFrom(RetryCountOf(config), fetch, config.baseUrl + "/api/sync/start", 0, 0, None).result;
      && (r.Success? <==> t.Success? && Ok(t.value))
      && (r.Success? ==> r.value == t.value.version)
      && (t.Failure? ==> r == Failure(t.error))
      && (t.Success? && !Ok(t.value) ==> r == Failure(Failed("start sync", t.value)))
  {
    var t, _, _ := FetchWithRetry(RetryCountOf(config), fetch, config.baseUrl + "/api/sync/start", 0);
    if t.Failure? {
      return Failure(t.error);
    }
    if !Ok(t.value) {
      return Failure(Failed("start sync", t.value));
    }
    r := Success(t.value.version);
  }

  /** `commitSync(version)` and `abortSync(version)`: `None` when the writer accepted, else the error thrown. */
  method Finish(config: WorkerClientConfig, what: string, path: string, fetch: Fetch) returns (error: Option<string>)
    ensures var t := RetryFrom(RetryCountOf(config), fetch, config.baseUrl + path, 0, 0, None).result;
      && (error.None? <==> t.Success? && Ok(t.value))
      && (t.Failure? ==> error == Some(t.error))
      && (t.Success? && !Ok(t.value) ==> error == Some(Failed(what, t.value)))
  {
    var t, _, _ := FetchWithRetry(RetryCountOf(config), fetch, config.baseUrl + path, 0);
    if t.Failure? {
      return Some(t.error);
    }
    if !Ok(t.value) {
      return Some(Failed(what, t.value));
    }
    error := None;
  }

  /** The body of a commit or abort request: `{ version }`. */
  function VersionBody(version: string): (body: Json)
    ensures body.JObj? && body.fields.Keys == {"version"} && body.fields["version"] == JStr(version)
  {
    JObj(map["version" := JStr(version)])
  }

  /** `commitSync(version)`: the request carries the version in its body. */
  method CommitSync(config: WorkerClientConfig, version: string, fetch: Fetch) returns (error: Option<string>, body: Json)
    ensures var t := RetryFrom(RetryCountOf(config), fetch, config.baseUrl + "/api/sync/commit", 0, 0, None).result;
      && (error.None? <==> t.Success? && Ok(t.value))
      && (t.Failure? ==> error == Some(t.error))
      && (t.Success? && !Ok(t.value) ==> error == Some(Failed("commit sync", t.value)))
    ensures body == VersionBody(version)
  {
    body := VersionBody(version);
    error := Finish(config, "commit sync", "/api/sync/commit", fetch);
  }

  /** `abortSync(version)`: the request carries the version in its body. */
  method AbortSync(config: WorkerClientConfig, version: string, fetch: Fetch) returns (error: Option<string>, body: Json)
    ensures var t := RetryFrom(RetryCountOf(config), fetch, config.baseUrl + "/api/sync/abort", 0, 0, None).result;
      && (error.None? <==> t.Success? && Ok(t.value))
      && (t.Failure? ==> error == Some(t.error))
      && (t.Success? && !Ok(t.value) ==> error == Some(Failed("abort sync", t.value)))
    ensures body == VersionBody(version)
  {
    body := VersionBody(version);
    error := Finish(config, "abort sync", "/api/sync/abort", fetch);
  }
}
