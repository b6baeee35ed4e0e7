/**
 * The writer service's tables (items, usage, pairs) and what its routes
 * answer. Numbers arrive as JSON numbers, so the numeric columns hold the
 * values the request carried.
 */
module WriterDb {
  import opened Common

  /** A row of `items`; `id` is the primary key. */
  datatype ItemRow = ItemRow(id: string, name: string, slotId: real)

  /** A row of `usage`; the primary key is (version, slotId, itemId). */
  datatype UsageRow = UsageRow(version: string, slotId: real, itemId: string, usageCount: real)

  /** A row of `pairs`; the primary key is (version, slotPair, itemIdA, rank). */
  datatype PairRow = PairRow(version: string, slotPair: string, itemIdA: string, itemIdB: string, pairCount: real, rank: real)

  datatype UsageKey = UsageKey(version: string, slotId: real, itemId: string)

  datatype PairKey = PairKey(version: string, slotPair: string, itemIdA: string, rank: real)

  function KeyOfUsage(r: UsageRow): UsageKey {
    UsageKey(r.version, r.slotId, r.itemId)
  }

  function KeyOfPair(r: PairRow): PairKey {
    PairKey(r.version, r.slotPair, r.itemIdA, r.rank)
  }

  /** The writer's database. */
  class Tables {
    var items: seq<ItemRow>
    var usage: seq<UsageRow>
    var pairs: seq<PairRow>

    constructor (items: seq<ItemRow>, usage: seq<UsageRow>, pairs: seq<PairRow>)
      ensures this.items == items && this.usage == usage && this.pairs == pairs
    {
      this.items := items;
      this.usage := usage;
      this.pairs := pairs;
    }
  }

  /**
   * What a route answers: the success body, a 400 with its error message, or
   * a 500 when the handler throws (a TypeError on a `null` entry, or a
   * failed statement).
   */
  datatype Reply = Inserted(inserted: int, skipped: Option<int>) | BadRequest(error: string) | ServerError(message: string)

  /** The message a failed statement throws on a primary key conflict. */
  const ConstraintFailed: string := "UNIQUE constraint failed"

  /** The first check that failed, in order: what a validation loop with early return answers. */
  function FirstError<T>(checks: seq<Option<T>>): Option<T>
    decreases |checks|
  {
    if checks == [] then None
    else if checks[0].Some? then checks[0]
    else FirstError(checks[1..])
  }

  /** The loop gets through exactly when every check passes; otherwise it answers the first failing one. */
  lemma {:induction false} FirstErrorIsFirst<T>(checks: seq<Option<T>>)
    ensures FirstError(checks).None? <==> forall k :: 0 <= k < |checks| ==> checks[k].None?
    ensures FirstError(checks).Some? ==>
      exists k :: 0 <= k < |checks| && checks[k] == FirstError(checks) && forall j :: 0 <= j < k ==> checks[j].None?
    decreases |checks|
  {
    if checks != [] && checks[0].None? {
      FirstErrorIsFirst(checks[1..]);
      if FirstError(checks).Some? {
        var k :| 0 <= k < |checks[1..]| && checks[1..][k] == FirstError(checks[1..]) && forall j :: 0 <= j < k ==> checks[1..][j].None?;
        assert checks[k + 1] == FirstError(checks);
        assert forall j :: 0 <= j < k + 1 ==> checks[j].None? by {
          forall j | 0 <= j < k + 1
            ensures checks[j].None?
          {
            if j > 0 {
              assert checks[j] == checks[1..][j - 1];
            }
          }
        }
      }
    }
  }

  /** `c.req.query('version')` passes `if (!version)` when it is present and not empty. */
  function VersionOf(query: Option<string>): Result<string, Reply> {
    if query.None? || query.value == "" then Failure(BadRequest("version query parameter is required"))
    else Success(query.value)
  }
}
