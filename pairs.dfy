/**
 * `POST /api/pairs?version=…`: the writer's pair ranking upload. The version
 * comes from the query string; every pair is checked before anything is
 * written; the rows then go in batches of 150, each batch one statement that
 * either inserts all its rows or throws on a primary key conflict.
 */
module PairsRoute {
  import opened Common
  import opened Json
  import opened Batching
  import opened Schema
  import opened WriterDb

  /** 150 rows of 6 columns stay within SQLite's 999 bind variables. */
  const BatchSize: int := 150
  const Columns: int := 6
  const BindLimit: int := 999

  /** `parts.join(sep)`. */
  function Join(parts: seq<string>, sep: string): string
    decreases |parts|
  {
    if parts == [] then "" else if |parts| == 1 then parts[0] else parts[0] + sep + Join(parts[1..], sep)
  }

  const InvalidSlotPair: string := "Invalid slotPair. Must be one of: " + Join(SlotPairNames, ", ")

  /** `!x || !SLOT_PAIRS.includes(x)` rejects `x`: only one of the four names passes. */
  predicate NotASlotPair(x: Option<Json>) {
    Falsy(x) || !(x.Some? && x.value.JStr? && x.value.s in SlotPairNames)
  }

  /**
   * A pair the route accepts: an object whose `slotPair` is a slot pair name,
   * whose `itemIdA` and `itemIdB` are non-empty strings, whose `pairCount` is
   * a number of at least 0 and whose `rank` is a number in 1..10.
   */
  predicate ValidPair(pair: Json) {
    && pair.JObj?
    && "slotPair" in pair.fields && pair.fields["slotPair"].JStr? && SlotPairOf(pair.fields["slotPair"].s).Some?
    && "itemIdA" in pair.fields && pair.fields["itemIdA"].JStr? && pair.fields["itemIdA"].s != ""
    && "itemIdB" in pair.fields && pair.fields["itemIdB"].JStr? && pair.fields["itemIdB"].s != ""
    && "pairCount" in pair.fields && pair.fields["pairCount"].JNum? && 0.0 <= pair.fields["pairCount"].n
    && "rank" in pair.fields && pair.fields["rank"].JNum? && 1.0 <= pair.fields["rank"].n <= 10.0
  }

  /** The checks of one pair of the loop, in order. */
  function PairCheck(pair: Json): Option<Reply> {
    var slotPair := Get(pair, "slotPair");
    if slotPair.Failure? then Some(ServerError(slotPair.error))
    else if NotASlotPair(slotPair.value) then Some(BadRequest(InvalidSlotPair))
    else if NotAString(Get(pair, "itemIdA").value) then Some(BadRequest("Each pair must have a string itemIdA"))
    else if NotAString(Get(pair, "itemIdB").value) then Some(BadRequest("Each pair must have a string itemIdB"))
    else if NotANumberFrom(Get(pair, "pairCount").value, 0.0) then Some(BadRequest("Each pair must have a non-negative pairCount"))
    else if NotANumberIn(Get(pair, "rank").value, 1.0, 10.0) then Some(BadRequest("Each pair must have a rank between 1 and 10"))
    else None
  }

  /** The slot pair test accepts exactly the names of the four slot pairs. */
  lemma SlotPairAccepted(x: Option<Json>)
    ensures !NotASlotPair(x) <==> x.Some? && x.value.JStr? && SlotPairOf(x.value.s).Some?
  {
    if x.Some? && x.value.JStr? {
      SlotPairNamesRoundTrip(HeadBody, x.value.s);
    }
  }

  /** The checks pass exactly on the pairs described by `ValidPair`. */
  lemma PairCheckValid(pair: Json)
    ensures PairCheck(pair).None? <==> ValidPair(pair)
  {
    if pair.JObj? {
      SlotPairAccepted(Get(pair, "slotPair").value);
      AcceptedValues(Get(pair, "itemIdA").value, 0.0, 0.0);
      AcceptedValues(Get(pair, "itemIdB").value, 0.0, 0.0);
      AcceptedValues(Get(pair, "pairCount").value, 0.0, 0.0);
      AcceptedValues(Get(pair, "rank").value, 1.0, 10.0);
    }
  }

  /** The checks pass exactly on the pairs described by `ValidPair`; a `null` entry makes the handler throw. */
  lemma PairCheckAccepts(pair: Json)
    ensures PairCheck(pair).None? <==> ValidPair(pair)
    ensures PairCheck(pair).Some? && PairCheck(pair).value.ServerError? <==> pair.JNull?
  {
    PairCheckValid(pair);
  }

  function PairChecks(pairs: seq<Json>): seq<Option<Reply>> {
    seq(|pairs|, k requires 0 <= k < |pairs| => PairCheck(pairs[k]))
  }

  /** `body.pairs`, which must be an array. */
  function PairsField(body: Json): Result<seq<Json>, Reply> {
    var f := Get(body, "pairs");
    if f.Failure? then Failure(ServerError(f.error))
    else if NotAnArray(f.value) then Failure(BadRequest("pairs array is required"))
    else Success(f.value.value.elems)
  }

  /** The row of an accepted pair under `version`. */
  function PairValue(version: string, pair: Json): PairRow
    requires ValidPair(pair)
  {
    PairRow(version, pair.fields["slotPair"].s, pair.fields["itemIdA"].s, pair.fields["itemIdB"].s,
            pair.fields["pairCount"].n, pair.fields["rank"].n)
  }

  function PairValues(version: string, pairs: seq<Json>): seq<PairRow>
    requires forall k :: 0 <= k < |pairs| ==> ValidPair(pairs[k])
  {
    seq(|pairs|, k requires 0 <= k < |pairs| => PairValue(version, pairs[k]))
  }

  /** The validation loop: the first failing check of the first failing pair. */
  method ValidatePairs(pairs: seq<Json>) returns (error: Option<Reply>)
    ensures error == FirstError(PairChecks(pairs))
  {
    var i := 0;
    while i < |pairs|
      invariant 0 <= i <= |pairs|
      invariant FirstError(PairChecks(pairs)) == FirstError(PairChecks(pairs)[i..])
    {
      var e := PairCheck(pairs[i]);
      if e.Some? {
        return e;
      }
      assert PairChecks(pairs)[i..][1..] == PairChecks(pairs)[i + 1..];
      i := i + 1;
    }
    error := None;
  }

  /** A validation that gets through leaves only accepted pairs. */
  lemma NoErrorAllValid(pairs: seq<Json>)
    requires FirstError(PairChecks(pairs)).None?
    ensures forall k :: 0 <= k < |pairs| ==> ValidPair(pairs[k])
  {
    FirstErrorIsFirst(PairChecks(pairs));
    forall k | 0 <= k < |pairs|
      ensures ValidPair(pairs[k])
    {
      assert PairChecks(pairs)[k].None?;
      PairCheckAccepts(pairs[k]);
    }
  }

  /** Every row the route writes carries the version of the query and a slot pair name. */
  lemma ValuesCarryVersion(version: string, pairs: seq<Json>)
    requires forall k :: 0 <= k < |pairs| ==> ValidPair(pairs[k])
    ensures forall r :: r in PairValues(version, pairs) ==> r.version == version && r.slotPair in SlotPairNames
  {
    forall r | r in PairValues(version, pairs)
      ensures r.version == version && r.slotPair in SlotPairNames
    {
      var k :| 0 <= k < |pairs| && PairValues(version, pairs)[k] == r;
      SlotPairNamesRoundTrip(HeadBody, r.slotPair);
    }
  }

  predicate KeyTaken(table: seq<PairRow>, key: PairKey) {
    exists r :: r in table && KeyOfPair(r) == key
  }

  predicate UniquePairKeys(table: seq<PairRow>) {
    forall j, k :: 0 <= j < k < |table| ==> KeyOfPair(table[j]) != KeyOfPair(table[k])
  }

  /** A batch statement succeeds when none of its keys is taken and its own keys are distinct. */
  predicate BatchFits(table: seq<PairRow>, batch: seq<PairRow>) {
    UniquePairKeys(batch) && forall k :: 0 <= k < |batch| ==> !KeyTaken(table, KeyOfPair(batch[k]))
  }

  /** What the driver reports for a statement: `meta.changes` and `rowsAffected`, either possibly absent. */
  datatype DriverReport = DriverReport(changes: Option<int>, rowsAffected: Option<int>)

  /** `getChanges(result, batch.length)`: `meta.changes ?? rowsAffected ?? fallback`. */
  function GetChanges(report: DriverReport, fallback: int): int {
    if report.changes.Some? then report.changes.value
    else if report.rowsAffected.Some? then report.rowsAffected.value
    else fallback
  }

  /** The table after the batch loop, the changes it added up, and whether every batch went in. */
  datatype BatchRun = BatchRun(table: seq<PairRow>, inserted: int, done: bool)

  /** The batch loop from batch `b` on; `report(b)` is what the driver says about batch `b`. */
  function RunBatches(table: seq<PairRow>, batches: seq<seq<PairRow>>, report: nat -> DriverReport, b: nat): BatchRun
    decreases |batches| - b
  {
    if b >= |batches| then BatchRun(table, 0, true)
    else if !BatchFits(table, batches[b]) then BatchRun(table, 0, false)
    else
      var rest := RunBatches(table + batches[b], batches, report, b + 1);
      BatchRun(rest.table, GetChanges(report(b), |batches[b]|) + rest.inserted, rest.done)
  }

  /** A batch that fits keeps the table's keys unique. */
  lemma FitKeepsUnique(table: seq<PairRow>, batch: seq<PairRow>)
    requires UniquePairKeys(table) && BatchFits(table, batch)
    ensures UniquePairKeys(table + batch)
  {
    var t := table + batch;
    forall j, k | 0 <= j < k < |t|
      ensures KeyOfPair(t[j]) != KeyOfPair(t[k])
    {
      if k >= |table| && j < |table| {
        assert t[j] in table;
        assert t[k] == batch[k - |table|];
      } else if j >= |table| {
        assert t[j] == batch[j - |table|] && t[k] == batch[k - |table|];
      }
    }
  }

  /** The loop's table is the old one followed by the whole batches before the one that failed. */
  lemma {:induction false} RunBatchesTable(table: seq<PairRow>, batches: seq<seq<PairRow>>, report: nat -> DriverReport, b: nat)
    requires b <= |batches|
    ensures var out := RunBatches(table, batches, report, b);
      exists e :: b <= e <= |batches| && out.table == table + Concat(batches[b..e])
                  && (out.done <==> e == |batches|)
    decreases |batches| - b
  {
    var out := RunBatches(table, batches, report, b);
    if b == |batches| || !BatchFits(table, batches[b]) {
      assert batches[b..b] == [];
      assert out.table == table + Concat(batches[b..b]) && (out.done <==> b == |batches|);
    } else {
      var rest := RunBatches(table + batches[b], batches, report, b + 1);
      RunBatchesTable(table + batches[b], batches, report, b + 1);
      var e :| b + 1 <= e <= |batches| && rest.table == (table + batches[b]) + Concat(batches[b + 1..e])
               && (rest.done <==> e == |batches|);
      ConcatSlice(batches, b, e);
      assert out.table == table + Concat(batches[b..e]) && (out.done <==> e == |batches|);
    }
  }

  /** The loop keeps the table's keys unique. */
  lemma {:induction false} RunBatchesUnique(table: seq<PairRow>, batches: seq<seq<PairRow>>, report: nat -> DriverReport, b: nat)
    requires b <= |batches| && UniquePairKeys(table)
    ensures UniquePairKeys(RunBatches(table, batches, report, b).table)
    decreases |batches| - b
  {
    if b < |batches| && BatchFits(table, batches[b]) {
      FitKeepsUnique(table, batches[b]);
      RunBatchesUnique(table + batches[b], batches, report, b + 1);
    }
  }

  /**
   * The loop keeps the table's keys unique; whatever happens, the table is the
   * old one followed by the whole batches before the one that failed; when
   * every batch went in, it holds all their rows.
   */
  lemma RunBatchesShape(table: seq<PairRow>, batches: seq<seq<PairRow>>, report: nat -> DriverReport, b: nat)
    requires b <= |batches|
    ensures var out := RunBatches(table, batches, report, b);
      && (exists e :: b <= e <= |batches| && out.table == table + Concat(batches[b..e])
                      && (out.done <==> e == |batches|))
      && (UniquePairKeys(table) ==> UniquePairKeys(out.table))
  {
    RunBatchesTable(table, batches, report, b);
    if UniquePairKeys(table) {
      RunBatchesUnique(table, batches, report, b);
    }
  }

  /** When the driver reports no count, each batch counts as its length, so `inserted` is the number of rows. */
  lemma {:induction false} FallbackCountsRows(table: seq<PairRow>, batches: seq<seq<PairRow>>, report: nat -> DriverReport, b: nat)
    requires b <= |batches|
    requires forall k :: b <= k < |batches| ==> report(k) == DriverReport(None, None)
    requires RunBatches(table, batches, report, b).done
    ensures RunBatches(table, batches, report, b).inserted == |Concat(batches[b..])|
    decreases |batches| - b
  {
    if b < |batches| {
      FallbackCountsRows(table + batches[b], batches, report, b + 1);
      assert batches[b..] == [batches[b]] + batches[b + 1..];
      assert Concat(batches[b..]) == batches[b] + Concat(batches[b + 1..]);
    }
  }

  /** Every batch fits the bind-variable limit. */
  lemma BatchesFitBindLimit(values: seq<PairRow>)
    ensures forall b :: b in Chunks(values, BatchSize) ==> |b| * Columns <= BindLimit
  {
    ChunkSizes(values, BatchSize);
  }

  /** The batch loop; it stops at the first statement that throws. */
  method InsertBatches(db: Tables, batches: seq<seq<PairRow>>, report: nat -> DriverReport)
    returns (total: int, error: Option<string>)
    modifies db
    ensures var out := RunBatches(old(db.pairs), batches, report, 0);
      && db.pairs == out.table && (error.None? <==> out.done)
      && (error.None? ==> total == out.inserted)
      && (error.Some? ==> error.value == ConstraintFailed)
    ensures db.items == old(db.items) && db.usage == old(db.usage)
  {
    total := 0;
    var b := 0;
    while b < |batches|
      invariant 0 <= b <= |batches|
      invariant var whole := RunBatches(old(db.pairs), batches, report, 0);
        var rest := RunBatches(db.pairs, batches, report, b);
        whole.table == rest.table && whole.done == rest.done && whole.inserted == total + rest.inserted
      invariant db.items == old(db.items) && db.usage == old(db.usage)
    {
      if !BatchFits(db.pairs, batches[b]) {
        return total, Some(ConstraintFailed);
      }
      db.pairs := db.pairs + batches[b];
      total := total + GetChanges(report(b), |batches[b]|);
      b := b + 1;
    }
    error := None;
  }

  /** The handler of `POST /api/pairs?version=…`. */
  method PostPairs(db: Tables, query: Option<string>, body: Json, report: nat -> DriverReport) returns (reply: Reply)
    modifies db
    ensures db.items == old(db.items) && db.usage == old(db.usage)
    ensures VersionOf(query).Failure? ==> reply == VersionOf(query).error && db.pairs == old(db.pairs)
    ensures VersionOf(query).Success? && PairsField(body).Failure? ==> reply == PairsField(body).error && db.pairs == old(db.pairs)
    ensures VersionOf(query).Success? && PairsField(body).Success? && FirstError(PairChecks(PairsField(body).value)).Some? ==>
      reply == FirstError(PairChecks(PairsField(body).value)).value && db.pairs == old(db.pairs)
    ensures VersionOf(query).Success? && PairsField(body).Success? && FirstError(PairChecks(PairsField(body).value)).None? ==>
      var pairs := PairsField(body).value;
      && (forall k :: 0 <= k < |pairs| ==> ValidPair(pairs[k]))
      && var out := RunBatches(old(db.pairs), Chunks(PairValues(VersionOf(query).value, pairs), BatchSize), report, 0);
      && db.pairs == out.table
      && reply == (if out.done then Inserted(out.inserted, None) else ServerError(ConstraintFailed))
  {
    var version := VersionOf(query);
    if version.Failure? {
      return version.error;
    }
    var parsed := PairsField(body);
    if parsed.Failure? {
      return parsed.error;
    }
    var pairs := parsed.value;
    var error := ValidatePairs(pairs);
    if error.Some? {
      return error.value;
    }
    NoErrorAllValid(pairs);
    var batches := Chunk(PairValues(version.value, pairs), BatchSize);
    var total, failed := InsertBatches(db, batches, report);
    if failed.Some? {
      return ServerError(failed.value);
    }
    reply := Inserted(total, None);
  }
}
