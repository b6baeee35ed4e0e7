/**
 * `POST /api/usage?version=…`: the writer's usage upload. The version comes
 * from the query string; every entry is checked before anything is written;
 * then each entry is inserted by a statement of its own, tagged with the
 * version.
 */
module UsageRoute {
  import opened Common
  import opened Json
  import opened WriterDb
  import WorkerClient
  import Aggregator

  /** An entry the route accepts: a number `slotId` in 1..5, a non-empty string `itemId`, a number `usageCount` of at least 0. */
  predicate ValidUsage(entry: Json) {
    && entry.JObj?
    && "slotId" in entry.fields && entry.fields["slotId"].JNum? && 1.0 <= entry.fields["slotId"].n <= 5.0
    && "itemId" in entry.fields && entry.fields["itemId"].JStr? && entry.fields["itemId"].s != ""
    && "usageCount" in entry.fields && entry.fields["usageCount"].JNum? && 0.0 <= entry.fields["usageCount"].n
  }

  const SlotIdRequired: string := "Each usage must have a slotId between 1 and 5"

  /** The checks of one entry of the loop, in order. */
  function UsageCheck(entry: Json): Option<Reply> {
    var slotId := Get(entry, "slotId");
    if slotId.Failure? then Some(ServerError(slotId.error))
    else if NotANumberIn(slotId.value, 1.0, 5.0) then Some(BadRequest(SlotIdRequired))
    else if NotAString(Get(entry, "itemId").value) then Some(BadRequest("Each usage must have a string itemId"))
    else if NotANumberFrom(Get(entry, "usageCount").value, 0.0) then Some(BadRequest("Each usage must have a non-negative usageCount"))
    else None
  }

  /** The checks pass exactly on the entries described by `ValidUsage`; a `null` entry makes the handler throw. */
  lemma UsageCheckAccepts(entry: Json)
    ensures UsageCheck(entry).None? <==> ValidUsage(entry)
    ensures UsageCheck(entry).Some? && UsageCheck(entry).value.ServerError? <==> entry.JNull?
  {
    if entry.JObj? {
      AcceptedValues(Get(entry, "slotId").value, 1.0, 5.0);
      AcceptedValues(Get(entry, "itemId").value, 0.0, 0.0);
      AcceptedValues(Get(entry, "usageCount").value, 0.0, 0.0);
    }
  }

  function UsageChecks(entries: seq<Json>): seq<Option<Reply>> {
    seq(|entries|, k requires 0 <= k < |entries| => UsageCheck(entries[k]))
  }

  /** `body.usage`, which must be an array. */
  function UsageField(body: Json): Result<seq<Json>, Reply> {
    var f := Get(body, "usage");
    if f.Failure? then Failure(ServerError(f.error))
    else if NotAnArray(f.value) then Failure(BadRequest("usage array is required"))
    else Success(f.value.value.elems)
  }

  /** The row of an accepted entry under `version`. */
  function UsageValue(version: string, entry: Json): UsageRow
    requires ValidUsage(entry)
  {
    UsageRow(version, entry.fields["slotId"].n, entry.fields["itemId"].s, entry.fields["usageCount"].n)
  }

  function UsageValues(version: string, entries: seq<Json>): seq<UsageRow>
    requires forall k :: 0 <= k < |entries| ==> ValidUsage(entries[k])
  {
    seq(|entries|, k requires 0 <= k < |entries| => UsageValue(version, entries[k]))
  }

  /** The validation loop: the first failing check of the first failing entry. */
  method ValidateUsage(entries: seq<Json>) returns (error: Option<Reply>)
    ensures error == FirstError(UsageChecks(entries))
  {
    var i := 0;
    while i < |entries|
      invariant 0 <= i <= |entries|
      invariant FirstError(UsageChecks(entries)) == FirstError(UsageChecks(entries)[i..])
    {
      var e := UsageCheck(entries[i]);
      if e.Some? {
        return e;
      }
      assert UsageChecks(entries)[i..][1..] == UsageChecks(entries)[i + 1..];
      i := i + 1;
    }
    error := None;
  }

  /** A validation that gets through leaves only accepted entries. */
  lemma NoErrorAllValid(entries: seq<Json>)
    requires FirstError(UsageChecks(entries)).None?
    ensures forall k :: 0 <= k < |entries| ==> ValidUsage(entries[k])
  {
    FirstErrorIsFirst(UsageChecks(entries));
    forall k | 0 <= k < |entries|
      ensures ValidUsage(entries[k])
    {
      assert UsageChecks(entries)[k].None?;
      UsageCheckAccepts(entries[k]);
    }
  }

  /** The primary key (version, slotId, itemId) is taken in `table`. */
  predicate KeyTaken(table: seq<UsageRow>, key: UsageKey) {
    exists r :: r in table && KeyOfUsage(r) == key
  }

  predicate UniqueUsageKeys(table: seq<UsageRow>) {
    forall j, k :: 0 <= j < k < |table| ==> KeyOfUsage(table[j]) != KeyOfUsage(table[k])
  }

  /** The table after the insert loop and whether it got through every row. */
  datatype Inserts = Inserts(table: seq<UsageRow>, done: bool)

  /** One statement per row, in order; a key conflict throws and stops the loop, the earlier rows staying in. */
  function InsertEach(table: seq<UsageRow>, rows: seq<UsageRow>): Inserts
    decreases |rows|
  {
    if rows == [] then Inserts(table, true)
    else if KeyTaken(table, KeyOfUsage(rows[0])) then Inserts(table, false)
    else InsertEach(table + [rows[0]], rows[1..])
  }

  lemma KeyTakenAppend(table: seq<UsageRow>, r: UsageRow, key: UsageKey)
    ensures KeyTaken(table + [r], key) <==> KeyTaken(table, key) || KeyOfUsage(r) == key
  {
    if KeyTaken(table + [r], key) && KeyOfUsage(r) != key {
      var x :| x in table + [r] && KeyOfUsage(x) == key;
      assert x in table;
    }
    assert r in table + [r];
  }

  /**
   * The loop leaves the old rows followed by a prefix of the request's rows
   * in order; it gets through exactly when every row is in, and it stops
   * only at a row whose key is taken.
   */
  lemma {:induction false} InsertEachShape(table: seq<UsageRow>, rows: seq<UsageRow>)
    ensures var out := InsertEach(table, rows);
      && |table| <= |out.table| <= |table| + |rows|
      && out.table == table + rows[..|out.table| - |table|]
      && (out.done <==> |out.table| == |table| + |rows|)
      && (!out.done ==> KeyTaken(out.table, KeyOfUsage(rows[|out.table| - |table|])))
    decreases |rows|
  {
    if rows != [] && !KeyTaken(table, KeyOfUsage(rows[0])) {
      var t := table + [rows[0]];
      InsertEachShape(t, rows[1..]);
      var out := InsertEach(t, rows[1..]);
      assert t + rows[1..][..|out.table| - |t|] == table + rows[..|out.table| - |table|];
    }
  }

  /** The loop keeps the table's primary keys unique. */
  lemma {:induction false} InsertEachUnique(table: seq<UsageRow>, rows: seq<UsageRow>)
    requires UniqueUsageKeys(table)
    ensures UniqueUsageKeys(InsertEach(table, rows).table)
    decreases |rows|
  {
    if rows != [] && !KeyTaken(table, KeyOfUsage(rows[0])) {
      var t := table + [rows[0]];
      forall j | 0 <= j < |table|
        ensures KeyOfUsage(t[j]) != KeyOfUsage(t[|table|])
      {
        assert t[j] in table;
      }
      InsertEachUnique(t, rows[1..]);
    }
  }

  /** Rows with distinct keys, none taken already, all go in. */
  lemma {:induction false} FreshKeysAllInserted(table: seq<UsageRow>, rows: seq<UsageRow>)
    requires UniqueUsageKeys(rows)
    requires forall k :: 0 <= k < |rows| ==> !KeyTaken(table, KeyOfUsage(rows[k]))
    ensures InsertEach(table, rows) == Inserts(table + rows, true)
    decreases |rows|
  {
    if rows != [] {
      var t := table + [rows[0]];
      forall k | 0 <= k < |rows[1..]|
        ensures !KeyTaken(t, KeyOfUsage(rows[1..][k]))
      {
        assert KeyOfUsage(rows[0]) != KeyOfUsage(rows[k + 1]);
        KeyTakenAppend(table, rows[0], KeyOfUsage(rows[k + 1]));
      }
      FreshKeysAllInserted(t, rows[1..]);
      assert t + rows[1..] == table + rows;
    }
  }

  /** The insert loop; it stops at the first statement that throws. */
  method InsertRows(db: Tables, rows: seq<UsageRow>) returns (inserted: int, error: Option<string>)
    modifies db
    ensures InsertEach(old(db.usage), rows) == Inserts(db.usage, error.None?)
    ensures error.None? ==> inserted == |rows|
    ensures error.Some? ==> error.value == ConstraintFailed
    ensures db.items == old(db.items) && db.pairs == old(db.pairs)
  {
    inserted := 0;
    var i := 0;
    while i < |rows|
      invariant 0 <= i <= |rows| && inserted == i
      invariant InsertEach(old(db.usage), rows) == InsertEach(db.usage, rows[i..])
      invariant db.items == old(db.items) && db.pairs == old(db.pairs)
    {
      if KeyTaken(db.usage, KeyOfUsage(rows[i])) {
        return inserted, Some(ConstraintFailed);
      }
      assert rows[i..][1..] == rows[i + 1..];
      db.usage := db.usage + [rows[i]];
      inserted := inserted + 1;
      i := i + 1;
    }
    error := None;
  }

  /** The handler of `POST /api/usage?version=…`. */
  method PostUsage(db: Tables, query: Option<string>, body: Json) returns (reply: Reply)
    modifies db
    ensures db.items == old(db.items) && db.pairs == old(db.pairs)
    // the version is checked before the body is looked at
    ensures VersionOf(query).Failure? ==> reply == VersionOf(query).error && db.usage == old(db.usage)
    ensures VersionOf(query).Success? && UsageField(body).Failure? ==> reply == UsageField(body).error && db.usage == old(db.usage)
    ensures VersionOf(query).Success? && UsageField(body).Success? && FirstError(UsageChecks(UsageField(body).value)).Some? ==>
      reply == FirstError(UsageChecks(UsageField(body).value)).value && db.usage == old(db.usage)
    ensures VersionOf(query).Success? && UsageField(body).Success? && FirstError(UsageChecks(UsageField(body).value)).None? ==>
      var entries := UsageField(body).value;
      && (forall k :: 0 <= k < |entries| ==> ValidUsage(entries[k]))
      && var out := InsertEach(old(db.usage), UsageValues(VersionOf(query).value, entries));
      && db.usage == out.table
      && reply == (if out.done then Inserted(|entries|, None) else ServerError(ConstraintFailed))
  {
    var version := VersionOf(query);
    if version.Failure? {
      return version.error;
    }
    var parsed := UsageField(body);
    if parsed.Failure? {
      return parsed.error;
    }
    var entries := parsed.value;
    var error := ValidateUsage(entries);
    if error.Some? {
      return error.value;
    }
    NoErrorAllValid(entries);
    var inserted, failed := InsertRows(db, UsageValues(version.value, entries));
    if failed.Some? {
      return ServerError(failed.value);
    }
    reply := Inserted(inserted, None);
  }

  /**
   * The usage entries the client sends carry no `slotId` (the aggregated
   * usage has none), so the route answers every non-empty usage post with a
   * 400 about the slot id.
   */
  lemma ClientUsageRejected(batch: seq<Aggregator.AggregatedUsage>)
    requires batch != []
    ensures var body := WorkerClient.UsageBody(batch);
      && UsageField(body).Success?
      && FirstError(UsageChecks(UsageField(body).value)) == Some(BadRequest(SlotIdRequired))
  {
    var entries := UsageField(WorkerClient.UsageBody(batch)).value;
    assert entries[0] == WorkerClient.UsageJson(batch[0]);
    assert UsageChecks(entries)[0] == Some(BadRequest(SlotIdRequired));
  }
}
