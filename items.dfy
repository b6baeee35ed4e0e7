/**
 * `POST /api/items`: the writer's item master upload. Every entry is checked
 * before anything is written; the rows then go in batches of 300 with
 * `ON CONFLICT DO NOTHING`, so an id already present is skipped.
 */
module ItemsRoute {
  import opened Common
  import opened Json
  import opened Batching
  import opened WriterDb

  /** 300 rows of 3 columns stay within SQLite's 999 bind variables. */
  const BatchSize: int := 300
  const Columns: int := 3
  const BindLimit: int := 999

  /** An item the route accepts: an object with a non-empty string `id` and `name` and a number `slotId` in 1..5. */
  predicate ValidItem(item: Json) {
    && item.JObj?
    && "id" in item.fields && item.fields["id"].JStr? && item.fields["id"].s != ""
    && "name" in item.fields && item.fields["name"].JStr? && item.fields["name"].s != ""
    && "slotId" in item.fields && item.fields["slotId"].JNum? && 1.0 <= item.fields["slotId"].n <= 5.0
  }

  /** The checks of one entry of the loop, in order. */
  function ItemCheck(item: Json): Option<Reply> {
    var id := Get(item, "id");
    if id.Failure? then Some(ServerError(id.error))
    else if NotAString(id.value) then Some(BadRequest("Each item must have a string id"))
    else if NotAString(Get(item, "name").value) then Some(BadRequest("Each item must have a string name"))
    else if NotANumberIn(Get(item, "slotId").value, 1.0, 5.0) then Some(BadRequest("Each item must have a slotId between 1 and 5"))
    else None
  }

  /** The checks pass exactly on the items described by `ValidItem`; a `null` entry makes the handler throw. */
  lemma ItemCheckAccepts(item: Json)
    ensures ItemCheck(item).None? <==> ValidItem(item)
    ensures ItemCheck(item).Some? && ItemCheck(item).value.ServerError? <==> item.JNull?
  {
    if item.JObj? {
      AcceptedValues(Get(item, "id").value, 1.0, 5.0);
      AcceptedValues(Get(item, "name").value, 1.0, 5.0);
      AcceptedValues(Get(item, "slotId").value, 1.0, 5.0);
    }
  }

  function ItemChecks(items: seq<Json>): seq<Option<Reply>> {
    seq(|items|, k requires 0 <= k < |items| => ItemCheck(items[k]))
  }

  /** `body.items`, which must be an array. */
  function ItemsField(body: Json): Result<seq<Json>, Reply> {
    var f := Get(body, "items");
    if f.Failure? then Failure(ServerError(f.error))
    else if NotAnArray(f.value) then Failure(BadRequest("items array is required"))
    else Success(f.value.value.elems)
  }

  /** The `{ id, name, slotId }` row of an accepted item. */
  function ItemValue(item: Json): ItemRow
    requires ValidItem(item)
  {
    ItemRow(item.fields["id"].s, item.fields["name"].s, item.fields["slotId"].n)
  }

  function ItemValues(items: seq<Json>): seq<ItemRow>
    requires forall k :: 0 <= k < |items| ==> ValidItem(items[k])
  {
    seq(|items|, k requires 0 <= k < |items| => ItemValue(items[k]))
  }

  /** The validation loop: the first failing check of the first failing item. */
  method ValidateItems(items: seq<Json>) returns (error: Option<Reply>)
    ensures error == FirstError(ItemChecks(items))
  {
    var i := 0;
    while i < |items|
      invariant 0 <= i <= |items|
      invariant FirstError(ItemChecks(items)) == FirstError(ItemChecks(items)[i..])
    {
      var e := ItemCheck(items[i]);
      if e.Some? {
        return e;
      }
      assert ItemChecks(items)[i..][1..] == ItemChecks(items)[i + 1..];
      i := i + 1;
    }
    error := None;
  }

  /** A validation that gets through leaves only accepted items. */
  lemma NoErrorAllValid(items: seq<Json>)
    requires FirstError(ItemChecks(items)).None?
    ensures forall k :: 0 <= k < |items| ==> ValidItem(items[k])
  {
    FirstErrorIsFirst(ItemChecks(items));
    forall k | 0 <= k < |items|
      ensures ValidItem(items[k])
    {
      assert ItemChecks(items)[k].None?;
      ItemCheckAccepts(items[k]);
    }
  }

  function Ids(table: seq<ItemRow>): set<string> {
    set r | r in table :: r.id
  }

  /** The ids of a concatenation are those of its parts. */
  lemma IdsAppend(x: seq<ItemRow>, y: seq<ItemRow>)
    ensures Ids(x + y) == Ids(x) + Ids(y)
  {
    forall id | id in Ids(x + y)
      ensures id in Ids(x) + Ids(y)
    {
      var r :| r in x + y && r.id == id;
    }
    forall id | id in Ids(x) + Ids(y)
      ensures id in Ids(x + y)
    {
      if id in Ids(x) {
        var r :| r in x && r.id == id;
        assert r in x + y;
      } else {
        var r :| r in y && r.id == id;
        assert r in x + y;
      }
    }
  }

  /** The items table keeps one row per id. */
  predicate UniqueIds(table: seq<ItemRow>) {
    forall j, k :: 0 <= j < k < |table| ==> table[j].id != table[k].id
  }

  /** `INSERT … ON CONFLICT DO NOTHING`: each row in turn, skipped when its id is already there. */
  function InsertIgnoring(table: seq<ItemRow>, rows: seq<ItemRow>): seq<ItemRow>
    decreases |rows|
  {
    if rows == [] then table
    else
      var before := InsertIgnoring(table, rows[..|rows| - 1]);
      var r := rows[|rows| - 1];
      if r.id in Ids(before) then before else before + [r]
  }

  /** Inserting in batches is inserting the rows one after the other. */
  lemma {:induction false} InsertIgnoringAppend(table: seq<ItemRow>, a: seq<ItemRow>, b: seq<ItemRow>)
    ensures InsertIgnoring(table, a + b) == InsertIgnoring(InsertIgnoring(table, a), b)
    decreases |b|
  {
    if b == [] {
      assert a + b == a;
    } else {
      assert (a + b)[..|a + b| - 1] == a + b[..|b| - 1];
      InsertIgnoringAppend(table, a, b[..|b| - 1]);
    }
  }

  /** The insert keeps the old rows in front and appends rows of the request only. */
  lemma {:induction false} InsertIgnoringGrows(table: seq<ItemRow>, rows: seq<ItemRow>)
    ensures var t := InsertIgnoring(table, rows);
      && |table| <= |t| <= |table| + |rows| && t[..|table|] == table
      && (forall k :: |table| <= k < |t| ==> t[k] in rows)
    decreases |rows|
  {
    if rows != [] {
      var init := rows[..|rows| - 1];
      InsertIgnoringGrows(table, init);
      var before := InsertIgnoring(table, init);
      forall k | |table| <= k < |before|
        ensures before[k] in rows
      {
        assert before[k] in init;
        assert before[k] == rows[IndexIn(init, before[k])];
      }
    }
  }

  /** Some index of a member of a sequence. */
  function IndexIn<T(==)>(s: seq<T>, x: T): (i: nat)
    requires x in s
    ensures i < |s| && s[i] == x
  {
    if s[0] == x then 0 else 1 + IndexIn(s[1..], x)
  }

  /** After the insert, the ids present are the old ones and those of the request. */
  lemma {:induction false} InsertIgnoringIds(table: seq<ItemRow>, rows: seq<ItemRow>)
    ensures Ids(InsertIgnoring(table, rows)) == Ids(table) + Ids(rows)
    decreases |rows|
  {
    if rows != [] {
      var init := rows[..|rows| - 1];
      var r := rows[|rows| - 1];
      var before := InsertIgnoring(table, init);
      InsertIgnoringIds(table, init);
      assert rows == init + [r];
      IdsAppend(init, [r]);
      IdsAppend(before, [r]);
      assert Ids([r]) == {r.id};
    }
  }

  /** The insert keeps ids unique. */
  lemma {:induction false} InsertIgnoringUnique(table: seq<ItemRow>, rows: seq<ItemRow>)
    requires UniqueIds(table)
    ensures UniqueIds(InsertIgnoring(table, rows))
    decreases |rows|
  {
    if rows != [] {
      var init := rows[..|rows| - 1];
      InsertIgnoringUnique(table, init);
      var before := InsertIgnoring(table, init);
      var r := rows[|rows| - 1];
      if r.id !in Ids(before) {
        var t := before + [r];
        forall j, k | 0 <= j < k < |t|
          ensures t[j].id != t[k].id
        {
          if k == |before| {
            assert t[j] in before;
          }
        }
      }
    }
  }

  /**
   * The insert keeps the old rows, adds rows of the request only, ends with
   * every id of the request present, and keeps ids unique.
   */
  lemma InsertIgnoringAdds(table: seq<ItemRow>, rows: seq<ItemRow>)
    ensures var t := InsertIgnoring(table, rows);
      && |table| <= |t| <= |table| + |rows| && t[..|table|] == table
      && (forall k :: |table| <= k < |t| ==> t[k] in rows)
      && Ids(t) == Ids(table) + Ids(rows)
      && (UniqueIds(table) ==> UniqueIds(t))
  {
    InsertIgnoringGrows(table, rows);
    InsertIgnoringIds(table, rows);
    if UniqueIds(table) {
      InsertIgnoringUnique(table, rows);
    }
  }

  /** Rows whose ids are all present already insert nothing. */
  lemma {:induction false} InsertIgnoringKnown(table: seq<ItemRow>, rows: seq<ItemRow>)
    requires Ids(rows) <= Ids(table)
    ensures InsertIgnoring(table, rows) == table
    decreases |rows|
  {
    if rows != [] {
      var init := rows[..|rows| - 1];
      assert Ids(init) <= Ids(rows) by {
        forall x | x in Ids(init)
          ensures x in Ids(rows)
        {
          var r :| r in init && r.id == x;
          assert r in rows;
        }
      }
      InsertIgnoringKnown(table, init);
      assert rows[|rows| - 1] in rows;
    }
  }

  /** Posting the same items again inserts nothing. */
  lemma InsertIgnoringIdempotent(table: seq<ItemRow>, rows: seq<ItemRow>)
    ensures InsertIgnoring(InsertIgnoring(table, rows), rows) == InsertIgnoring(table, rows)
  {
    InsertIgnoringAdds(table, rows);
    InsertIgnoringKnown(InsertIgnoring(table, rows), rows);
  }

  /** Every batch fits the bind-variable limit. */
  lemma BatchesFitBindLimit(values: seq<ItemRow>)
    ensures forall b :: b in Chunks(values, BatchSize) ==> |b| * Columns <= BindLimit
  {
    ChunkSizes(values, BatchSize);
  }

  /** One batch statement; `meta.changes` is the number of rows it inserted. */
  method InsertBatch(db: Tables, batch: seq<ItemRow>) returns (changes: int)
    modifies db
    ensures db.items == InsertIgnoring(old(db.items), batch)
    ensures changes == |db.items| - |old(db.items)|
    ensures db.usage == old(db.usage) && db.pairs == old(db.pairs)
  {
    var before := |db.items|;
    db.items := InsertIgnoring(db.items, batch);
    changes := |db.items| - before;
  }

  /** The batch loop: the batches one after the other, their changes added up. */
  method InsertBatches(db: Tables, batches: seq<seq<ItemRow>>) returns (total: int)
    modifies db
    ensures db.items == InsertIgnoring(old(db.items), Concat(batches))
    ensures total == |db.items| - |old(db.items)|
    ensures db.usage == old(db.usage) && db.pairs == old(db.pairs)
  {
    total := 0;
    for b := 0 to |batches|
      invariant db.items == InsertIgnoring(old(db.items), Concat(batches[..b]))
      invariant total == |db.items| - |old(db.items)|
      invariant db.usage == old(db.usage) && db.pairs == old(db.pairs)
    {
      ConcatPrefix(batches, b);
      InsertIgnoringAppend(old(db.items), Concat(batches[..b]), batches[b]);
      var changes := InsertBatch(db, batches[b]);
      total := total + changes;
    }
    assert batches[..|batches|] == batches;
  }

  /** The handler of `POST /api/items`. */
  method PostItems(db: Tables, body: Json) returns (reply: Reply)
    modifies db
    ensures db.usage == old(db.usage) && db.pairs == old(db.pairs)
    ensures ItemsField(body).Failure? ==> reply == ItemsField(body).error && db.items == old(db.items)
    ensures ItemsField(body).Success? && FirstError(ItemChecks(ItemsField(body).value)).Some? ==>
      reply == FirstError(ItemChecks(ItemsField(body).value)).value && db.items == old(db.items)
    ensures ItemsField(body).Success? && FirstError(ItemChecks(ItemsField(body).value)).None? ==>
      var items := ItemsField(body).value;
      && (forall k :: 0 <= k < |items| ==> ValidItem(items[k]))
      && db.items == InsertIgnoring(old(db.items), ItemValues(items))
      && reply == Inserted(|db.items| - |old(db.items)|, Some(|items| - (|db.items| - |old(db.items)|)))
  {
    var parsed := ItemsField(body);
    if parsed.Failure? {
      return parsed.error;
    }
    var items := parsed.value;
    var error := ValidateItems(items);
    if error.Some? {
      return error.value;
    }
    NoErrorAllValid(items);
    var values := ItemValues(items);
    var batches := Chunk(values, BatchSize);
    var total := InsertBatches(db, batches);
    ChunksConcat(values, BatchSize);
    reply := Inserted(total, Some(|values| - total));
  }
}
