/**
 * `saveGlamourData(characterId, glamourData)`: drops the slots without an
 * item, maps each remaining slot name to its id and inserts one glamour row
 * per entry in a single statement, reporting the count or the error.
 *
 * The insert is the oracle `insert`: `None` when the statement succeeds, or
 * what it throws.
 */
module Repository {
  import opened Common
  import opened Schema

  /** One slot of a character's glamour as the page parser returns it; `itemId` is null for an empty slot. */
  datatype GlamourData = GlamourData(slot: string, itemId: Option<string>)

  /** What a failed insert throws: an `Error` with its message, or any other value. */
  datatype Thrown = ErrorThrown(message: string) | OtherThrown

  datatype RepositoryResult = RepositoryResult(success: bool, insertedCount: nat, error: Option<string>)

  /** The result, and the rows handed to the insert when one was made. */
  datatype Saved = Saved(result: RepositoryResult, inserted: Option<seq<GlamourRow>>)

  /** `glamourData.filter((d) => d.itemId !== null)`. */
  function ValidData(glamourData: seq<GlamourData>): seq<GlamourData>
    decreases |glamourData|
  {
    if glamourData == [] then []
    else
      var rest := ValidData(glamourData[..|glamourData| - 1]);
      var d := glamourData[|glamourData| - 1];
      if d.itemId.Some? then rest + [d] else rest
  }

  /** Filtering a concatenation filters each part. */
  lemma {:induction false} ValidDataAppend(a: seq<GlamourData>, b: seq<GlamourData>)
    ensures ValidData(a + b) == ValidData(a) + ValidData(b)
    decreases |b|
  {
    if b == [] {
      assert a + b == a;
    } else {
      assert (a + b)[..|a + b| - 1] == a + b[..|b| - 1];
      ValidDataAppend(a, b[..|b| - 1]);
    }
  }

  /** The filter keeps exactly the entries with an item, and all of them when no slot is empty. */
  lemma {:induction false} ValidDataKeeps(a: seq<GlamourData>)
    ensures forall d :: d in ValidData(a) <==> d in a && d.itemId.Some?
    ensures (forall d :: d in a ==> d.itemId.Some?) ==> ValidData(a) == a
    decreases |a|
  {
    if a != [] {
      var init := a[..|a| - 1];
      ValidDataKeeps(init);
      forall d
        ensures d in a <==> d in init || d == a[|a| - 1]
      {
        InitLast(a, d);
      }
      if forall d :: d in a ==> d.itemId.Some? {
        assert a == init + [a[|a| - 1]];
      }
    }
  }

  /** The rows of the valid entries: the character, the slot's id, the item. */
  function Records(characterId: string, valid: seq<GlamourData>): seq<GlamourRow>
    requires forall k :: 0 <= k < |valid| ==> SlotIdOf(valid[k].slot).Some? && valid[k].itemId.Some?
  {
    seq(|valid|, k requires 0 <= k < |valid| => GlamourRow(characterId, SlotIdOf(valid[k].slot).value, valid[k].itemId.value))
  }

  /** `saveGlamourData`; the slot of every entry is one of the five names, as its type says. */
  function SaveGlamourData(characterId: string, glamourData: seq<GlamourData>, insert: seq<GlamourRow> -> Option<Thrown>): Saved
    requires forall d :: d in glamourData ==> SlotIdOf(d.slot).Some?
  {
    ValidDataKeeps(glamourData);
    var valid := ValidData(glamourData);
    if valid == [] then Saved(RepositoryResult(true, 0, None), None)
    else
      var records := Records(characterId, valid);
      var thrown := insert(records);
      if thrown.None? then Saved(RepositoryResult(true, |records|, None), Some(records))
      else
        var message := if thrown.value.ErrorThrown? then thrown.value.message else "Unknown database error";
        Saved(RepositoryResult(false, 0, Some(message)), Some(records))
  }

  /**
   * The outcome of a save: no insert and a count of 0 when no slot has an
   * item; otherwise one insert of one row per item-bearing entry, in order,
   * each with the character id and the id of the entry's slot; on success
   * the count is the number of those entries, on failure it is 0 with the
   * error's message or 'Unknown database error'.
   */
  lemma SaveOutcome(characterId: string, glamourData: seq<GlamourData>, insert: seq<GlamourRow> -> Option<Thrown>)
    requires forall d :: d in glamourData ==> SlotIdOf(d.slot).Some?
    ensures var saved := SaveGlamourData(characterId, glamourData, insert);
      var valid := ValidData(glamourData);
      && (valid == [] <==> saved.inserted.None?)
      && (valid == [] ==> saved.result == RepositoryResult(true, 0, None))
      && (saved.inserted.Some? ==>
            var rows := saved.inserted.value;
            && |rows| == |valid|
            && (forall k :: 0 <= k < |rows| ==>
                  && rows[k].characterId == characterId && Some(rows[k].itemId) == valid[k].itemId
                  && ValidSlotId(rows[k].slotId) && SlotName(rows[k].slotId) == valid[k].slot)
            && (insert(rows).None? ==> saved.result == RepositoryResult(true, |valid|, None))
            && (insert(rows) == Some(OtherThrown) ==> saved.result == RepositoryResult(false, 0, Some("Unknown database error")))
            && (insert(rows).Some? && insert(rows).value.ErrorThrown? ==>
                  saved.result == RepositoryResult(false, 0, Some(insert(rows).value.message))))
  {
    ValidDataKeeps(glamourData);
    var valid := ValidData(glamourData);
    forall k | 0 <= k < |valid|
      ensures SlotName(SlotIdOf(valid[k].slot).value) == valid[k].slot
    {
      SlotNamesRoundTrip(0, valid[k].slot);
    }
  }
}
