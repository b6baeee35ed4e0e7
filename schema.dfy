/**
 * The shared vocabulary of the tables: equipment slots, the slot pairs the
 * pair ranking covers, and the rows of the staging tables the scraper fills
 * and the sync reads.
 */
module Schema {
  import opened Common

  /** `SLOT_IDS`: head 1, body 2, hands 3, legs 4, feet 5. */
  const Head: int := 1
  const Body: int := 2
  const Hands: int := 3
  const Legs: int := 4
  const Feet: int := 5

  /** The CHECK constraint of the glamour table and the writer's validators: a slot id lies in 1..5. */
  predicate ValidSlotId(slotId: int) {
    1 <= slotId <= 5
  }

  /** The slot id of a slot name, if it is one of the five. */
  function SlotIdOf(slot: string): (id: Option<int>)
    ensures id.Some? ==> ValidSlotId(id.value)
  {
    if slot == "head" then Some(Head)
    else if slot == "body" then Some(Body)
    else if slot == "hands" then Some(Hands)
    else if slot == "legs" then Some(Legs)
    else if slot == "feet" then Some(Feet)
    else None
  }

  /** The name of a valid slot id. */
  function SlotName(slotId: int): string
    requires ValidSlotId(slotId)
  {
    ["head", "body", "hands", "legs", "feet"][slotId - 1]
  }

  /** Slot names and ids correspond one to one. */
  lemma SlotNamesRoundTrip(slotId: int, slot: string)
    ensures ValidSlotId(slotId) ==> SlotIdOf(SlotName(slotId)) == Some(slotId)
    ensures SlotIdOf(slot).Some? ==> SlotName(SlotIdOf(slot).value) == slot
  {
  }

  /** The four adjacent slot pairs, in `SLOT_PAIRS` order. */
  datatype SlotPair = HeadBody | BodyHands | BodyLegs | LegsFeet

  const SlotPairs: seq<SlotPair> := [HeadBody, BodyHands, BodyLegs, LegsFeet]

  /** The name a slot pair has in requests and in the pairs table. */
  function SlotPairName(p: SlotPair): string {
    match p
    case HeadBody => "head-body"
    case BodyHands => "body-hands"
    case BodyLegs => "body-legs"
    case LegsFeet => "legs-feet"
  }

  const SlotPairNames: seq<string> := ["head-body", "body-hands", "body-legs", "legs-feet"]

  /** The slot pair a name denotes, if any: what `SLOT_PAIRS.includes(name)` accepts. */
  function SlotPairOf(name: string): Option<SlotPair> {
    if name == "head-body" then Some(HeadBody)
    else if name == "body-hands" then Some(BodyHands)
    else if name == "body-legs" then Some(BodyLegs)
    else if name == "legs-feet" then Some(LegsFeet)
    else None
  }

  /** A name is accepted exactly when it is one of the four, and names and pairs correspond one to one. */
  lemma SlotPairNamesRoundTrip(p: SlotPair, name: string)
    ensures SlotPairOf(SlotPairName(p)) == Some(p)
    ensures SlotPairOf(name).Some? <==> name in SlotPairNames
    ensures SlotPairOf(name).Some? ==> SlotPairName(SlotPairOf(name).value) == name
    ensures |SlotPairNames| == |SlotPairs| && forall k :: 0 <= k < |SlotPairs| ==> SlotPairNames[k] == SlotPairName(SlotPairs[k])
  {
  }

  /** `SLOT_PAIR_CONFIG[p].slotA`: the slot with the smaller id. */
  function SlotA(p: SlotPair): (s: int)
    ensures ValidSlotId(s)
  {
    match p
    case HeadBody => Head
    case BodyHands => Body
    case BodyLegs => Body
    case LegsFeet => Legs
  }

  /** `SLOT_PAIR_CONFIG[p].slotB`: the slot with the larger id. */
  function SlotB(p: SlotPair): (s: int)
    ensures ValidSlotId(s) && s > SlotA(p)
  {
    match p
    case HeadBody => Body
    case BodyHands => Hands
    case BodyLegs => Legs
    case LegsFeet => Feet
  }

  /** A row of the glamour table: one item a character wears in one slot. */
  datatype GlamourRow = GlamourRow(characterId: string, slotId: int, itemId: string)

  /** A row of the item cache: an item seen while scraping, and its icon once fetched. */
  datatype ItemCacheRow = ItemCacheRow(id: string, name: string, slotId: int, iconUrl: Option<string>)

  /** A row of the crawl progress table. */
  datatype CrawlProgressRow = CrawlProgressRow(crawlerName: string, lastCompletedIndex: int, totalKeys: int, processedCharacters: int)

  /** The scraper's staging database: the glamour table, the item cache and the crawl progress table. */
  class StagingDb {
    var glamour: seq<GlamourRow>
    var itemsCache: seq<ItemCacheRow>
    var crawlProgress: seq<CrawlProgressRow>

    constructor (glamour: seq<GlamourRow>, itemsCache: seq<ItemCacheRow>, crawlProgress: seq<CrawlProgressRow>)
      ensures this.glamour == glamour && this.itemsCache == itemsCache && this.crawlProgress == crawlProgress
    {
      this.glamour := glamour;
      this.itemsCache := itemsCache;
      this.crawlProgress := crawlProgress;
    }
  }
}
