/**
 * The game objects the actions load, change and write back: items and the
 * inventory, mail, the avatar, the combination slot, the weekly arena and the
 * shop's orders. Each is a value; an action changes its own copy.
 */
module Entities {
  import opened Wrappers
  import opened Base

  // ---------------------------------------------------------------- items

  /** The two kinds of `ItemUsable`: only equipment can be enhanced. */
  datatype UsableKind = Equipment | Consumable

  /** A uniquely identified usable item with its enhancement level and its lock height. */
  datatype ItemUsable = ItemUsable(
    itemId: Guid,
    kind: UsableKind,
    subType: ItemSubType,
    grade: int,
    level: int,
    requiredBlockIndex: int,
    equipped: bool)

  /** A costume: non-fungible, but not an `ItemUsable`. */
  datatype Costume = Costume(itemId: Guid, subType: ItemSubType, equipped: bool)

  /** A fungible item of a sheet row; `id` is the row id that `OrderBy(i => i.Id)` sorts by. */
  datatype ItemBase = ItemBase(id: int, subType: ItemSubType)

  datatype InventoryItem =
    | UsableItem(usable: ItemUsable)
    | CostumeItem(costume: Costume)
    | FungibleItem(item: ItemBase, count: nat)

  datatype Inventory = Inventory(items: seq<InventoryItem>)

  predicate IsUsableWithId(e: InventoryItem, id: Guid)
  {
    e.UsableItem? && e.usable.itemId == id
  }

  /** The id a non-fungible entry carries. */
  function NonFungibleId(e: InventoryItem): Option<Guid>
  {
    match e
    case UsableItem(u) => Some(u.itemId)
    case CostumeItem(c) => Some(c.itemId)
    case FungibleItem(_, _) => None
  }

  /** No two non-fungible entries share an id. */
  predicate UniqueNonFungibleIds(items: seq<InventoryItem>)
  {
    forall i, j :: 0 <= i < j < |items| && NonFungibleId(items[i]).Some? ==> NonFungibleId(items[i]) != NonFungibleId(items[j])
  }

  /** The position of the first usable item with `id`, or `|items|` when there is none. */
  function UsableIndex(items: seq<InventoryItem>, id: Guid): (i: nat)
    ensures i <= |items|
    ensures i < |items| ==> IsUsableWithId(items[i], id)
    ensures forall j :: 0 <= j < i ==> !IsUsableWithId(items[j], id)
  {
    if items == [] then 0
    else if IsUsableWithId(items[0], id) then 0
    else 1 + UsableIndex(items[1..], id)
  }

  /** The position of the first non-fungible entry with `id`, or `|items|` when there is none. */
  function NonFungibleIndex(items: seq<InventoryItem>, id: Guid): (i: nat)
    ensures i <= |items|
    ensures i < |items| ==> NonFungibleId(items[i]) == Some(id)
    ensures forall j :: 0 <= j < i ==> NonFungibleId(items[j]) != Some(id)
  {
    if items == [] then 0
    else if NonFungibleId(items[0]) == Some(id) then 0
    else 1 + NonFungibleIndex(items[1..], id)
  }

  /** `Inventory.TryGetNonFungibleItem<ItemUsable>`: the first usable item with `id`. */
  function FindNonFungible(inv: Inventory, id: Guid): (r: Option<ItemUsable>)
    ensures r.Some? ==> r.value.itemId == id && UsableItem(r.value) in inv.items
    ensures r.None? <==> forall k :: 0 <= k < |inv.items| ==> !IsUsableWithId(inv.items[k], id)
  {
    var i := UsableIndex(inv.items, id);
    if i == |inv.items| then None else Some(inv.items[i].usable)
  }

  /** `Inventory.RemoveNonFungibleItem`: drops the first non-fungible entry with `id`, if any. */
  function RemoveNonFungible(inv: Inventory, id: Guid): (r: Inventory)
    ensures NonFungibleIndex(inv.items, id) == |inv.items| ==> r == inv
    ensures NonFungibleIndex(inv.items, id) < |inv.items| ==>
      |r.items| == |inv.items| - 1 &&
      multiset(r.items) + multiset{inv.items[NonFungibleIndex(inv.items, id)]} == multiset(inv.items)
  {
    var i := NonFungibleIndex(inv.items, id);
    if i == |inv.items| then inv
    else
      assert inv.items == inv.items[..i] + [inv.items[i]] + inv.items[i + 1..];
      Inventory(inv.items[..i] + inv.items[i + 1..])
  }

  /** With unique ids, nothing with `id` is left after the removal. */
  lemma RemoveNonFungibleGone(inv: Inventory, id: Guid)
    requires UniqueNonFungibleIds(inv.items)
    ensures forall e :: e in RemoveNonFungible(inv, id).items ==> NonFungibleId(e) != Some(id)
  {
    var i := NonFungibleIndex(inv.items, id);
    if i < |inv.items| {
      var r := RemoveNonFungible(inv, id).items;
      forall e | e in r ensures NonFungibleId(e) != Some(id) {
        var k :| 0 <= k < |r| && r[k] == e;
        if k >= i {
          assert r[k] == inv.items[k + 1];
        }
      }
    }
  }

  /** Removal keeps the other entries' ids unique. */
  lemma RemoveNonFungibleUnique(inv: Inventory, id: Guid)
    requires UniqueNonFungibleIds(inv.items)
    ensures UniqueNonFungibleIds(RemoveNonFungible(inv, id).items)
  {
    var i := NonFungibleIndex(inv.items, id);
    if i < |inv.items| {
      var r := RemoveNonFungible(inv, id).items;
      forall a, b | 0 <= a < b < |r| && NonFungibleId(r[a]).Some?
        ensures NonFungibleId(r[a]) != NonFungibleId(r[b])
      {
        var a' := if a < i then a else a + 1;
        var b' := if b < i then b else b + 1;
        assert r[a] == inv.items[a'] && r[b] == inv.items[b'];
      }
    }
  }

  /** The position of the first stack of `item`, or `|items|` when there is none. */
  function StackIndex(items: seq<InventoryItem>, item: ItemBase): (i: nat)
    ensures i <= |items|
    ensures i < |items| ==> items[i].FungibleItem? && items[i].item == item
    ensures forall j :: 0 <= j < i ==> !(items[j].FungibleItem? && items[j].item == item)
  {
    if items == [] then 0
    else if items[0].FungibleItem? && items[0].item == item then 0
    else 1 + StackIndex(items[1..], item)
  }

  /** How many of `item` the entries hold. */
  function Count(items: seq<InventoryItem>, item: ItemBase): nat
  {
    if items == [] then 0
    else (if items[0].FungibleItem? && items[0].item == item then items[0].count else 0) + Count(items[1..], item)
  }

  lemma {:induction false} CountAppend(a: seq<InventoryItem>, b: seq<InventoryItem>, item: ItemBase)
    ensures Count(a + b, item) == Count(a, item) + Count(b, item)
  {
    if a != [] {
      assert (a + b)[1..] == a[1..] + b;
      CountAppend(a[1..], b, item);
    } else {
      assert a + b == b;
    }
  }

  lemma {:induction false} CountUpdate(items: seq<InventoryItem>, k: nat, e: InventoryItem, item: ItemBase)
    requires k < |items|
    ensures Count(items[k := e], item) + Count([items[k]], item) == Count(items, item) + Count([e], item)
  {
    if k > 0 {
      assert items[k := e][1..] == items[1..][k - 1 := e];
      CountUpdate(items[1..], k - 1, e, item);
    } else {
      assert items[k := e][1..] == items[1..];
    }
  }

  /** `Inventory.AddItem(item, 1)` for a fungible item: the first stack of it grows by one, or a new stack is appended. */
  function AddItem(inv: Inventory, item: ItemBase): (r: Inventory)
    ensures Count(r.items, item) == Count(inv.items, item) + 1
    ensures forall other :: other != item ==> Count(r.items, other) == Count(inv.items, other)
    ensures |r.items| >= |inv.items|
    ensures forall k :: 0 <= k < |inv.items| && !inv.items[k].FungibleItem? ==> r.items[k] == inv.items[k]
    ensures forall k :: 0 <= k < |r.items| && r.items[k].FungibleItem? ==> k < |inv.items| ==> inv.items[k].FungibleItem?
    ensures forall k :: |inv.items| <= k < |r.items| ==> r.items[k].FungibleItem?
  {
    var k := StackIndex(inv.items, item);
    if k < |inv.items| then
      var e := FungibleItem(item, inv.items[k].count + 1);
      var r := Inventory(inv.items[k := e]);
      forall other ensures Count(r.items, other) + Count([inv.items[k]], other) == Count(inv.items, other) + Count([e], other) {
        CountUpdate(inv.items, k, e, other);
      }
      assert forall other :: Count([e], other) == (if e.item == other then e.count else 0) + Count([], other);
      assert forall other :: Count([inv.items[k]], other) == (if inv.items[k].item == other then inv.items[k].count else 0) + Count([], other);
      r
    else
      var r := Inventory(inv.items + [FungibleItem(item, 1)]);
      forall other ensures Count(r.items, other) == Count(inv.items, other) + Count([FungibleItem(item, 1)], other) {
        CountAppend(inv.items, [FungibleItem(item, 1)], other);
      }
      assert forall other :: Count([FungibleItem(item, 1)], other) == (if item == other then 1 else 0) + Count([], other);
      r
  }

  // ---------------------------------------------------------------- results and mail

  /**
   * `ItemEnhancement7.ResultModel`: the enhanced item, the material ids consumed,
   * the gold recorded and the action points spent; `id` is the mail's id.
   */
  datatype EnhancementResult = EnhancementResult(
    id: Guid,
    materialItemIdList: seq<Guid>,
    gold: int,
    actionPoint: Int32,
    itemUsable: ItemUsable)

  datatype Mail =
    | ItemEnhanceMail(id: Guid, blockIndex: int, requiredBlockIndex: int, attachment: EnhancementResult)
    | OrderExpirationMail(id: Guid, blockIndex: int, orderId: Guid)
    | CancelOrderMail(id: Guid, blockIndex: int, requiredBlockIndex: int, orderId: Guid)
    | OtherMail(id: Guid, blockIndex: int)

  predicate IsExpirationOf(m: Mail, orderId: Guid)
  {
    m.OrderExpirationMail? && m.orderId == orderId
  }

  /** The position of the first expiration mail of `orderId`, or `|mails|`. */
  function ExpirationMailIndex(mails: seq<Mail>, orderId: Guid): (i: nat)
    ensures i <= |mails|
    ensures i < |mails| ==> IsExpirationOf(mails[i], orderId)
    ensures forall j :: 0 <= j < i ==> !IsExpirationOf(mails[j], orderId)
  {
    if mails == [] then 0
    else if IsExpirationOf(mails[0], orderId) then 0
    else 1 + ExpirationMailIndex(mails[1..], orderId)
  }

  // ---------------------------------------------------------------- avatar

  /** The avatar's world progress, reduced to the last stage it cleared (none yet: `None`). */
  datatype WorldInformation = WorldInformation(lastClearedStageId: Option<int>)

  predicate IsStageCleared(w: WorldInformation, stageId: int)
  {
    w.lastClearedStageId.Some? && w.lastClearedStageId.value >= stageId
  }

  /** The quest list, carried along unchanged by this model. */
  datatype QuestList = QuestList(completedQuestIds: seq<int>)

  /** An agent (a player account) and the avatars it owns. */
  datatype Agent = Agent(avatarAddresses: set<Address>)

  datatype Avatar = Avatar(
    agentAddress: Address,
    actionPoint: int,
    inventory: Inventory,
    mailBox: seq<Mail>,
    worldInformation: WorldInformation,
    questList: QuestList,
    updatedAt: int,
    blockIndex: int)

  /** `AvatarState.UpdateV2` / `UpdateV3` as far as the mailbox goes: the mail is appended. */
  function AddMail(avatar: Avatar, mail: Mail): (r: Avatar)
    ensures r.mailBox == avatar.mailBox + [mail]
    ensures r.(mailBox := avatar.mailBox) == avatar
  {
    avatar.(mailBox := avatar.mailBox + [mail])
  }

  /** `AvatarState.EquipItems`: exactly the listed equipment and costumes are worn afterwards. */
  function EquipItems(inv: Inventory, ids: seq<Guid>): (r: Inventory)
    ensures |r.items| == |inv.items|
    ensures forall k :: 0 <= k < |inv.items| ==> NonFungibleId(r.items[k]) == NonFungibleId(inv.items[k])
  {
    Inventory(seq(|inv.items|, k requires 0 <= k < |inv.items| => Equip(inv.items[k], ids)))
  }

  function Equip(e: InventoryItem, ids: seq<Guid>): InventoryItem
  {
    match e
    case UsableItem(u) => if u.kind == Equipment then UsableItem(u.(equipped := u.itemId in ids)) else e
    case CostumeItem(c) => CostumeItem(c.(equipped := c.itemId in ids))
    case FungibleItem(_, _) => e
  }

  // ---------------------------------------------------------------- combination slot

  /** `CombinationSlotState`: locked until `unlockBlockIndex`, usable once `unlockStage` is cleared. */
  datatype CombinationSlot = CombinationSlot(
    unlockBlockIndex: int,
    unlockStage: int,
    startBlockIndex: int,
    result: Option<EnhancementResult>)

  /** `CombinationSlotState.Validate`. */
  predicate SlotAvailable(slot: CombinationSlot, avatar: Avatar, blockIndex: int)
  {
    IsStageCleared(avatar.worldInformation, slot.unlockStage) && blockIndex >= slot.unlockBlockIndex
  }

  /** `CombinationSlotState.Update`: holds `result`, started now, locked until `requiredBlockIndex`. */
  function UpdateSlot(slot: CombinationSlot, result: EnhancementResult, blockIndex: int, requiredBlockIndex: int): (r: CombinationSlot)
    ensures r.result == Some(result) && r.startBlockIndex == blockIndex && r.unlockBlockIndex == requiredBlockIndex
    ensures r.unlockStage == slot.unlockStage
  {
    slot.(unlockBlockIndex := requiredBlockIndex, startBlockIndex := blockIndex, result := Some(result))
  }

  // ---------------------------------------------------------------- weekly arena

  datatype ArenaInfo = ArenaInfo(avatarAddress: Address, active: bool, dailyChallengeCount: int, score: int)

  /** `ArenaInfo.Activate`. */
  function Activate(info: ArenaInfo): (r: ArenaInfo)
    ensures r.active
    ensures r.(active := info.active) == info
  {
    info.(active := true)
  }

  lemma ActivateActive(info: ArenaInfo)
    requires info.active
    ensures Activate(info) == info
  {
  }

  datatype WeeklyArena = WeeklyArena(address: Address, ended: bool, infos: map<Address, ArenaInfo>)

  // ---------------------------------------------------------------- shop

  datatype Order = Order(
    orderId: Guid,
    tradableId: Guid,
    sellerAvatarAddress: Address,
    itemSubType: ItemSubType,
    expiredBlockIndex: int)

  datatype OrderDigest = OrderDigest(orderId: Guid, tradableId: Guid, expiredBlockIndex: int)

  datatype OrderDigestList = OrderDigestList(address: Address, digests: seq<OrderDigest>)

  /** The digests not of `orderId`, in order. */
  function WithoutOrder(ds: seq<OrderDigest>, orderId: Guid): (r: seq<OrderDigest>)
    ensures forall d :: d in r <==> d in ds && d.orderId != orderId
    ensures |r| <= |ds|
  {
    if ds == [] then []
    else
      assert forall d :: d in ds <==> d == ds[0] || d in ds[1..];
      if ds[0].orderId == orderId then WithoutOrder(ds[1..], orderId)
      else [ds[0]] + WithoutOrder(ds[1..], orderId)
  }

  /** `OrderDigestListState.Remove`: the digests of `orderId` are dropped. */
  function RemoveDigest(list: OrderDigestList, orderId: Guid): (r: OrderDigestList)
    ensures r.address == list.address
    ensures forall d :: d in r.digests <==> d in list.digests && d.orderId != orderId
  {
    OrderDigestList(list.address, WithoutOrder(list.digests, orderId))
  }

  /** A shop shard's listing, as its product ids. */
  datatype ShardedShop = ShardedShop(address: Address, productIds: seq<Guid>)

  /** A tradable item as written back to its own item address. */
  datatype TradableItem = TradableItem(tradableId: Guid, requiredBlockIndex: int)
}
