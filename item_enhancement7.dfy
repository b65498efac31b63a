/**
 * `ItemEnhancement7` (action type `item_enhancement7`): raises an equipment's
 * level by one, consuming a matching equipment as material, action points and,
 * when the cost table lists a positive cost, gold paid to the Blacksmith. The
 * avatar is read and written in the split layout.
 */
module ItemEnhancement7 {
  import opened Wrappers
  import opened Base
  import opened Entities
  import opened World
  import opened PlainValues
  import opened Sorting

  /** Blocks an enhanced item and its slot stay locked. */
  const RequiredBlockCount := 1

  /** The highest level that can still be enhanced: the guard is `level > 9`. */
  const MaxEnhanceableLevel := 9

  /** The action's fields. */
  datatype Action = Action(itemId: Guid, materialId: Guid, avatarAddress: Address, slotIndex: Int32)

  // ---------------------------------------------------------------- cost lookup

  predicate RowMatches(row: CostRow, grade: int, level: int)
  {
    row.grade == grade && row.level == level
  }

  /** The position of the first row for (`grade`, `level`), or `|sheet|` when there is none. */
  function CostRowIndex(sheet: seq<CostRow>, grade: int, level: int): (i: nat)
    ensures i <= |sheet|
    ensures i < |sheet| ==> RowMatches(sheet[i], grade, level)
    ensures forall j :: 0 <= j < i ==> !RowMatches(sheet[j], grade, level)
  {
    if sheet == [] || RowMatches(sheet[0], grade, level) then 0
    else CostRowIndex(sheet[1..], grade, level) + 1
  }

  /** `GetRequiredNCG`: the cost of the first row for (`grade`, `level`) in sheet order, or 0 when the sheet has none. */
  function GetRequiredNCG(sheet: seq<CostRow>, grade: int, level: int): (r: int)
    ensures var i := CostRowIndex(sheet, grade, level); r == if i < |sheet| then sheet[i].cost else 0
  {
    if sheet == [] then 0
    else if RowMatches(sheet[0], grade, level) then sheet[0].cost
    else GetRequiredNCG(sheet[1..], grade, level)
  }

  /** `UpgradeEquipment` (`Equipment.LevelUp`): the same item, one level higher. */
  function UpgradeEquipment(e: ItemUsable): (r: ItemUsable)
    ensures r.itemId == e.itemId && r.level == e.level + 1
    ensures r.kind == e.kind && r.subType == e.subType && r.grade == e.grade
    ensures r.requiredBlockIndex == e.requiredBlockIndex && r.equipped == e.equipped
  {
    e.(level := e.level + 1)
  }

  // ---------------------------------------------------------------- result serialisation

  /** `ResultModel.Serialize`, without the part the base class adds: the material ids are sorted. */
  function SerializeResult(r: EnhancementResult): (d: Dict)
    ensures d.Keys == {"id", "materialItemIdList", "gold", "actionPoint"}
  {
    map[
      "id" := PGuid(r.id),
      "materialItemIdList" := PList(EncodeGuids(SortBy(r.materialItemIdList, GuidKey))),
      "gold" := PInt(r.gold),
      "actionPoint" := PInt(r.actionPoint)]
  }

  /** The fields the deserialising `ResultModel` constructor reads. */
  datatype ResultFields = ResultFields(id: Guid, materialItemIdList: seq<Guid>, gold: int, actionPoint: Int32)

  /** The deserialising `ResultModel` constructor. */
  function DeserializeResult(d: Dict): (r: Result<ResultFields, DecodeError>)
    ensures r.Success? <==>
      HasGuid(d, "id") && HasGuidList(d, "materialItemIdList") && "gold" in d && d["gold"].PInt? && HasInt32(d, "actionPoint")
    ensures "id" !in d ==> r == Failure(KeyNotFound("id"))
    ensures HasGuid(d, "id") && "materialItemIdList" !in d ==> r == Failure(KeyNotFound("materialItemIdList"))
    ensures HasGuid(d, "id") && HasGuidList(d, "materialItemIdList") && "gold" !in d ==> r == Failure(KeyNotFound("gold"))
    ensures (HasGuid(d, "id") && HasGuidList(d, "materialItemIdList") && "gold" in d && d["gold"].PInt? && "actionPoint" !in d)
      ==> r == Failure(KeyNotFound("actionPoint"))
    ensures r.Success? ==> "id" in d && "materialItemIdList" in d && "gold" in d && "actionPoint" in d
    ensures r.Success? ==> d["id"] == PGuid(r.value.id) && d["materialItemIdList"] == PList(EncodeGuids(r.value.materialItemIdList))
    ensures r.Success? ==> d["gold"] == PInt(r.value.gold) && d["actionPoint"] == PInt(r.value.actionPoint)
  {
    match GetGuid(d, "id")
    case Failure(e) => Failure(e)
    case Success(id) =>
      match GetGuidList(d, "materialItemIdList")
      case Failure(e) => Failure(e)
      case Success(ids) =>
        match GetInteger(d, "gold")
        case Failure(e) => Failure(e)
        case Success(gold) =>
          match GetInt32(d, "actionPoint")
          case Failure(e) => Failure(e)
          case Success(ap) => Success(ResultFields(id, ids, gold, ap))
  }

  /** Decoding a serialised result gives its fields back, the material ids in sorted order. */
  lemma ResultRoundTrip(r: EnhancementResult)
    ensures DeserializeResult(SerializeResult(r)) ==
      Success(ResultFields(r.id, SortBy(r.materialItemIdList, GuidKey), r.gold, r.actionPoint))
  {
    var d := SerializeResult(r);
    var sorted := SortBy(r.materialItemIdList, GuidKey);
    assert GetGuid(d, "id") == Success(r.id);
    GetEncodedGuidList(d, "materialItemIdList", sorted);
    assert GetInteger(d, "gold") == Success(r.gold);
    assert GetInt32(d, "actionPoint") == Success(r.actionPoint);
  }

  // ---------------------------------------------------------------- action serialisation

  /** `PlainValueInternal`. */
  function PlainValueInternal(a: Action): (d: Dict)
    ensures d.Keys == {"itemId", "materialId", "avatarAddress", "slotIndex"}
  {
    map[
      "itemId" := PGuid(a.itemId),
      "materialId" := PGuid(a.materialId),
      "avatarAddress" := PAddress(a.avatarAddress),
      "slotIndex" := PInt(a.slotIndex)]
  }

  /**
   * `LoadPlainValueInternal` applied to an action whose fields were `prior`:
   * `slotIndex` is optional and keeps its prior value when absent.
   */
  function LoadPlainValueInternal(d: Dict, prior: Action): (r: Result<Action, DecodeError>)
    ensures r.Success? <==>
      HasGuid(d, "itemId") && HasGuid(d, "materialId") && HasAddress(d, "avatarAddress") && ("slotIndex" in d ==> HasInt32(d, "slotIndex"))
    ensures "itemId" !in d ==> r == Failure(KeyNotFound("itemId"))
    ensures HasGuid(d, "itemId") && "materialId" !in d ==> r == Failure(KeyNotFound("materialId"))
    ensures HasGuid(d, "itemId") && HasGuid(d, "materialId") && "avatarAddress" !in d ==> r == Failure(KeyNotFound("avatarAddress"))
    ensures r.Success? ==> "itemId" in d && "materialId" in d && "avatarAddress" in d
    ensures r.Success? ==>
      d["itemId"] == PGuid(r.value.itemId) && d["materialId"] == PGuid(r.value.materialId) && d["avatarAddress"] == PAddress(r.value.avatarAddress)
    ensures r.Success? ==> "slotIndex" !in d ==> r.value.slotIndex == prior.slotIndex
    ensures r.Success? ==> "slotIndex" in d ==> d["slotIndex"] == PInt(r.value.slotIndex)
  {
    match GetGuid(d, "itemId")
    case Failure(e) => Failure(e)
    case Success(itemId) =>
      match GetGuid(d, "materialId")
      case Failure(e) => Failure(e)
      case Success(materialId) =>
        match GetAddress(d, "avatarAddress")
        case Failure(e) => Failure(e)
        case Success(avatarAddress) =>
          if "slotIndex" in d then
            match ToInt32(d["slotIndex"], "slotIndex")
            case Failure(e) => Failure(e)
            case Success(slotIndex) => Success(Action(itemId, materialId, avatarAddress, slotIndex))
          else Success(Action(itemId, materialId, avatarAddress, prior.slotIndex))
  }

  /** Decoding an encoded action gives it back, whatever the prior fields. */
  lemma PlainValueRoundTrip(a: Action, prior: Action)
    ensures LoadPlainValueInternal(PlainValueInternal(a), prior) == Success(a)
  {
  }

  /** An encoding without `slotIndex`, as older transactions have it, decodes with the prior slot index. */
  lemma PlainValueWithoutSlotIndex(a: Action, prior: Action)
    ensures LoadPlainValueInternal(PlainValueInternal(a) - {"slotIndex"}, prior) == Success(a.(slotIndex := prior.slotIndex))
  {
  }

  // ---------------------------------------------------------------- rehearsal

  /** The state addresses the action may write. */
  function RehearsalAddresses(a: Action): set<Address>
  {
    {a.avatarAddress, InventoryAddress(a.avatarAddress), WorldInformationAddress(a.avatarAddress),
     QuestListAddress(a.avatarAddress), SlotAddress(a.avatarAddress, a.slotIndex)}
  }

  /** The rehearsal result: signer and Blacksmith balances and the five state addresses marked; nothing is validated. */
  function Rehearsal(a: Action, ctx: Context, s: Snapshot): (r: Snapshot)
    ensures r.balances == s.balances
    ensures r.updatedBalances == s.updatedBalances + {ctx.signer, Blacksmith}
    ensures r.updatedAddresses == s.updatedAddresses + RehearsalAddresses(a)
    ensures forall x :: GetState(r, x) == if x in RehearsalAddresses(a) then Some(MarkChanged) else GetState(s, x)
  {
    var avatar := a.avatarAddress;
    var marked := MarkBalanceChanged(s, {ctx.signer, Blacksmith});
    var s1 := SetState(marked, avatar, MarkChanged);
    var s2 := SetState(s1, InventoryAddress(avatar), MarkChanged);
    var s3 := SetState(s2, WorldInformationAddress(avatar), MarkChanged);
    var s4 := SetState(s3, QuestListAddress(avatar), MarkChanged);
    SetState(s4, SlotAddress(avatar, a.slotIndex), MarkChanged)
  }

  // ---------------------------------------------------------------- validation ladder

  /**
   * The error a real execution fails with, or `None` when it succeeds: the first
   * guard that does not hold, in the order the action checks them.
   */
  function Rejection(a: Action, ctx: Context, env: Env, s: Snapshot): Option<ErrorKind>
  {
    if Obsolete(env.obsoleteIndex70, ctx) then Some(ActionObsolete)
    else match LoadAgentAvatarV2(s, ctx.signer, a.avatarAddress)
    case None => Some(FailedLoadState)
    case Some(avatar) =>
      match FindNonFungible(avatar.inventory, a.itemId)
      case None => Some(ItemDoesNotExist)
      case Some(item) =>
        if item.requiredBlockIndex > ctx.blockIndex then Some(RequiredBlockIndex)
        else if item.kind != Equipment then Some(InvalidCast)
        else match SlotAt(s, SlotAddress(a.avatarAddress, a.slotIndex))
        case None => Some(FailedLoadState)
        case Some(slot) =>
          if !SlotAvailable(slot, avatar, ctx.blockIndex) then Some(CombinationSlotUnlock)
          else if item.level > MaxEnhanceableLevel then Some(EquipmentLevelExceeded)
          else EnhanceRejection(a, ctx, env, s, avatar, item)
  }

  /** The guards after the target and the slot passed: action points, then the payment, then the material. */
  function EnhanceRejection(a: Action, ctx: Context, env: Env, s: Snapshot, avatar: Avatar, item: ItemUsable): Option<ErrorKind>
  {
    var cost := GetRequiredNCG(env.costSheet, item.grade, item.level + 1);
    if avatar.actionPoint < env.requiredAP then Some(NotEnoughActionPoint)
    else if cost > 0 && Balance(s, ctx.signer) < cost then Some(InsufficientBalance)
    else MaterialRejection(item, avatar.inventory, a.materialId, ctx.blockIndex)
  }

  /** The material guards, checked last: found, unlocked, equipment, not the target, then same sub-type, grade and level. */
  function MaterialRejection(item: ItemUsable, inv: Inventory, materialId: Guid, blockIndex: int): Option<ErrorKind>
  {
    match FindNonFungible(inv, materialId)
    case None => Some(NotEnoughMaterial)
    case Some(material) =>
      if material.requiredBlockIndex > blockIndex then Some(RequiredBlockIndex)
      else if material.kind != Equipment then Some(InvalidCast)
      else if item.itemId == materialId then Some(InvalidMaterial(SameAsTarget))
      else if material.subType != item.subType then Some(InvalidMaterial(SubTypeMismatch))
      else if material.grade != item.grade then Some(InvalidMaterial(GradeMismatch))
      else if material.level != item.level then Some(InvalidMaterial(LevelMismatch))
      else None
  }

  // ---------------------------------------------------------------- effect of a success

  /** The enhanced copy of the target that the result carries. */
  function Enhanced(item: ItemUsable, ctx: Context): (r: ItemUsable)
    ensures r.itemId == item.itemId && r.level == item.level + 1 && !r.equipped
    ensures r.requiredBlockIndex == ctx.blockIndex + RequiredBlockCount
    ensures r.kind == item.kind && r.subType == item.subType && r.grade == item.grade
  {
    UpgradeEquipment(item.(equipped := false)).(requiredBlockIndex := ctx.blockIndex + RequiredBlockCount)
  }

  /** The result recorded in the mail and the slot: version 7 records the gold paid. */
  function ResultOf(a: Action, ctx: Context, env: Env, item: ItemUsable): (r: EnhancementResult)
    ensures r.gold == GetRequiredNCG(env.costSheet, item.grade, item.level + 1)
    ensures r.materialItemIdList == [a.materialId] && r.actionPoint == env.requiredAP
    ensures r.itemUsable == Enhanced(item, ctx) && r.id == env.randomGuid(ctx.random)
    ensures r.itemUsable.itemId == item.itemId && r.itemUsable.level == item.level + 1
  {
    EnhancementResult(
      env.randomGuid(ctx.random),
      [a.materialId],
      GetRequiredNCG(env.costSheet, item.grade, item.level + 1),
      env.requiredAP,
      Enhanced(item, ctx))
  }

  /** The avatar, the target equipment and the slot a real execution works on, when all three load. */
  function Loaded(a: Action, ctx: Context, s: Snapshot): Option<(Avatar, ItemUsable, CombinationSlot)>
  {
    match LoadAgentAvatarV2(s, ctx.signer, a.avatarAddress)
    case None => None
    case Some(avatar) =>
      match FindNonFungible(avatar.inventory, a.itemId)
      case None => None
      case Some(item) =>
        match SlotAt(s, SlotAddress(a.avatarAddress, a.slotIndex))
        case None => None
        case Some(slot) => Some((avatar, item, slot))
  }

  /** The avatar after a successful enhancement: action points spent, material and target gone, the mail delivered. */
  function EnhancedAvatar(a: Action, ctx: Context, env: Env, avatar: Avatar, item: ItemUsable): (r: Avatar)
    ensures r.actionPoint == avatar.actionPoint - env.requiredAP
    ensures |r.mailBox| == |avatar.mailBox| + 1 && r.mailBox[..|avatar.mailBox|] == avatar.mailBox
    ensures r.mailBox[|avatar.mailBox|] == ItemEnhanceMail(ResultOf(a, ctx, env, item).id, ctx.blockIndex, ctx.blockIndex + RequiredBlockCount, ResultOf(a, ctx, env, item))
    ensures r.inventory == RemoveNonFungible(RemoveNonFungible(avatar.inventory, a.materialId), a.itemId)
    ensures r.agentAddress == avatar.agentAddress && r.worldInformation == avatar.worldInformation && r.questList == avatar.questList
    ensures r.updatedAt == avatar.updatedAt && r.blockIndex == avatar.blockIndex
  {
    var result := ResultOf(a, ctx, env, item);
    avatar.(
      actionPoint := avatar.actionPoint - env.requiredAP,
      inventory := RemoveNonFungible(RemoveNonFungible(avatar.inventory, a.materialId), a.itemId),
      mailBox := avatar.mailBox + [ItemEnhanceMail(result.id, ctx.blockIndex, ctx.blockIndex + RequiredBlockCount, result)])
  }

  /** The slot holds the result and is locked until the next block. */
  ghost predicate SlotFilled(a: Action, ctx: Context, env: Env, s: Snapshot, s': Snapshot)
  {
    Loaded(a, ctx, s).Some? &&
    var (_, item, slot) := Loaded(a, ctx, s).value;
    SlotAt(s', SlotAddress(a.avatarAddress, a.slotIndex)) ==
      Some(UpdateSlot(slot, ResultOf(a, ctx, env, item), ctx.blockIndex, ctx.blockIndex + RequiredBlockCount))
  }

  /** The avatar, read back in the split layout, is the enhanced one. */
  ghost predicate AvatarEnhanced(a: Action, ctx: Context, env: Env, s: Snapshot, s': Snapshot)
  {
    Loaded(a, ctx, s).Some? &&
    var (avatar, item, _) := Loaded(a, ctx, s).value;
    AvatarV2At(s', a.avatarAddress) == Some(EnhancedAvatar(a, ctx, env, avatar, item))
  }

  /** Gold moves from the signer to the Blacksmith when, and only when, the cost is positive. */
  ghost predicate GoldPaid(a: Action, ctx: Context, env: Env, s: Snapshot, s': Snapshot)
  {
    Loaded(a, ctx, s).Some? &&
    var (_, item, _) := Loaded(a, ctx, s).value;
    var cost := GetRequiredNCG(env.costSheet, item.grade, item.level + 1);
    if cost > 0 then
      var paid := TransferAsset(s, ctx.signer, Blacksmith, cost);
      paid.Success? && s'.balances == paid.value.balances && s'.updatedBalances == s.updatedBalances + {ctx.signer, Blacksmith}
    else s'.balances == s.balances && s'.updatedBalances == s.updatedBalances
  }

  /** Exactly the rehearsed addresses are written; every other state is as before. */
  ghost predicate OnlyRehearsedWritten(a: Action, s: Snapshot, s': Snapshot)
  {
    && s'.updatedAddresses == s.updatedAddresses + RehearsalAddresses(a)
    && forall x :: x !in RehearsalAddresses(a) ==> GetState(s', x) == GetState(s, x)
  }

  /** The state a successful execution stores over the state `paid` left after the payment. */
  function Stored(a: Action, ctx: Context, env: Env, paid: Snapshot, avatar: Avatar, item: ItemUsable, slot: CombinationSlot): Snapshot
  {
    SetState(SetAvatarV2(paid, a.avatarAddress, EnhancedAvatar(a, ctx, env, avatar, item)),
      SlotAddress(a.avatarAddress, a.slotIndex),
      SlotValue(UpdateSlot(slot, ResultOf(a, ctx, env, item), ctx.blockIndex, ctx.blockIndex + RequiredBlockCount)))
  }

  /** The stored state holds the filled slot and the enhanced avatar. */
  lemma StoredSlotAndAvatar(a: Action, ctx: Context, env: Env, s: Snapshot, paid: Snapshot, avatar: Avatar, item: ItemUsable, slot: CombinationSlot)
    requires Loaded(a, ctx, s) == Some((avatar, item, slot))
    ensures SlotFilled(a, ctx, env, s, Stored(a, ctx, env, paid, avatar, item, slot))
    ensures AvatarEnhanced(a, ctx, env, s, Stored(a, ctx, env, paid, avatar, item, slot))
  {
    SlotWriteKeepsAvatar(SetAvatarV2(paid, a.avatarAddress, EnhancedAvatar(a, ctx, env, avatar, item)), a.avatarAddress, a.slotIndex,
      SlotValue(UpdateSlot(slot, ResultOf(a, ctx, env, item), ctx.blockIndex, ctx.blockIndex + RequiredBlockCount)));
  }

  /** Storing over the paid state keeps the balances the payment left. */
  lemma StoredPaid(a: Action, ctx: Context, env: Env, s: Snapshot, paid: Snapshot, avatar: Avatar, item: ItemUsable, slot: CombinationSlot)
    requires Loaded(a, ctx, s) == Some((avatar, item, slot))
    requires var cost := GetRequiredNCG(env.costSheet, item.grade, item.level + 1);
      if cost > 0 then TransferAsset(s, ctx.signer, Blacksmith, cost) == Success(paid) else paid == s
    ensures GoldPaid(a, ctx, env, s, Stored(a, ctx, env, paid, avatar, item, slot))
  {
    WritesKeepBalances(paid, a.avatarAddress, EnhancedAvatar(a, ctx, env, avatar, item), SlotAddress(a.avatarAddress, a.slotIndex),
      SlotValue(UpdateSlot(slot, ResultOf(a, ctx, env, item), ctx.blockIndex, ctx.blockIndex + RequiredBlockCount)));
    PaidBalancesSuffice(a, ctx, env, s, paid, Stored(a, ctx, env, paid, avatar, item, slot), item);
  }

  /** Any state with the balances the payment left satisfies the payment predicate. */
  lemma PaidBalancesSuffice(a: Action, ctx: Context, env: Env, s: Snapshot, paid: Snapshot, s': Snapshot, item: ItemUsable)
    requires Loaded(a, ctx, s).Some? && Loaded(a, ctx, s).value.1 == item
    requires var cost := GetRequiredNCG(env.costSheet, item.grade, item.level + 1);
      if cost > 0 then TransferAsset(s, ctx.signer, Blacksmith, cost) == Success(paid) else paid == s
    requires s'.balances == paid.balances && s'.updatedBalances == paid.updatedBalances
    ensures GoldPaid(a, ctx, env, s, s')
  {
    var cost := GetRequiredNCG(env.costSheet, item.grade, item.level + 1);
    if cost > 0 {
      assert paid.updatedBalances == s.updatedBalances + {ctx.signer, Blacksmith};
    }
  }

  /** Writing the avatar and a slot leaves every balance and balance mark alone. */
  lemma WritesKeepBalances(s: Snapshot, avatarAddress: Address, avatar: Avatar, slotAddress: Address, v: Value)
    ensures SetState(SetAvatarV2(s, avatarAddress, avatar), slotAddress, v).balances == s.balances
    ensures SetState(SetAvatarV2(s, avatarAddress, avatar), slotAddress, v).updatedBalances == s.updatedBalances
  {
  }

  /** Storing writes exactly the rehearsed addresses. */
  lemma StoredFrame(a: Action, ctx: Context, env: Env, s: Snapshot, paid: Snapshot, avatar: Avatar, item: ItemUsable, slot: CombinationSlot)
    requires paid.states == s.states && paid.updatedAddresses == s.updatedAddresses
    ensures OnlyRehearsedWritten(a, s, Stored(a, ctx, env, paid, avatar, item, slot))
  {
    var r := Stored(a, ctx, env, paid, avatar, item, slot);
    forall x | x !in RehearsalAddresses(a)
      ensures GetState(r, x) == GetState(s, x)
    {
      assert GetState(paid, x) == GetState(s, x);
    }
  }

  // ---------------------------------------------------------------- properties

  /** Once the target and its slot pass, the action stops at the level cap exactly when the target is above level 9. */
  lemma LevelCap(a: Action, ctx: Context, env: Env, s: Snapshot)
    requires !Obsolete(env.obsoleteIndex70, ctx) && Loaded(a, ctx, s).Some?
    requires var (avatar, item, slot) := Loaded(a, ctx, s).value;
      item.requiredBlockIndex <= ctx.blockIndex && item.kind == Equipment && SlotAvailable(slot, avatar, ctx.blockIndex)
    ensures Rejection(a, ctx, env, s) == Some(EquipmentLevelExceeded) <==> Loaded(a, ctx, s).value.1.level > MaxEnhanceableLevel
  {
  }

  /** A material that differs from the target in sub-type, grade or level is refused with `InvalidMaterial`. */
  lemma MismatchedMaterialRefused(item: ItemUsable, inv: Inventory, materialId: Guid, blockIndex: int)
    requires FindNonFungible(inv, materialId).Some?
    requires var m := FindNonFungible(inv, materialId).value;
      m.requiredBlockIndex <= blockIndex && m.kind == Equipment &&
      (m.subType != item.subType || m.grade != item.grade || m.level != item.level)
    ensures MaterialRejection(item, inv, materialId, blockIndex).Some?
    ensures MaterialRejection(item, inv, materialId, blockIndex).value.InvalidMaterial?
  {
  }

  /** The payment moves the cost from the signer to the Blacksmith and touches no other balance. */
  lemma PaymentConserved(a: Action, ctx: Context, env: Env, s: Snapshot, s': Snapshot)
    requires GoldPaid(a, ctx, env, s, s')
    requires ctx.signer != Blacksmith
    ensures var cost := GetRequiredNCG(env.costSheet, Loaded(a, ctx, s).value.1.grade, Loaded(a, ctx, s).value.1.level + 1);
      Balance(s', ctx.signer) == Balance(s, ctx.signer) - (if cost > 0 then cost else 0) &&
      Balance(s', Blacksmith) == Balance(s, Blacksmith) + (if cost > 0 then cost else 0)
    ensures forall x :: x != ctx.signer && x != Blacksmith ==> Balance(s', x) == Balance(s, x)
  {
    var item := Loaded(a, ctx, s).value.1;
    var cost := GetRequiredNCG(env.costSheet, item.grade, item.level + 1);
    if cost > 0 {
      var paid := TransferAsset(s, ctx.signer, Blacksmith, cost).value;
      assert forall x :: Balance(s', x) == Balance(paid, x);
    } else {
      assert forall x :: Balance(s', x) == Balance(s, x);
    }
  }

  /** A real execution declares no more than its rehearsal did. */
  lemma WithinRehearsal(a: Action, ctx: Context, env: Env, s: Snapshot, s': Snapshot)
    requires GoldPaid(a, ctx, env, s, s') && OnlyRehearsedWritten(a, s, s')
    ensures s'.updatedAddresses == Rehearsal(a, ctx, s).updatedAddresses
    ensures s'.updatedBalances <= Rehearsal(a, ctx, s).updatedBalances
  {
  }

  /** Every entry left after a removal was there before. */
  lemma RemovedFrom(inv: Inventory, id: Guid)
    ensures forall e :: e in RemoveNonFungible(inv, id).items ==> e in inv.items
  {
    var r := RemoveNonFungible(inv, id);
    forall e | e in r.items ensures e in inv.items {
      if NonFungibleIndex(inv.items, id) < |inv.items| {
        assert e in multiset(r.items);
      }
    }
  }

  /** With unique ids, neither the target nor the material is left in the enhanced avatar's inventory. */
  lemma TargetAndMaterialConsumed(a: Action, ctx: Context, env: Env, avatar: Avatar, item: ItemUsable)
    requires UniqueNonFungibleIds(avatar.inventory.items)
    ensures UniqueNonFungibleIds(EnhancedAvatar(a, ctx, env, avatar, item).inventory.items)
    ensures forall e :: e in EnhancedAvatar(a, ctx, env, avatar, item).inventory.items ==>
      NonFungibleId(e) != Some(a.itemId) && NonFungibleId(e) != Some(a.materialId)
  {
    var once := RemoveNonFungible(avatar.inventory, a.materialId);
    RemoveNonFungibleGone(avatar.inventory, a.materialId);
    RemoveNonFungibleUnique(avatar.inventory, a.materialId);
    RemoveNonFungibleGone(once, a.itemId);
    RemoveNonFungibleUnique(once, a.itemId);
    RemovedFrom(once, a.itemId);
  }

  // ---------------------------------------------------------------- execution

  /** `Execute`: rehearsal, or the validation ladder followed by the enhancement. */
  method Execute(a: Action, ctx: Context, env: Env, s: Snapshot) returns (r: Result<Snapshot, ErrorKind>)
    ensures ctx.rehearsal ==> r == Success(Rehearsal(a, ctx, s))
    ensures !ctx.rehearsal ==> (r.Failure? <==> Rejection(a, ctx, env, s).Some?)
    ensures !ctx.rehearsal && r.Failure? ==> r.error == Rejection(a, ctx, env, s).value
    ensures !ctx.rehearsal && r.Success? ==> SlotFilled(a, ctx, env, s, r.value) && AvatarEnhanced(a, ctx, env, s, r.value)
    ensures !ctx.rehearsal && r.Success? ==> GoldPaid(a, ctx, env, s, r.value) && OnlyRehearsedWritten(a, s, r.value)
  {
    var states := s;
    var slotAddress := SlotAddress(a.avatarAddress, a.slotIndex);
    if ctx.rehearsal {
      return Success(Rehearsal(a, ctx, s));
    }
    if Obsolete(env.obsoleteIndex70, ctx) {
      return Failure(ActionObsolete);
    }
    var loaded := LoadAgentAvatarV2(states, ctx.signer, a.avatarAddress);
    if loaded.None? {
      return Failure(FailedLoadState);
    }
    var avatar := loaded.value;
    var found := FindNonFungible(avatar.inventory, a.itemId);
    if found.None? {
      return Failure(ItemDoesNotExist);
    }
    var equipment := found.value;
    if equipment.requiredBlockIndex > ctx.blockIndex {
      return Failure(RequiredBlockIndex);
    }
    if equipment.kind != Equipment {
      return Failure(InvalidCast);
    }
    var slotState := SlotAt(states, slotAddress);
    if slotState.None? {
      return Failure(FailedLoadState);
    }
    var slot := slotState.value;
    if !SlotAvailable(slot, avatar, ctx.blockIndex) {
      return Failure(CombinationSlotUnlock);
    }
    if equipment.level > MaxEnhanceableLevel {
      return Failure(EquipmentLevelExceeded);
    }
    assert Loaded(a, ctx, s) == Some((avatar, equipment, slot));
    r := Enhance(a, ctx, env, s, avatar, equipment, slot);
  }

  /** The part of `Execute` after the target and the slot passed their guards: payment, material checks, enhancement. */
  method Enhance(a: Action, ctx: Context, env: Env, s: Snapshot, target: Avatar, item: ItemUsable, slotBefore: CombinationSlot)
    returns (r: Result<Snapshot, ErrorKind>)
    requires Loaded(a, ctx, s) == Some((target, item, slotBefore))
    ensures r.Failure? <==> EnhanceRejection(a, ctx, env, s, target, item).Some?
    ensures r.Failure? ==> r.error == EnhanceRejection(a, ctx, env, s, target, item).value
    ensures r.Success? ==> SlotFilled(a, ctx, env, s, r.value) && AvatarEnhanced(a, ctx, env, s, r.value)
    ensures r.Success? ==> GoldPaid(a, ctx, env, s, r.value) && OnlyRehearsedWritten(a, s, r.value)
  {
    var states := s;
    var avatar := target;
    var equipment := item;
    var slot := slotBefore;
    // the result refers to the equipment object, so it sees every later change to it
    var result := EnhancementResult(0, [a.materialId], 0, 0, equipment);
    var requiredAP := env.requiredAP;
    if avatar.actionPoint < requiredAP {
      return Failure(NotEnoughActionPoint);
    }
    var requiredNCG := GetRequiredNCG(env.costSheet, equipment.grade, equipment.level + 1);
    avatar := avatar.(actionPoint := avatar.actionPoint - requiredAP);
    result := result.(actionPoint := requiredAP);
    if requiredNCG > 0 {
      var transferred := TransferAsset(states, ctx.signer, Blacksmith, requiredNCG);
      if transferred.Failure? {
        return Failure(transferred.error);
      }
      states := transferred.value;
    }
    var materialFound := FindNonFungible(avatar.inventory, a.materialId);
    if materialFound.None? {
      return Failure(NotEnoughMaterial);
    }
    var material := materialFound.value;
    if material.requiredBlockIndex > ctx.blockIndex {
      return Failure(RequiredBlockIndex);
    }
    if material.kind != Equipment {
      return Failure(InvalidCast);
    }
    if equipment.itemId == a.materialId {
      return Failure(InvalidMaterial(SameAsTarget));
    }
    if material.subType != equipment.subType {
      return Failure(InvalidMaterial(SubTypeMismatch));
    }
    if material.grade != equipment.grade {
      return Failure(InvalidMaterial(GradeMismatch));
    }
    if material.level != equipment.level {
      return Failure(InvalidMaterial(LevelMismatch));
    }
    assert Loaded(a, ctx, s) == Some((target, item, slotBefore));
    var stored := Upgrade(a, ctx, env, states, target, item, slotBefore, avatar, result);
    StoredSlotAndAvatar(a, ctx, env, s, states, target, item, slotBefore);
    StoredPaid(a, ctx, env, s, states, target, item, slotBefore);
    StoredFrame(a, ctx, env, s, states, target, item, slotBefore);
    return Success(stored);
  }

  /**
   * The enhancement proper, once every guard has passed and the gold is paid: the
   * target is upgraded and locked, material and target leave the inventory, the
   * mail is delivered, and the avatar and the slot are written over `paid`.
   */
  method Upgrade(a: Action, ctx: Context, env: Env, paid: Snapshot, target: Avatar, item: ItemUsable, slotBefore: CombinationSlot,
                 spent: Avatar, partial: EnhancementResult)
    returns (r: Snapshot)
    requires spent == target.(actionPoint := target.actionPoint - env.requiredAP)
    requires partial == EnhancementResult(0, [a.materialId], 0, env.requiredAP, item)
    requires item.itemId == a.itemId
    ensures r == Stored(a, ctx, env, paid, target, item, slotBefore)
  {
    var states := paid;
    var avatar := spent;
    var equipment := item;
    var slot := slotBefore;
    var result := partial;
    var requiredNCG := GetRequiredNCG(env.costSheet, equipment.grade, equipment.level + 1);
    // unequipping the material is not observable: it leaves the inventory below
    equipment := equipment.(equipped := false);
    equipment := UpgradeEquipment(equipment);
    var requiredBlockIndex := ctx.blockIndex + RequiredBlockCount;
    equipment := equipment.(requiredBlockIndex := requiredBlockIndex);
    result := result.(gold := requiredNCG);
    avatar := avatar.(inventory := RemoveNonFungible(avatar.inventory, a.materialId));
    var mailId := env.randomGuid(ctx.random);
    result := result.(id := mailId, itemUsable := equipment);
    var mail := ItemEnhanceMail(mailId, ctx.blockIndex, requiredBlockIndex, result);
    avatar := avatar.(inventory := RemoveNonFungible(avatar.inventory, equipment.itemId));
    avatar := AddMail(avatar, mail);
    assert equipment == Enhanced(item, ctx);
    assert result == ResultOf(a, ctx, env, item);
    assert avatar == EnhancedAvatar(a, ctx, env, target, item);
    slot := UpdateSlot(slot, result, ctx.blockIndex, requiredBlockIndex);
    states := SetAvatarV2(states, a.avatarAddress, avatar);
    states := SetState(states, SlotAddress(a.avatarAddress, a.slotIndex), SlotValue(slot));
    return states;
  }
}
