/**
 * `ItemEnhancement3` (action type `item_enhancement3`): the earlier version of
 * the enhancement. It runs the same guards as version 7 but reads and writes
 * the avatar as a single value, records no gold in its result and requires
 * `slotIndex` in its encoding. It reuses version 7's cost lookup, upgrade and
 * result model, as the source does.
 */
module ItemEnhancement3 {
  import opened Wrappers
  import opened Base
  import opened Entities
  import opened World
  import opened PlainValues
  import V7 = ItemEnhancement7

  /** Blocks an enhanced item and its slot stay locked. */
  const RequiredBlockCount := 1

  /** The action's fields. */
  datatype Action = Action(itemId: Guid, materialId: Guid, avatarAddress: Address, slotIndex: Int32)

  // ---------------------------------------------------------------- action serialisation

  /** `PlainValueInternal`. */
  function PlainValueInternal(a: Action): (d: Dict)
    ensures d.Keys == {"itemId", "materialId", "avatarAddress", "slotIndex"}
  {
    map[
      "itemId" := PGuid(a.itemId),
      "materialId" := PGuid(a.materialId),
      "avatarAddress" := PAddress(a.avatarAddress),
      "slotIndex" := PInt(a.slotIndex)]
  }

  /** `LoadPlainValueInternal`: all four keys are required. */
  function LoadPlainValueInternal(d: Dict): (r: Result<Action, DecodeError>)
    ensures r.Success? <==>
      HasGuid(d, "itemId") && HasGuid(d, "materialId") && HasAddress(d, "avatarAddress") && HasInt32(d, "slotIndex")
    ensures "itemId" !in d ==> r == Failure(KeyNotFound("itemId"))
    ensures HasGuid(d, "itemId") && "materialId" !in d ==> r == Failure(KeyNotFound("materialId"))
    ensures HasGuid(d, "itemId") && HasGuid(d, "materialId") && "avatarAddress" !in d ==> r == Failure(KeyNotFound("avatarAddress"))
    ensures (HasGuid(d, "itemId") && HasGuid(d, "materialId") && HasAddress(d, "avatarAddress") && "slotIndex" !in d)
      ==> r == Failure(KeyNotFound("slotIndex"))
    ensures r.Success? ==> forall k :: k in PlainValueInternal(r.value) ==> k in d && d[k] == PlainValueInternal(r.value)[k]
  {
    match GetGuid(d, "itemId")
    case Failure(e) => Failure(e)
    case Success(itemId) =>
      match GetGuid(d, "materialId")
      case Failure(e) => Failure(e)
      case Success(materialId) =>
        match GetAddress(d, "avatarAddress")
        case Failure(e) => Failure(e)
        case Success(avatarAddress) =>
          match GetInt32(d, "slotIndex")
          case Failure(e) => Failure(e)
          case Success(slotIndex) => Success(Action(itemId, materialId, avatarAddress, slotIndex))
  }

  /** Decoding an encoded action gives it back. */
  lemma PlainValueRoundTrip(a: Action)
    ensures LoadPlainValueInternal(PlainValueInternal(a)) == Success(a)
  {
  }

  /** An encoding without `slotIndex` is refused. */
  lemma PlainValueWithoutSlotIndex(a: Action)
    ensures LoadPlainValueInternal(PlainValueInternal(a) - {"slotIndex"}) == Failure(KeyNotFound("slotIndex"))
  {
  }

  // ---------------------------------------------------------------- rehearsal

  /** The state addresses the action may write. */
  function RehearsalAddresses(a: Action): set<Address>
  {
    {a.avatarAddress, SlotAddress(a.avatarAddress, a.slotIndex)}
  }

  /** The rehearsal result: signer and Blacksmith balances, the avatar and the slot marked. */
  function Rehearsal(a: Action, ctx: Context, s: Snapshot): (r: Snapshot)
    ensures r.balances == s.balances
    ensures r.updatedBalances == s.updatedBalances + {ctx.signer, Blacksmith}
    ensures r.updatedAddresses == s.updatedAddresses + RehearsalAddresses(a)
    ensures forall x :: GetState(r, x) == if x in RehearsalAddresses(a) then Some(MarkChanged) else GetState(s, x)
  {
    var marked := MarkBalanceChanged(s, {ctx.signer, Blacksmith});
    SetState(SetState(marked, a.avatarAddress, MarkChanged), SlotAddress(a.avatarAddress, a.slotIndex), MarkChanged)
  }

  // ---------------------------------------------------------------- validation ladder

  /** The avatar (stored as one value), the target equipment and the slot, when all three load. */
  function Loaded(a: Action, ctx: Context, s: Snapshot): Option<(Avatar, ItemUsable, CombinationSlot)>
  {
    match LoadAgentAvatar(s, ctx.signer, a.avatarAddress)
    case None => None
    case Some(avatar) =>
      match FindNonFungible(avatar.inventory, a.itemId)
      case None => None
      case Some(item) =>
        match SlotAt(s, SlotAddress(a.avatarAddress, a.slotIndex))
        case None => None
        case Some(slot) => Some((avatar, item, slot))
  }

  /** The error a real execution fails with, or `None` when it succeeds: the same ladder as version 7. */
  function Rejection(a: Action, ctx: Context, env: Env, s: Snapshot): Option<ErrorKind>
  {
    if Obsolete(env.obsoleteIndex66, ctx) then Some(ActionObsolete)
    else match LoadAgentAvatar(s, ctx.signer, a.avatarAddress)
    case None => Some(FailedLoadState)
    case Some(avatar) =>
      match FindNonFungible(avatar.inventory, a.itemId)
      case None => Some(ItemDoesNotExist)
      case Some(item) =>
        if item.requiredBlockIndex > ctx.blockIndex then Some(RequiredBlockIndex)
        else if item.kind != Equipment then Some(InvalidCast)
        else match SlotAt(s, SlotAddress(a.avatarAddress, a.slotIndex))
        case None => Some(FailedLoadState)
        case Some(slot) =>
          if !SlotAvailable(slot, avatar, ctx.blockIndex) then Some(CombinationSlotUnlock)
          else if item.level > V7.MaxEnhanceableLevel then Some(EquipmentLevelExceeded)
          else EnhanceRejection(a, ctx, env, s, avatar, item)
  }

  /** The guards after the target and the slot passed: action points, then the payment, then the material. */
  function EnhanceRejection(a: Action, ctx: Context, env: Env, s: Snapshot, avatar: Avatar, item: ItemUsable): Option<ErrorKind>
  {
    var cost := V7.GetRequiredNCG(env.costSheet, item.grade, item.level + 1);
    if avatar.actionPoint < env.requiredAP then Some(NotEnoughActionPoint)
    else if cost > 0 && Balance(s, ctx.signer) < cost then Some(InsufficientBalance)
    else V7.MaterialRejection(item, avatar.inventory, a.materialId, ctx.blockIndex)
  }

  // ---------------------------------------------------------------- effect of a success

  /** The result recorded in the mail and the slot: version 3 records no gold, although it charges it. */
  function ResultOf(a: Action, ctx: Context, env: Env, item: ItemUsable): (r: EnhancementResult)
    ensures r.gold == 0 && r.materialItemIdList == [a.materialId] && r.actionPoint == env.requiredAP
    ensures r.itemUsable == V7.Enhanced(item, ctx) && r.id == env.randomGuid(ctx.random)
    ensures r.itemUsable.itemId == item.itemId && r.itemUsable.level == item.level + 1
  {
    EnhancementResult(env.randomGuid(ctx.random), [a.materialId], 0, env.requiredAP, V7.Enhanced(item, ctx))
  }

  /** The avatar after a successful enhancement: action points spent, material and target gone, the mail delivered. */
  function EnhancedAvatar(a: Action, ctx: Context, env: Env, avatar: Avatar, item: ItemUsable): (r: Avatar)
    ensures r.actionPoint == avatar.actionPoint - env.requiredAP
    ensures |r.mailBox| == |avatar.mailBox| + 1 && r.mailBox[..|avatar.mailBox|] == avatar.mailBox
    ensures r.mailBox[|avatar.mailBox|] == ItemEnhanceMail(ResultOf(a, ctx, env, item).id, ctx.blockIndex, ctx.blockIndex + RequiredBlockCount, ResultOf(a, ctx, env, item))
    ensures r.inventory == RemoveNonFungible(RemoveNonFungible(avatar.inventory, a.materialId), a.itemId)
    ensures r.agentAddress == avatar.agentAddress && r.worldInformation == avatar.worldInformation && r.questList == avatar.questList
    ensures r.updatedAt == avatar.updatedAt && r.blockIndex == avatar.blockIndex
  {
    var result := ResultOf(a, ctx, env, item);
    avatar.(
      actionPoint := avatar.actionPoint - env.requiredAP,
      inventory := RemoveNonFungible(RemoveNonFungible(avatar.inventory, a.materialId), a.itemId),
      mailBox := avatar.mailBox + [ItemEnhanceMail(result.id, ctx.blockIndex, ctx.blockIndex + RequiredBlockCount, result)])
  }

  /** The slot holds the result and is locked until the next block. */
  ghost predicate SlotFilled(a: Action, ctx: Context, env: Env, s: Snapshot, s': Snapshot)
  {
    Loaded(a, ctx, s).Some? &&
    var (_, item, slot) := Loaded(a, ctx, s).value;
    SlotAt(s', SlotAddress(a.avatarAddress, a.slotIndex)) ==
      Some(UpdateSlot(slot, ResultOf(a, ctx, env, item), ctx.blockIndex, ctx.blockIndex + RequiredBlockCount))
  }

  /** The avatar, stored as one value, is the enhanced one. */
  ghost predicate AvatarEnhanced(a: Action, ctx: Context, env: Env, s: Snapshot, s': Snapshot)
  {
    Loaded(a, ctx, s).Some? &&
    var (avatar, item, _) := Loaded(a, ctx, s).value;
    AvatarAt(s', a.avatarAddress) == Some(EnhancedAvatar(a, ctx, env, avatar, item))
  }

  /** Gold moves from the signer to the Blacksmith when, and only when, the cost is positive. */
  ghost predicate GoldPaid(a: Action, ctx: Context, env: Env, s: Snapshot, s': Snapshot)
  {
    Loaded(a, ctx, s).Some? &&
    var (_, item, _) := Loaded(a, ctx, s).value;
    var cost := V7.GetRequiredNCG(env.costSheet, item.grade, item.level + 1);
    if cost > 0 then
      var paid := TransferAsset(s, ctx.signer, Blacksmith, cost);
      paid.Success? && s'.balances == paid.value.balances && s'.updatedBalances == s.updatedBalances + {ctx.signer, Blacksmith}
    else s'.balances == s.balances && s'.updatedBalances == s.updatedBalances
  }

  /** Exactly the avatar and the slot are written; every other state is as before. */
  ghost predicate OnlyRehearsedWritten(a: Action, s: Snapshot, s': Snapshot)
  {
    && s'.updatedAddresses == s.updatedAddresses + RehearsalAddresses(a)
    && forall x :: x !in RehearsalAddresses(a) ==> GetState(s', x) == GetState(s, x)
  }

  /** The state a successful execution stores over the state `paid` left after the payment. */
  function Stored(a: Action, ctx: Context, env: Env, paid: Snapshot, avatar: Avatar, item: ItemUsable, slot: CombinationSlot): Snapshot
  {
    SetState(SetState(paid, a.avatarAddress, AvatarValue(EnhancedAvatar(a, ctx, env, avatar, item))),
      SlotAddress(a.avatarAddress, a.slotIndex),
      SlotValue(UpdateSlot(slot, ResultOf(a, ctx, env, item), ctx.blockIndex, ctx.blockIndex + RequiredBlockCount)))
  }

  /** The stored state holds the filled slot and the enhanced avatar. */
  lemma StoredSlotAndAvatar(a: Action, ctx: Context, env: Env, s: Snapshot, paid: Snapshot, avatar: Avatar, item: ItemUsable, slot: CombinationSlot)
    requires Loaded(a, ctx, s) == Some((avatar, item, slot))
    ensures SlotFilled(a, ctx, env, s, Stored(a, ctx, env, paid, avatar, item, slot))
    ensures AvatarEnhanced(a, ctx, env, s, Stored(a, ctx, env, paid, avatar, item, slot))
  {
    SlotWriteKeepsAvatar(SetState(paid, a.avatarAddress, AvatarValue(EnhancedAvatar(a, ctx, env, avatar, item))), a.avatarAddress, a.slotIndex,
      SlotValue(UpdateSlot(slot, ResultOf(a, ctx, env, item), ctx.blockIndex, ctx.blockIndex + RequiredBlockCount)));
  }

  /** Storing over the paid state keeps the balances the payment left. */
  lemma StoredPaid(a: Action, ctx: Context, env: Env, s: Snapshot, paid: Snapshot, avatar: Avatar, item: ItemUsable, slot: CombinationSlot)
    requires Loaded(a, ctx, s) == Some((avatar, item, slot))
    requires var cost := V7.GetRequiredNCG(env.costSheet, item.grade, item.level + 1);
      if cost > 0 then TransferAsset(s, ctx.signer, Blacksmith, cost) == Success(paid) else paid == s
    ensures GoldPaid(a, ctx, env, s, Stored(a, ctx, env, paid, avatar, item, slot))
  {
  }

  /** Storing writes exactly the avatar and the slot. */
  lemma StoredFrame(a: Action, ctx: Context, env: Env, s: Snapshot, paid: Snapshot, avatar: Avatar, item: ItemUsable, slot: CombinationSlot)
    requires paid.states == s.states && paid.updatedAddresses == s.updatedAddresses
    ensures OnlyRehearsedWritten(a, s, Stored(a, ctx, env, paid, avatar, item, slot))
  {
    var r := Stored(a, ctx, env, paid, avatar, item, slot);
    forall x | x !in RehearsalAddresses(a)
      ensures GetState(r, x) == GetState(s, x)
    {
      assert GetState(paid, x) == GetState(s, x);
    }
  }

  // ---------------------------------------------------------------- properties

  /** A real execution declares no more than its rehearsal did. */
  lemma WithinRehearsal(a: Action, ctx: Context, env: Env, s: Snapshot, s': Snapshot)
    requires GoldPaid(a, ctx, env, s, s') && OnlyRehearsedWritten(a, s, s')
    ensures s'.updatedAddresses == Rehearsal(a, ctx, s).updatedAddresses
    ensures s'.updatedBalances <= Rehearsal(a, ctx, s).updatedBalances
  {
  }

  /** Version 3 charges the same cost as version 7 but its result, mail and slot record a gold amount of 0. */
  lemma ChargedButNotRecorded(a: Action, ctx: Context, env: Env, s: Snapshot, s': Snapshot)
    requires SlotFilled(a, ctx, env, s, s')
    ensures SlotAt(s', SlotAddress(a.avatarAddress, a.slotIndex)).Some?
    ensures SlotAt(s', SlotAddress(a.avatarAddress, a.slotIndex)).value.result.Some?
    ensures SlotAt(s', SlotAddress(a.avatarAddress, a.slotIndex)).value.result.value.gold == 0
  {
  }

  // ---------------------------------------------------------------- execution

  /** `Execute`: rehearsal, or the validation ladder followed by the enhancement. */
  method Execute(a: Action, ctx: Context, env: Env, s: Snapshot) returns (r: Result<Snapshot, ErrorKind>)
    ensures ctx.rehearsal ==> r == Success(Rehearsal(a, ctx, s))
    ensures !ctx.rehearsal ==> (r.Failure? <==> Rejection(a, ctx, env, s).Some?)
    ensures !ctx.rehearsal && r.Failure? ==> r.error == Rejection(a, ctx, env, s).value
    ensures !ctx.rehearsal && r.Success? ==> SlotFilled(a, ctx, env, s, r.value) && AvatarEnhanced(a, ctx, env, s, r.value)
    ensures !ctx.rehearsal && r.Success? ==> GoldPaid(a, ctx, env, s, r.value) && OnlyRehearsedWritten(a, s, r.value)
  {
    var slotAddress := SlotAddress(a.avatarAddress, a.slotIndex);
    if ctx.rehearsal {
      return Success(Rehearsal(a, ctx, s));
    }
    if Obsolete(env.obsoleteIndex66, ctx) {
      return Failure(ActionObsolete);
    }
    var loaded := LoadAgentAvatar(s, ctx.signer, a.avatarAddress);
    if loaded.None? {
      return Failure(FailedLoadState);
    }
    var avatar := loaded.value;
    var found := FindNonFungible(avatar.inventory, a.itemId);
    if found.None? {
      return Failure(ItemDoesNotExist);
    }
    var equipment := found.value;
    if equipment.requiredBlockIndex > ctx.blockIndex {
      return Failure(RequiredBlockIndex);
    }
    if equipment.kind != Equipment {
      return Failure(InvalidCast);
    }
    var slotState := SlotAt(s, slotAddress);
    if slotState.None? {
      return Failure(FailedLoadState);
    }
    var slot := slotState.value;
    if !SlotAvailable(slot, avatar, ctx.blockIndex) {
      return Failure(CombinationSlotUnlock);
    }
    if equipment.level > V7.MaxEnhanceableLevel {
      return Failure(EquipmentLevelExceeded);
    }
    assert Loaded(a, ctx, s) == Some((avatar, equipment, slot));
    r := Enhance(a, ctx, env, s, avatar, equipment, slot);
  }

  /** The part of `Execute` after the target and the slot passed their guards: payment, material checks, enhancement. */
  method Enhance(a: Action, ctx: Context, env: Env, s: Snapshot, target: Avatar, item: ItemUsable, slotBefore: CombinationSlot)
    returns (r: Result<Snapshot, ErrorKind>)
    requires Loaded(a, ctx, s) == Some((target, item, slotBefore))
    ensures r.Failure? <==> EnhanceRejection(a, ctx, env, s, target, item).Some?
    ensures r.Failure? ==> r.error == EnhanceRejection(a, ctx, env, s, target, item).value
    ensures r.Success? ==> SlotFilled(a, ctx, env, s, r.value) && AvatarEnhanced(a, ctx, env, s, r.value)
    ensures r.Success? ==> GoldPaid(a, ctx, env, s, r.value) && OnlyRehearsedWritten(a, s, r.value)
  {
    var states := s;
    var avatar := target;
    var equipment := item;
    var slot := slotBefore;
    // the result refers to the equipment object, so it sees every later change to it
    var result := EnhancementResult(0, [a.materialId], 0, 0, equipment);
    var requiredAP := env.requiredAP;
    if avatar.actionPoint < requiredAP {
      return Failure(NotEnoughActionPoint);
    }
    var requiredNCG := V7.GetRequiredNCG(env.costSheet, equipment.grade, equipment.level + 1);
    avatar := avatar.(actionPoint := avatar.actionPoint - requiredAP);
    result := result.(actionPoint := requiredAP);
    if requiredNCG > 0 {
      var transferred := TransferAsset(states, ctx.signer, Blacksmith, requiredNCG);
      if transferred.Failure? {
        return Failure(transferred.error);
      }
      states := transferred.value;
    }
    var materialFound := FindNonFungible(avatar.inventory, a.materialId);
    if materialFound.None? {
      return Failure(NotEnoughMaterial);
    }
    var material := materialFound.value;
    if material.requiredBlockIndex > ctx.blockIndex {
      return Failure(RequiredBlockIndex);
    }
    if material.kind != Equipment {
      return Failure(InvalidCast);
    }
    if equipment.itemId == a.materialId {
      return Failure(InvalidMaterial(SameAsTarget));
    }
    if material.subType != equipment.subType {
      return Failure(InvalidMaterial(SubTypeMismatch));
    }
    if material.grade != equipment.grade {
      return Failure(InvalidMaterial(GradeMismatch));
    }
    if material.level != equipment.level {
      return Failure(InvalidMaterial(LevelMismatch));
    }
    assert Loaded(a, ctx, s) == Some((target, item, slotBefore));
    var stored := Upgrade(a, ctx, env, states, target, item, slotBefore, avatar, result);
    StoredSlotAndAvatar(a, ctx, env, s, states, target, item, slotBefore);
    StoredPaid(a, ctx, env, s, states, target, item, slotBefore);
    StoredFrame(a, ctx, env, s, states, target, item, slotBefore);
    return Success(stored);
  }

  /**
   * The enhancement proper, once every guard has passed and the gold is paid: the
   * target is upgraded and locked, material and target leave the inventory, the
   * mail is delivered, and the avatar and the slot are written over `paid`.
   */
  method Upgrade(a: Action, ctx: Context, env: Env, paid: Snapshot, target: Avatar, item: ItemUsable, slotBefore: CombinationSlot,
                 spent: Avatar, partial: EnhancementResult)
    returns (r: Snapshot)
    requires spent == target.(actionPoint := target.actionPoint - env.requiredAP)
    requires partial == EnhancementResult(0, [a.materialId], 0, env.requiredAP, item)
    requires item.itemId == a.itemId
    ensures r == Stored(a, ctx, env, paid, target, item, slotBefore)
  {
    var states := paid;
    var avatar := spent;
    var equipment := item;
    var slot := slotBefore;
    var result := partial;
    // unequipping the material is not observable: it leaves the inventory below
    equipment := equipment.(equipped := false);
    equipment := V7.UpgradeEquipment(equipment);
    var requiredBlockIndex := ctx.blockIndex + RequiredBlockCount;
    equipment := equipment.(requiredBlockIndex := requiredBlockIndex);
    result := result.(gold := 0);
    avatar := avatar.(inventory := RemoveNonFungible(avatar.inventory, a.materialId));
    var mailId := env.randomGuid(ctx.random);
    result := result.(id := mailId, itemUsable := equipment);
    var mail := ItemEnhanceMail(mailId, ctx.blockIndex, requiredBlockIndex, result);
    avatar := avatar.(inventory := RemoveNonFungible(avatar.inventory, equipment.itemId));
    avatar := AddMail(avatar, mail);
    assert equipment == V7.Enhanced(item, ctx);
    assert result == ResultOf(a, ctx, env, item);
    assert avatar == EnhancedAvatar(a, ctx, env, target, item);
    slot := UpdateSlot(slot, result, ctx.blockIndex, requiredBlockIndex);
    states := SetState(states, a.avatarAddress, AvatarValue(avatar));
    states := SetState(states, SlotAddress(a.avatarAddress, a.slotIndex), SlotValue(slot));
    return states;
  }
}
