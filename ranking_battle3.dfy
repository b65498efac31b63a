/**
 * `RankingBattle3` (action type `ranking_battle3`): an avatar fights another
 * avatar of the same weekly arena. After the guards, the avatar equips the
 * chosen items, the battle simulator runs, its rewards go to the avatar's
 * inventory in ascending item-id order, and the weekly arena and the avatar
 * are written back.
 */
module RankingBattle3 {
  import opened Wrappers
  import opened Base
  import opened Entities
  import opened World
  import opened PlainValues
  import opened Sorting

  /** The stage id the simulator is run with. */
  const StageId := 999999

  /** The action's fields; `Result`, the battle log, is returned by `Execute`. */
  datatype Action = Action(
    avatarAddress: Address,
    enemyAddress: Address,
    weeklyArenaAddress: Address,
    costumeIds: seq<Guid>,
    equipmentIds: seq<Guid>,
    consumableIds: seq<Guid>)

  // ---------------------------------------------------------------- action serialisation

  /** The action with each id list in ascending order: what an encoding can carry. */
  function Canonical(a: Action): Action
  {
    a.(costumeIds := SortBy(a.costumeIds, GuidKey),
       equipmentIds := SortBy(a.equipmentIds, GuidKey),
       consumableIds := SortBy(a.consumableIds, GuidKey))
  }

  /** `PlainValueInternal`: the three addresses and the three id lists, each list sorted. */
  function PlainValueInternal(a: Action): (d: Dict)
    ensures d.Keys == {"avatarAddress", "enemyAddress", "weeklyArenaAddress", "costume_ids", "equipment_ids", "consumable_ids"}
  {
    map[
      "avatarAddress" := PAddress(a.avatarAddress),
      "enemyAddress" := PAddress(a.enemyAddress),
      "weeklyArenaAddress" := PAddress(a.weeklyArenaAddress),
      "costume_ids" := PList(EncodeGuids(SortBy(a.costumeIds, GuidKey))),
      "equipment_ids" := PList(EncodeGuids(SortBy(a.equipmentIds, GuidKey))),
      "consumable_ids" := PList(EncodeGuids(SortBy(a.consumableIds, GuidKey)))]
  }

  /** `LoadPlainValueInternal`: every key is required. */
  function LoadPlainValueInternal(d: Dict): (r: Result<Action, DecodeError>)
    ensures r.Success? <==>
      && HasAddress(d, "avatarAddress") && HasAddress(d, "enemyAddress") && HasAddress(d, "weeklyArenaAddress")
      && HasGuidList(d, "costume_ids") && HasGuidList(d, "equipment_ids") && HasGuidList(d, "consumable_ids")
    ensures "avatarAddress" !in d ==> r == Failure(KeyNotFound("avatarAddress"))
    ensures HasAddress(d, "avatarAddress") && "enemyAddress" !in d ==> r == Failure(KeyNotFound("enemyAddress"))
    ensures (HasAddress(d, "avatarAddress") && HasAddress(d, "enemyAddress") && "weeklyArenaAddress" !in d)
      ==> r == Failure(KeyNotFound("weeklyArenaAddress"))
    ensures (HasAddress(d, "avatarAddress") && HasAddress(d, "enemyAddress") && HasAddress(d, "weeklyArenaAddress") &&
             "costume_ids" !in d)
      ==> r == Failure(KeyNotFound("costume_ids"))
    ensures (HasAddress(d, "avatarAddress") && HasAddress(d, "enemyAddress") && HasAddress(d, "weeklyArenaAddress") &&
             HasGuidList(d, "costume_ids") && "equipment_ids" !in d)
      ==> r == Failure(KeyNotFound("equipment_ids"))
    ensures (HasAddress(d, "avatarAddress") && HasAddress(d, "enemyAddress") && HasAddress(d, "weeklyArenaAddress") &&
             HasGuidList(d, "costume_ids") && HasGuidList(d, "equipment_ids") && "consumable_ids" !in d)
      ==> r == Failure(KeyNotFound("consumable_ids"))
    ensures r.Success? ==> "avatarAddress" in d && "enemyAddress" in d && "weeklyArenaAddress" in d
    ensures r.Success? ==> "costume_ids" in d && "equipment_ids" in d && "consumable_ids" in d
    ensures r.Success? ==>
      && d["avatarAddress"] == PAddress(r.value.avatarAddress)
      && d["enemyAddress"] == PAddress(r.value.enemyAddress)
      && d["weeklyArenaAddress"] == PAddress(r.value.weeklyArenaAddress)
    ensures r.Success? ==>
      && d["costume_ids"] == PList(EncodeGuids(r.value.costumeIds))
      && d["equipment_ids"] == PList(EncodeGuids(r.value.equipmentIds))
      && d["consumable_ids"] == PList(EncodeGuids(r.value.consumableIds))
  {
    match GetAddress(d, "avatarAddress")
    case Failure(e) => Failure(e)
    case Success(avatarAddress) =>
      match GetAddress(d, "enemyAddress")
      case Failure(e) => Failure(e)
      case Success(enemyAddress) =>
        match GetAddress(d, "weeklyArenaAddress")
        case Failure(e) => Failure(e)
        case Success(weeklyArenaAddress) =>
          match GetGuidList(d, "costume_ids")
          case Failure(e) => Failure(e)
          case Success(costumeIds) =>
            match GetGuidList(d, "equipment_ids")
            case Failure(e) => Failure(e)
            case Success(equipmentIds) =>
              match GetGuidList(d, "consumable_ids")
              case Failure(e) => Failure(e)
              case Success(consumableIds) =>
                Success(Action(avatarAddress, enemyAddress, weeklyArenaAddress, costumeIds, equipmentIds, consumableIds))
  }

  /** Decoding an encoded action gives it back with its id lists sorted. */
  lemma PlainValueRoundTrip(a: Action)
    ensures LoadPlainValueInternal(PlainValueInternal(a)) == Success(Canonical(a))
  {
    var d := PlainValueInternal(a);
    var c := Canonical(a);
    assert GetAddress(d, "avatarAddress") == Success(a.avatarAddress);
    assert GetAddress(d, "enemyAddress") == Success(a.enemyAddress);
    assert GetAddress(d, "weeklyArenaAddress") == Success(a.weeklyArenaAddress);
    GetEncodedGuidList(d, "costume_ids", c.costumeIds);
    GetEncodedGuidList(d, "equipment_ids", c.equipmentIds);
    GetEncodedGuidList(d, "consumable_ids", c.consumableIds);
  }

  /** Re-encoding a decoded action reproduces the encoding. */
  lemma PlainValueStable(a: Action)
    ensures PlainValueInternal(Canonical(a)) == PlainValueInternal(a)
  {
    SortByIdempotent(a.costumeIds, GuidKey);
    SortByIdempotent(a.equipmentIds, GuidKey);
    SortByIdempotent(a.consumableIds, GuidKey);
  }

  /** The encoding ignores the order of the id lists: actions that differ only in that order encode alike. */
  lemma PlainValueOrderInsensitive(a: Action, b: Action)
    requires a.avatarAddress == b.avatarAddress && a.enemyAddress == b.enemyAddress && a.weeklyArenaAddress == b.weeklyArenaAddress
    requires multiset(a.costumeIds) == multiset(b.costumeIds)
    requires multiset(a.equipmentIds) == multiset(b.equipmentIds)
    requires multiset(a.consumableIds) == multiset(b.consumableIds)
    ensures PlainValueInternal(a) == PlainValueInternal(b)
  {
    SortByCanonical(a.costumeIds, b.costumeIds, GuidKey);
    SortByCanonical(a.equipmentIds, b.equipmentIds, GuidKey);
    SortByCanonical(a.consumableIds, b.consumableIds, GuidKey);
  }

  // ---------------------------------------------------------------- rehearsal

  /** The rehearsal result: signer, avatar and weekly arena marked, and the signer's and the arena's balances. */
  function Rehearsal(a: Action, ctx: Context, s: Snapshot): (r: Snapshot)
    ensures r.balances == s.balances
    ensures r.updatedBalances == s.updatedBalances + {ctx.signer, a.weeklyArenaAddress}
    ensures r.updatedAddresses == s.updatedAddresses + {ctx.signer, a.avatarAddress, a.weeklyArenaAddress}
    ensures forall x :: GetState(r, x) == (if x in {ctx.signer, a.avatarAddress, a.weeklyArenaAddress} then Some(MarkChanged) else GetState(s, x))
  {
    var s1 := SetState(s, ctx.signer, MarkChanged);
    var s2 := SetState(s1, a.avatarAddress, MarkChanged);
    var s3 := SetState(s2, a.weeklyArenaAddress, MarkChanged);
    var s4 := SetState(s3, ctx.signer, MarkChanged);
    MarkBalanceChanged(s4, {ctx.signer, a.weeklyArenaAddress})
  }

  // ---------------------------------------------------------------- rewards

  /** The key rewards are ordered by. */
  function ItemId(item: ItemBase): int
  {
    item.id
  }

  /** The inventory after adding `items` one by one, in sequence order. */
  function AddAll(inv: Inventory, items: seq<ItemBase>): Inventory
  {
    if items == [] then inv
    else AddItem(AddAll(inv, items[..|items| - 1]), items[|items| - 1])
  }

  /** Each added item raises its own stack count by one, whatever the order. */
  lemma {:induction false} AddAllCount(inv: Inventory, items: seq<ItemBase>, x: ItemBase)
    ensures Count(AddAll(inv, items).items, x) == Count(inv.items, x) + multiset(items)[x]
  {
    if items != [] {
      var n := |items| - 1;
      AddAllCount(inv, items[..n], x);
      assert items == items[..n] + [items[n]];
      assert multiset(items) == multiset(items[..n]) + multiset{items[n]};
    }
  }

  /** Adding rewards leaves every equipment and costume entry where it was. */
  lemma {:induction false} AddAllKeepsNonFungible(inv: Inventory, items: seq<ItemBase>)
    ensures |AddAll(inv, items).items| >= |inv.items|
    ensures forall k :: 0 <= k < |inv.items| && !inv.items[k].FungibleItem? ==> AddAll(inv, items).items[k] == inv.items[k]
  {
    if items != [] {
      AddAllKeepsNonFungible(inv, items[..|items| - 1]);
    }
  }

  /** `foreach (var itemBase in simulator.Reward.OrderBy(i => i.Id)) inventory.AddItem(itemBase)`. */
  method ApplyRewards(inv: Inventory, rewards: seq<ItemBase>) returns (r: Inventory)
    ensures r == AddAll(inv, SortBy(rewards, ItemId))
    ensures forall x :: Count(r.items, x) == Count(inv.items, x) + multiset(rewards)[x]
  {
    var ordered := SortBy(rewards, ItemId);
    r := inv;
    var i := 0;
    while i < |ordered|
      invariant 0 <= i <= |ordered|
      invariant r == AddAll(inv, ordered[..i])
    {
      assert ordered[..i + 1][..i] == ordered[..i];
      r := AddItem(r, ordered[i]);
      i := i + 1;
    }
    assert ordered[..i] == ordered;
    forall x ensures Count(r.items, x) == Count(inv.items, x) + multiset(rewards)[x] {
      AddAllCount(inv, ordered, x);
    }
  }

  // ---------------------------------------------------------------- validation ladder

  /** `GetWeeklyArenaState`. */
  function WeeklyArenaAt(s: Snapshot, a: Address): Option<WeeklyArena>
  {
    match GetState(s, a)
    case Some(WeeklyArenaValue(w)) => Some(w)
    case _ => None
  }

  /** The avatar with the chosen equipment and costumes equipped and everything else unequipped. */
  function Equipped(a: Action, avatar: Avatar): Avatar
  {
    avatar.(inventory := EquipItems(avatar.inventory, a.equipmentIds + a.costumeIds))
  }

  /** The first failing item validation, in the order equipment, consumables, costumes. */
  function ValidationRejection(a: Action, ctx: Context, env: Env, avatar: Avatar): Option<ErrorKind>
  {
    if env.validateEquipments(avatar, a.equipmentIds, ctx.blockIndex).Some? then env.validateEquipments(avatar, a.equipmentIds, ctx.blockIndex)
    else if env.validateConsumable(avatar, a.consumableIds, ctx.blockIndex).Some? then env.validateConsumable(avatar, a.consumableIds, ctx.blockIndex)
    else env.validateCostume(avatar, a.costumeIds)
  }

  /**
   * The error a real execution fails with, or `None` when it succeeds. A weekly
   * arena that does not load is dereferenced anyway, hence `NullReference`.
   */
  function Rejection(a: Action, ctx: Context, env: Env, s: Snapshot): Option<ErrorKind>
  {
    if Obsolete(env.obsoleteIndex66, ctx) then Some(ActionObsolete)
    else if a.avatarAddress == a.enemyAddress then Some(InvalidAddress)
    else match LoadAvatar(s, ctx.signer, a.avatarAddress)
    case None => Some(FailedLoadState)
    case Some(avatar) =>
      if ValidationRejection(a, ctx, env, avatar).Some? then ValidationRejection(a, ctx, env, avatar)
      else if !IsStageCleared(avatar.worldInformation, env.rankingStage) then Some(NotEnoughClearedStageLevel)
      else if AvatarAt(s, a.enemyAddress).None? then Some(FailedLoadState)
      else match WeeklyArenaAt(s, a.weeklyArenaAddress)
      case None => Some(NullReference)
      case Some(arena) =>
        if arena.ended then Some(WeeklyArenaStateAlreadyEnded)
        else if a.avatarAddress !in arena.infos then Some(WeeklyArenaStateNotContainsAvatarAddress)
        else if arena.infos[a.avatarAddress].dailyChallengeCount <= 0 then Some(NotEnoughWeeklyArenaChallengeCount)
        else if a.enemyAddress !in arena.infos then Some(WeeklyArenaStateNotContainsAvatarAddress)
        else None
  }

  // ---------------------------------------------------------------- effect of a success

  /** The avatar, the opponent and the weekly arena a real execution works on, when all three load. */
  function Loaded(a: Action, ctx: Context, s: Snapshot): Option<(Avatar, Avatar, WeeklyArena)>
  {
    match LoadAvatar(s, ctx.signer, a.avatarAddress)
    case None => None
    case Some(avatar) =>
      match AvatarAt(s, a.enemyAddress)
      case None => None
      case Some(enemy) =>
        match WeeklyArenaAt(s, a.weeklyArenaAddress)
        case None => None
        case Some(arena) => Some((avatar, enemy, arena))
  }

  /** Both fighters are entered in the arena. */
  predicate Entered(a: Action, arena: WeeklyArena)
  {
    a.avatarAddress in arena.infos && a.enemyAddress in arena.infos
  }

  /** The simulator's input: the equipped avatar, the opponent, and both arena entries, the avatar's activated. */
  function Input(a: Action, ctx: Context, avatar: Avatar, enemy: Avatar, arena: WeeklyArena): SimulatorInput
    requires Entered(a, arena)
  {
    var info := arena.infos[a.avatarAddress];
    SimulatorInput(ctx.random, Equipped(a, avatar), enemy, a.consumableIds, StageId,
      if info.active then info else Activate(info), arena.infos[a.enemyAddress])
  }

  /** The weekly arena written back: both entries as the simulator left them. */
  function ArenaAfter(a: Action, arena: WeeklyArena, out: SimulatorOutput): WeeklyArena
  {
    arena.(infos := arena.infos[a.avatarAddress := out.arenaInfo][a.enemyAddress := out.enemyArenaInfo])
  }

  /** The avatar written back: equipped as chosen, with the rewards added in ascending id order. */
  function AvatarAfter(a: Action, avatar: Avatar, out: SimulatorOutput): Avatar
  {
    var equipped := Equipped(a, avatar);
    equipped.(inventory := AddAll(equipped.inventory, SortBy(out.reward, ItemId)))
  }

  /** What a successful execution leaves behind, given the simulator's output. */
  ghost predicate Fought(a: Action, ctx: Context, env: Env, s: Snapshot, s': Snapshot, log: Option<BattleLog>)
  {
    Loaded(a, ctx, s).Some? &&
    var (avatar, enemy, arena) := Loaded(a, ctx, s).value;
    Entered(a, arena) &&
    var out := env.simulate(Input(a, ctx, avatar, enemy, arena));
    && log == Some(out.log)
    && WeeklyArenaAt(s', a.weeklyArenaAddress) == Some(ArenaAfter(a, arena, out))
    && AvatarAt(s', a.avatarAddress) == Some(AvatarAfter(a, avatar, out))
    && s'.balances == s.balances && s'.updatedBalances == s.updatedBalances
    && s'.updatedAddresses == s.updatedAddresses + {a.weeklyArenaAddress, a.avatarAddress}
    && forall x :: x != a.weeklyArenaAddress && x != a.avatarAddress ==> GetState(s', x) == GetState(s, x)
  }

  // ---------------------------------------------------------------- properties

  /** A real execution writes no more than its rehearsal declared. */
  lemma WithinRehearsal(a: Action, ctx: Context, env: Env, s: Snapshot, s': Snapshot, log: Option<BattleLog>)
    requires Fought(a, ctx, env, s, s', log)
    ensures s'.updatedAddresses <= Rehearsal(a, ctx, s).updatedAddresses
    ensures s'.updatedBalances <= Rehearsal(a, ctx, s).updatedBalances
  {
  }

  /** Every reward arrives: each item's stack grows by the number of times it was rewarded. */
  lemma RewardsArrive(a: Action, avatar: Avatar, out: SimulatorOutput, x: ItemBase)
    ensures Count(AvatarAfter(a, avatar, out).inventory.items, x) == Count(Equipped(a, avatar).inventory.items, x) + multiset(out.reward)[x]
  {
    AddAllCount(Equipped(a, avatar).inventory, SortBy(out.reward, ItemId), x);
  }

  /** The simulator sees the avatar's arena entry activated. */
  lemma EntryActivated(a: Action, ctx: Context, avatar: Avatar, enemy: Avatar, arena: WeeklyArena)
    requires Entered(a, arena)
    ensures Input(a, ctx, avatar, enemy, arena).arenaInfo.active
    ensures Input(a, ctx, avatar, enemy, arena).arenaInfo.(active := arena.infos[a.avatarAddress].active) == arena.infos[a.avatarAddress]
  {
  }

  // ---------------------------------------------------------------- execution

  /** `Execute`: rehearsal, or the guards followed by the battle. On failure no log is produced. */
  method Execute(a: Action, ctx: Context, env: Env, s: Snapshot) returns (r: Result<Snapshot, ErrorKind>, log: Option<BattleLog>)
    ensures ctx.rehearsal ==> r == Success(Rehearsal(a, ctx, s)) && log == None
    ensures !ctx.rehearsal ==> (r.Failure? <==> Rejection(a, ctx, env, s).Some?)
    ensures !ctx.rehearsal && r.Failure? ==> r.error == Rejection(a, ctx, env, s).value && log == None
    ensures !ctx.rehearsal && r.Success? ==> Fought(a, ctx, env, s, r.value, log)
  {
    log := None;
    if ctx.rehearsal {
      return Success(Rehearsal(a, ctx, s)), None;
    }
    if Obsolete(env.obsoleteIndex66, ctx) {
      return Failure(ActionObsolete), None;
    }
    if a.avatarAddress == a.enemyAddress {
      return Failure(InvalidAddress), None;
    }
    var loaded := LoadAvatar(s, ctx.signer, a.avatarAddress);
    if loaded.None? {
      return Failure(FailedLoadState), None;
    }
    var avatar := loaded.value;
    var invalid := env.validateEquipments(avatar, a.equipmentIds, ctx.blockIndex);
    if invalid.Some? {
      return Failure(invalid.value), None;
    }
    invalid := env.validateConsumable(avatar, a.consumableIds, ctx.blockIndex);
    if invalid.Some? {
      return Failure(invalid.value), None;
    }
    invalid := env.validateCostume(avatar, a.costumeIds);
    if invalid.Some? {
      return Failure(invalid.value), None;
    }
    avatar := Equipped(a, avatar);
    if !IsStageCleared(avatar.worldInformation, env.rankingStage) {
      return Failure(NotEnoughClearedStageLevel), None;
    }
    var enemy := AvatarAt(s, a.enemyAddress);
    if enemy.None? {
      return Failure(FailedLoadState), None;
    }
    var arenaState := WeeklyArenaAt(s, a.weeklyArenaAddress);
    if arenaState.None? {
      return Failure(NullReference), None;
    }
    var arena := arenaState.value;
    if arena.ended {
      return Failure(WeeklyArenaStateAlreadyEnded), None;
    }
    if a.avatarAddress !in arena.infos {
      return Failure(WeeklyArenaStateNotContainsAvatarAddress), None;
    }
    var arenaInfo := arena.infos[a.avatarAddress];
    if arenaInfo.dailyChallengeCount <= 0 {
      return Failure(NotEnoughWeeklyArenaChallengeCount), None;
    }
    if !arenaInfo.active {
      arenaInfo := Activate(arenaInfo);
    }
    if a.enemyAddress !in arena.infos {
      return Failure(WeeklyArenaStateNotContainsAvatarAddress), None;
    }
    assert Loaded(a, ctx, s) == Some((loaded.value, enemy.value, arena));
    var out := env.simulate(SimulatorInput(ctx.random, avatar, enemy.value, a.consumableIds, StageId, arenaInfo, arena.infos[a.enemyAddress]));
    assert out == env.simulate(Input(a, ctx, loaded.value, enemy.value, arena));
    log := Some(out.log);
    var inventory := ApplyRewards(avatar.inventory, out.reward);
    avatar := avatar.(inventory := inventory);
    // the simulator updated both entries in place inside the weekly arena
    arena := ArenaAfter(a, arena, out);
    var states := SetState(s, a.weeklyArenaAddress, WeeklyArenaValue(arena));
    states := SetState(states, a.avatarAddress, AvatarValue(avatar));
    return Success(states), log;
  }
}
