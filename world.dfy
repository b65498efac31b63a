/**
 * The world-state snapshot an action reads and the one it returns: a map from
 * address to state, gold balances, and the addresses the delta has touched; the
 * execution context; the error kinds; and the collaborators whose rules are not
 * part of this model, passed in as functions.
 */
module World {
  import opened Wrappers
  import opened Base
  import opened Entities

  /** A state stored at an address. `MarkChanged` is the placeholder rehearsal writes. */
  datatype Value =
    | MarkChanged
    | AgentValue(agent: Agent)
    | AvatarValue(avatar: Avatar)
    | InventoryValue(inventory: Inventory)
    | WorldInformationValue(worldInformation: WorldInformation)
    | QuestListValue(questList: QuestList)
    | SlotValue(slot: CombinationSlot)
    | WeeklyArenaValue(arena: WeeklyArena)
    | ShopValue(shop: ShardedShop)
    | OrderValue(order: Order)
    | DigestListValue(digestList: OrderDigestList)
    | TradableValue(tradable: TradableItem)

  /**
   * An account state delta: the states, the gold balances (in whole gold units),
   * and the addresses whose state or balance the delta has updated.
   */
  datatype Snapshot = Snapshot(
    states: map<Address, Value>,
    balances: map<Address, nat>,
    updatedAddresses: set<Address>,
    updatedBalances: set<Address>)

  function GetState(s: Snapshot, a: Address): Option<Value>
  {
    if a in s.states then Some(s.states[a]) else None
  }

  /** `IAccountStateDelta.SetState`. */
  function SetState(s: Snapshot, a: Address, v: Value): (r: Snapshot)
    ensures GetState(r, a) == Some(v)
    ensures forall x :: x != a ==> GetState(r, x) == GetState(s, x)
    ensures r.updatedAddresses == s.updatedAddresses + {a}
    ensures r.balances == s.balances && r.updatedBalances == s.updatedBalances
  {
    s.(states := s.states[a := v], updatedAddresses := s.updatedAddresses + {a})
  }

  /** `MarkBalanceChanged`: rehearsal declares the balances it may touch. */
  function MarkBalanceChanged(s: Snapshot, owners: set<Address>): (r: Snapshot)
    ensures r.states == s.states && r.balances == s.balances && r.updatedAddresses == s.updatedAddresses
    ensures r.updatedBalances == s.updatedBalances + owners
  {
    s.(updatedBalances := s.updatedBalances + owners)
  }

  function Balance(s: Snapshot, a: Address): nat
  {
    if a in s.balances then s.balances[a] else 0
  }

  /**
   * `IAccountStateDelta.TransferAsset`: fails when the sender holds less than
   * `amount`, and otherwise moves `amount` from sender to recipient.
   */
  function TransferAsset(s: Snapshot, sender: Address, recipient: Address, amount: nat): (r: Result<Snapshot, ErrorKind>)
    ensures r.Failure? <==> Balance(s, sender) < amount
    ensures r.Failure? ==> r.error == InsufficientBalance
    ensures r.Success? ==> r.value.states == s.states && r.value.updatedAddresses == s.updatedAddresses
    ensures r.Success? ==> r.value.updatedBalances == s.updatedBalances + {sender, recipient}
    ensures r.Success? ==> Balance(r.value, sender) + Balance(r.value, recipient) == Balance(s, sender) + Balance(s, recipient)
    ensures r.Success? && sender != recipient ==>
      Balance(r.value, sender) == Balance(s, sender) - amount && Balance(r.value, recipient) == Balance(s, recipient) + amount
    ensures r.Success? ==> forall x :: x != sender && x != recipient ==> Balance(r.value, x) == Balance(s, x)
  {
    if Balance(s, sender) < amount then Failure(InsufficientBalance)
    else
      var debited := s.balances[sender := Balance(s, sender) - amount];
      var credited := debited[recipient := (if recipient in debited then debited[recipient] else 0) + amount];
      Success(s.(balances := credited, updatedBalances := s.updatedBalances + {sender, recipient}))
  }

  /** Why an action failed: the exception types the actions and their collaborators throw. */
  datatype ErrorKind =
    | ActionObsolete
    | FailedLoadState
    | ItemDoesNotExist
    | RequiredBlockIndex
    | InvalidCast
    | CombinationSlotUnlock
    | EquipmentLevelExceeded
    | NotEnoughActionPoint
    | InsufficientBalance
    | NotEnoughMaterial
    | InvalidMaterial(reason: MaterialMismatch)
    | InvalidAddress
    | NotEnoughClearedStageLevel
    | WeeklyArenaStateAlreadyEnded
    | WeeklyArenaStateNotContainsAvatarAddress
    | NotEnoughWeeklyArenaChallengeCount
    | NullReference
    | Collaborator(name: string)

  /** The four messages `InvalidMaterialException` is thrown with. */
  datatype MaterialMismatch = SameAsTarget | SubTypeMismatch | GradeMismatch | LevelMismatch

  /** The context's deterministic random source, as a seed and the number of values drawn. */
  datatype Rng = Rng(seed: int, drawn: nat)

  /** `IActionContext`: the signer, the block height, the rehearsal flag and the random source. */
  datatype Context = Context(signer: Address, blockIndex: int, rehearsal: bool, random: Rng)

  /** A row of `EnhancementCostSheet`. */
  datatype CostRow = CostRow(id: int, grade: int, level: int, cost: int)

  datatype BattleResult = Win | Lose | TimeOver

  datatype BattleLog = BattleLog(result: BattleResult, eventCount: nat)

  /** What `RankingSimulator` is built from. */
  datatype SimulatorInput = SimulatorInput(
    random: Rng,
    player: Avatar,
    enemy: Avatar,
    consumableIds: seq<Guid>,
    stageId: int,
    arenaInfo: ArenaInfo,
    enemyArenaInfo: ArenaInfo)

  /** What `SimulateV2` leaves behind: the log, the rewards, both arena entries and the random source. */
  datatype SimulatorOutput = SimulatorOutput(
    log: BattleLog,
    reward: seq<ItemBase>,
    arenaInfo: ArenaInfo,
    enemyArenaInfo: ArenaInfo,
    random: Rng)

  /**
   * The configuration and the collaborators the actions call but this model does
   * not define: block-policy constants, sheet data, and functions standing for
   * validations, the battle simulator and order cancellation.
   */
  datatype Env = Env(
    obsoleteIndex66: int,
    obsoleteIndex70: int,
    requiredAP: Int32,
    costSheet: seq<CostRow>,
    rankingStage: int,
    shopStage: int,
    randomGuid: Rng -> Guid,
    validateEquipments: (Avatar, seq<Guid>, int) -> Option<ErrorKind>,
    validateConsumable: (Avatar, seq<Guid>, int) -> Option<ErrorKind>,
    validateCostume: (Avatar, seq<Guid>) -> Option<ErrorKind>,
    simulate: SimulatorInput -> SimulatorOutput,
    validateCancelOrder: (Order, Avatar, Guid) -> Option<ErrorKind>,
    validateCancelOrder2: (Order, Avatar, Guid) -> Option<ErrorKind>,
    cancel: (Order, Avatar, int) -> Result<(Avatar, TradableItem), ErrorKind>,
    cancel2: (Order, Avatar, int) -> Result<(Avatar, TradableItem), ErrorKind>,
    removeFromShop: (ShardedShop, Order, int) -> Result<ShardedShop, ErrorKind>)

  /** `ActionBase.CheckObsolete`: an action past its obsolete index fails. */
  predicate Obsolete(obsoleteIndex: int, ctx: Context)
  {
    ctx.blockIndex > obsoleteIndex
  }

  // ---------------------------------------------------------------- derived addresses

  function InventoryAddress(avatar: Address): Address { Derived(avatar, InventoryKey) }
  function WorldInformationAddress(avatar: Address): Address { Derived(avatar, WorldInformationKey) }
  function QuestListAddress(avatar: Address): Address { Derived(avatar, QuestListKey) }
  function SlotAddress(avatar: Address, slotIndex: Int32): Address { Derived(avatar, CombinationSlotKey(slotIndex)) }
  function DigestListAddress(avatar: Address): Address { Derived(avatar, OrderDigestListKey) }

  // ---------------------------------------------------------------- loaders

  function AgentAt(s: Snapshot, a: Address): Option<Agent>
  {
    match GetState(s, a)
    case Some(AgentValue(g)) => Some(g)
    case _ => None
  }

  /** `GetAvatarState`: the avatar stored as one value. */
  function AvatarAt(s: Snapshot, a: Address): Option<Avatar>
  {
    match GetState(s, a)
    case Some(AvatarValue(v)) => Some(v)
    case _ => None
  }

  /**
   * The split layout read by the `V2` loaders: the avatar's value, with its
   * inventory, world information and quest list taken from their own derived
   * addresses where those hold one.
   */
  function AvatarV2At(s: Snapshot, a: Address): (r: Option<Avatar>)
    ensures r.Some? <==> AvatarAt(s, a).Some?
  {
    match AvatarAt(s, a)
    case None => None
    case Some(v) =>
      var inv := match GetState(s, InventoryAddress(a)) case Some(InventoryValue(i)) => i case _ => v.inventory;
      var wi := match GetState(s, WorldInformationAddress(a)) case Some(WorldInformationValue(w)) => w case _ => v.worldInformation;
      var ql := match GetState(s, QuestListAddress(a)) case Some(QuestListValue(q)) => q case _ => v.questList;
      Some(v.(inventory := inv, worldInformation := wi, questList := ql))
  }

  /** `TryGetAgentAvatarStates`: the signer's agent owns the avatar, stored as one value. */
  function LoadAgentAvatar(s: Snapshot, signer: Address, a: Address): (r: Option<Avatar>)
    ensures r.Some? ==> AgentAt(s, signer).Some? && a in AgentAt(s, signer).value.avatarAddresses && r == AvatarAt(s, a)
  {
    match AgentAt(s, signer)
    case None => None
    case Some(agent) => if a in agent.avatarAddresses then AvatarAt(s, a) else None
  }

  /** `TryGetAgentAvatarStatesV2`: as `LoadAgentAvatar`, in the split layout. */
  function LoadAgentAvatarV2(s: Snapshot, signer: Address, a: Address): (r: Option<Avatar>)
    ensures r.Some? ==> AgentAt(s, signer).Some? && a in AgentAt(s, signer).value.avatarAddresses && r == AvatarV2At(s, a)
  {
    match AgentAt(s, signer)
    case None => None
    case Some(agent) => if a in agent.avatarAddresses then AvatarV2At(s, a) else None
  }

  /** `TryGetAvatarState`: the avatar exists and belongs to the signer. */
  function LoadAvatar(s: Snapshot, signer: Address, a: Address): (r: Option<Avatar>)
    ensures r.Some? ==> r == AvatarAt(s, a) && r.value.agentAddress == signer
  {
    match AvatarAt(s, a)
    case Some(v) => if v.agentAddress == signer then Some(v) else None
    case None => None
  }

  /** `TryGetAvatarStateV2`: as `LoadAvatar`, in the split layout. */
  function LoadAvatarV2(s: Snapshot, signer: Address, a: Address): (r: Option<Avatar>)
    ensures r.Some? ==> r == AvatarV2At(s, a) && r.value.agentAddress == signer
  {
    match AvatarV2At(s, a)
    case Some(v) => if v.agentAddress == signer then Some(v) else None
    case None => None
  }

  /** `GetCombinationSlotState`. */
  function SlotAt(s: Snapshot, a: Address): Option<CombinationSlot>
  {
    match GetState(s, a)
    case Some(SlotValue(v)) => Some(v)
    case _ => None
  }

  /** Writes the avatar in the split layout (`SerializeV2` plus its three parts). */
  function SetAvatarV2(s: Snapshot, a: Address, avatar: Avatar): (r: Snapshot)
    ensures AvatarV2At(r, a) == Some(avatar)
    ensures r.updatedAddresses == s.updatedAddresses + {InventoryAddress(a), WorldInformationAddress(a), QuestListAddress(a), a}
    ensures forall x :: x !in {InventoryAddress(a), WorldInformationAddress(a), QuestListAddress(a), a} ==> GetState(r, x) == GetState(s, x)
    ensures r.balances == s.balances && r.updatedBalances == s.updatedBalances
  {
    var s1 := SetState(s, InventoryAddress(a), InventoryValue(avatar.inventory));
    var s2 := SetState(s1, WorldInformationAddress(a), WorldInformationValue(avatar.worldInformation));
    var s3 := SetState(s2, QuestListAddress(a), QuestListValue(avatar.questList));
    SetState(s3, a, AvatarValue(avatar))
  }

  /** Writing one of an avatar's combination slots leaves the avatar readable as before, in both layouts. */
  lemma SlotWriteKeepsAvatar(s: Snapshot, a: Address, slotIndex: Int32, v: Value)
    ensures AvatarAt(SetState(s, SlotAddress(a, slotIndex), v), a) == AvatarAt(s, a)
    ensures AvatarV2At(SetState(s, SlotAddress(a, slotIndex), v), a) == AvatarV2At(s, a)
  {
    DerivedDiffersFromParent(a, CombinationSlotKey(slotIndex));
  }
}
