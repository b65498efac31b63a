/**
 * Identifiers shared by every action: Guids, addresses and their derivation,
 * item sub-types and 32-bit integers.
 */
module Base {
  import opened Wrappers

  /** A 128-bit Guid. `Guid.CompareTo`, used by `OrderBy`, is modelled as the integer order. */
  type Guid = g: int | 0 <= g < 0x1_0000_0000_0000_0000_0000_0000_0000_0000

  /** A C# `int`. */
  type Int32 = x: int | -0x8000_0000 <= x < 0x8000_0000

  /** The item sub-types of the game's `ItemSubType` enumeration. */
  datatype ItemSubType =
    | Food | FullCostume | HairCostume | EarCostume | EyeCostume | TailCostume
    | Weapon | Armor | Belt | Necklace | Ring
    | EquipmentMaterial | FoodMaterial | MonsterPart | NormalMaterial
    | Hourglass | ApStone | Chest | Title

  /** The enumeration member's name, which is how a sub-type is serialised. */
  function SubTypeName(t: ItemSubType): string
  {
    match t
    case Food => "Food"
    case FullCostume => "FullCostume"
    case HairCostume => "HairCostume"
    case EarCostume => "EarCostume"
    case EyeCostume => "EyeCostume"
    case TailCostume => "TailCostume"
    case Weapon => "Weapon"
    case Armor => "Armor"
    case Belt => "Belt"
    case Necklace => "Necklace"
    case Ring => "Ring"
    case EquipmentMaterial => "EquipmentMaterial"
    case FoodMaterial => "FoodMaterial"
    case MonsterPart => "MonsterPart"
    case NormalMaterial => "NormalMaterial"
    case Hourglass => "Hourglass"
    case ApStone => "ApStone"
    case Chest => "Chest"
    case Title => "Title"
  }

  /** Parses a member name back (`ToEnum<ItemSubType>`); any other text is rejected. */
  function ParseSubType(name: string): (r: Option<ItemSubType>)
    ensures r.Some? ==> SubTypeName(r.value) == name
  {
    if name == "Food" then Some(Food)
    else if name == "FullCostume" then Some(FullCostume)
    else if name == "HairCostume" then Some(HairCostume)
    else if name == "EarCostume" then Some(EarCostume)
    else if name == "EyeCostume" then Some(EyeCostume)
    else if name == "TailCostume" then Some(TailCostume)
    else if name == "Weapon" then Some(Weapon)
    else if name == "Armor" then Some(Armor)
    else if name == "Belt" then Some(Belt)
    else if name == "Necklace" then Some(Necklace)
    else if name == "Ring" then Some(Ring)
    else if name == "EquipmentMaterial" then Some(EquipmentMaterial)
    else if name == "FoodMaterial" then Some(FoodMaterial)
    else if name == "MonsterPart" then Some(MonsterPart)
    else if name == "NormalMaterial" then Some(NormalMaterial)
    else if name == "Hourglass" then Some(Hourglass)
    else if name == "ApStone" then Some(ApStone)
    else if name == "Chest" then Some(Chest)
    else if name == "Title" then Some(Title)
    else None
  }

  /** Every sub-type's name parses back to that sub-type. */
  lemma ParseSubTypeName(t: ItemSubType)
    ensures ParseSubType(SubTypeName(t)) == Some(t)
  {
  }

  /**
   * The salts passed to `Address.Derive`: the legacy inventory, world-information
   * and quest-list keys, the combination-slot format applied to a slot index, and
   * the order-digest-list key.
   */
  datatype DeriveKey =
    | InventoryKey
    | WorldInformationKey
    | QuestListKey
    | CombinationSlotKey(slotIndex: Int32)
    | OrderDigestListKey

  /**
   * An address. `Address.Derive` hashes a parent address with a salt; the hash is
   * modelled by the constructor `Derived`, which is injective by construction, and
   * so are the item, order and shop-shard derivations. `Blacksmith` and
   * `ActivatedAccount` are the well-known addresses of `Addresses`.
   */
  datatype Address =
    | Account(key: nat)
    | Derived(parent: Address, salt: DeriveKey)
    | ItemAddress(tradableId: Guid)
    | OrderAddress(orderId: Guid)
    | ShopShardAddress(subType: ItemSubType, nonce: nat)
    | Blacksmith
    | ActivatedAccount

  /** How many derivations lead to an address. */
  function DerivationDepth(a: Address): nat
  {
    if a.Derived? then DerivationDepth(a.parent) + 1 else 0
  }

  /** A derived address never equals the address it is derived from. */
  lemma DerivedDiffersFromParent(a: Address, salt: DeriveKey)
    ensures Derived(a, salt) != a
  {
    assert DerivationDepth(Derived(a, salt)) == DerivationDepth(a) + 1;
  }

  /** The shard of the sharded shop an order lives in: its id's leading hexadecimal digit. */
  function ShardNonce(orderId: Guid): (r: nat)
    ensures r < 16
  {
    orderId / 0x1000_0000_0000_0000_0000_0000_0000_0000
  }
}
