# lib9c actions: item enhancement, ranking battle, sell cancellation, activated accounts

This project models five pieces of lib9c, the game-logic library of Nine
Chronicles, and proves properties of the model in Dafny.

- **`ItemEnhancement7` and `ItemEnhancement3`.** Both actions level up one
  equipment by consuming a second, matching equipment as material. Each one:
  - charges action points and, when the enhancement cost sheet has a positive
    cost, gold paid to the Blacksmith;
  - locks the result in a combination slot for one block;
  - delivers an enhancement mail.

  Version 7 stores the avatar in the split layout (avatar, inventory, world
  information and quest list at four addresses) and records the gold paid.
  Version 3 stores the avatar as one value and records a gold amount of 0.
- **`RankingBattle3`.** An avatar fights an opponent in the weekly arena. The
  battle simulator's outcome updates both arena entries, and its rewards are
  added to the avatar's inventory in ascending id order.
- **`SellCancellation`.** A seller withdraws a shop order:
  - the order is validated by the current rule or, failing that, by the legacy
    one, and is cancelled by the matching cancel routine;
  - the order leaves the shop shard while it is still listed;
  - it leaves the seller's order-digest list;
  - its expiration mail is replaced by a cancel mail.
- **`ActivatedAccountsState`.** The set of activated accounts.
  - `AddAccount` returns a new state and leaves the receiver unchanged.
  - `Remove` changes the receiver in place.
  - The state serialises to a dictionary and back.

How the model is built:

- **State.** An account state is a `Snapshot`: a map from addresses to typed
  values, balances, and the sets of changed addresses and balances.
- **Results.** An action's `Execute` returns `Result<Snapshot, ErrorKind>`. Each
  exception the source throws becomes a `Failure`.
- **Failure order.** A `Rejection` function names the first guard that fails,
  in the order the source checks the guards.
- **Success.** Named predicates state what a successful execution writes, and
  that nothing else changes.
- **Rehearsal.** The rehearsal run is modelled by a `Rehearsal` function. Lemmas
  show that a real run writes only what the rehearsal declared.
- **Encodings.** Action parameters (`PlainValueInternal` and
  `LoadPlainValueInternal`) and result dictionaries live in a small value tree
  (`PlainValues`). They come with round-trip lemmas.

Collaborators whose code is not part of this model are parameters of an
`Env` value, so the model holds whatever they do. These are:

- the equipment, consumable and costume validators;
- `RankingSimulator` (its `SimulateV2`);
- `Order.ValidateCancelOrder`, `ValidateCancelOrder2`, `Cancel` and `Cancel2`;
- `ShardedShopStateV2.Remove`. This one and the two cancellations return either
  their result or the error they throw;
- `GenerateRandomGuid`;
- the obsolescence block indices, the action-point cost, the stage
  requirements and the enhancement cost sheet.

Files:

- `wrappers.dfy`: `Option` and `Result`.
- `base.dfy`: Guids, addresses and their derivation, item sub-types.
- `plain_values.dfy`: the value tree and its typed accessors.
- `sorting.dfy`: the `OrderBy` used by the encoders, an insertion sort, stable
  by key.
- `entities.dfy`: the entities the actions work on (items, inventory, mail,
  avatar, combination slot, arena, order, shop), as values.
- `world.dfy`: the snapshot, asset transfer, state loaders and the `Env`
  parameters.
- One file per core source file: `item_enhancement7.dfy`,
  `item_enhancement3.dfy`, `ranking_battle3.dfy`, `sell_cancellation.dfy` and
  `activated_accounts.dfy`.

## Model

| member | source | states |
|---|---|---|
| ItemEnhancement7.CostRowIndex | Lib9c/Action/ItemEnhancement7.cs:313-318 | the index found is the first cost-sheet row with the requested grade and level, or the sheet's length when no row matches |
| ItemEnhancement7.GetRequiredNCG | Lib9c/Action/ItemEnhancement7.cs:313-320 | the cost of the first row matching grade and level, and 0 when no row matches |
| ItemEnhancement7.UpgradeEquipment | Lib9c/Action/ItemEnhancement7.cs:322-326 | the equipment is the same item one level higher; its id, kind, sub-type, grade, lock and equipped flag are unchanged (stats are not modelled) |
| ItemEnhancement7.Enhanced | Lib9c/Action/ItemEnhancement7.cs:241-248 | the enhanced target keeps its id, kind, sub-type and grade, is one level higher, is unequipped, and is locked until the next block |
| ItemEnhancement7.ResultOf | Lib9c/Action/ItemEnhancement7.cs:158-176 | the recorded result has the freshly drawn Guid as its id, lists the one material, records the action points spent and the gold cost looked up at the next level, and carries the enhanced target: unequipped, one level up and locked until the next block |
| ItemEnhancement7.EnhancedAvatar | Lib9c/Action/ItemEnhancement7.cs:175-263 | the avatar has spent exactly the required action points; its inventory has lost the material and then the target; it has received one enhancement mail, carrying the result and locked until the next block, after its existing mails; its agent, world information and both block fields are unchanged, and the model leaves its quest list alone |
| ItemEnhancement7.SerializeResult | Lib9c/Action/ItemEnhancement7.cs:56-67 | the result dictionary has exactly the keys id, materialItemIdList, gold and actionPoint |
| ItemEnhancement7.DeserializeResult | Lib9c/Action/ItemEnhancement7.cs:47-54 | decoding succeeds exactly when the id, material-list, gold and action-point entries have their types; each missing entry, checked in that order, is a missing-key error; a success returns exactly what the four entries hold |
| ItemEnhancement7.ResultRoundTrip | Lib9c/Action/ItemEnhancement7.cs:47-67 | decoding a serialised result gives it back, with the material list in ascending order |
| ItemEnhancement7.PlainValueInternal | Lib9c/Action/ItemEnhancement7.cs:286-300 | the encoding has exactly the keys itemId, materialId, avatarAddress and slotIndex |
| ItemEnhancement7.LoadPlainValueInternal | Lib9c/Action/ItemEnhancement7.cs:302-311 | decoding succeeds exactly when itemId, materialId and avatarAddress have their types and a present slotIndex is a 32-bit integer; a missing itemId, materialId or avatarAddress, checked in that order, is a missing-key error; a success holds exactly the three entries; a missing slotIndex keeps the action's prior slot index and a present one is decoded from its entry |
| ItemEnhancement7.PlainValueRoundTrip | Lib9c/Action/ItemEnhancement7.cs:286-311 | decoding an encoded action gives back the action, whatever its prior fields were |
| ItemEnhancement7.PlainValueWithoutSlotIndex | Lib9c/Action/ItemEnhancement7.cs:307-310 | an encoding without slotIndex decodes to the action with its prior slot index |
| ItemEnhancement7.Rehearsal | Lib9c/Action/ItemEnhancement7.cs:84-93 | the rehearsal marks the avatar, inventory, world-information, quest-list and slot addresses; it marks the signer's and the Blacksmith's balances; it changes nothing else |
| ItemEnhancement7.StoredSlotAndAvatar | Lib9c/Action/ItemEnhancement7.cs:255-283 | the final writes leave the slot holding the result, locked for one block, and the enhanced avatar readable in the split layout |
| ItemEnhancement7.StoredPaid | Lib9c/Action/ItemEnhancement7.cs:173-185 | the final writes keep the balances the payment step produced |
| ItemEnhancement7.StoredFrame | Lib9c/Action/ItemEnhancement7.cs:274-283 | the final writes mark exactly the five rehearsed addresses and leave every other address as before |
| ItemEnhancement7.LevelCap | Lib9c/Action/ItemEnhancement7.cs:150-156 | once the avatar, target and slot pass their checks, execution fails with EquipmentLevelExceeded if and only if the target's level is above 9 |
| ItemEnhancement7.MismatchedMaterialRefused | Lib9c/Action/ItemEnhancement7.cs:206-238 | a material that is found, unlocked and an equipment, but differs from the target in sub-type, grade or level, is refused with InvalidMaterial |
| ItemEnhancement7.PaymentConserved | Lib9c/Action/ItemEnhancement7.cs:178-185 | after a success the signer has lost exactly the cost and the Blacksmith has gained it, or neither balance moved when the cost is not positive; no other balance changes |
| ItemEnhancement7.WithinRehearsal | Lib9c/Action/ItemEnhancement7.cs:84-93 | a successful real execution writes exactly the rehearsed addresses and no balance the rehearsal did not mark |
| ItemEnhancement7.RemovedFrom | Lib9c/Action/ItemEnhancement7.cs:255 | removing a non-fungible item only drops entries; everything left was in the inventory before |
| ItemEnhancement7.TargetAndMaterialConsumed | Lib9c/Action/ItemEnhancement7.cs:255-262 | when item ids are unique, the enhanced avatar's inventory holds neither the target nor the material, and its ids stay unique |
| ItemEnhancement7.Execute | Lib9c/Action/ItemEnhancement7.cs:70-284 | a rehearsal returns the rehearsal state; a real run fails exactly when a guard fails, with the first failing guard's error; on success the slot, avatar, payment and frame predicates hold |
| ItemEnhancement7.Enhance | Lib9c/Action/ItemEnhancement7.cs:158-283 | from the action-point check on: fails with the first failing guard's error, otherwise produces the enhanced slot and avatar, the payment and nothing else |
| ItemEnhancement7.Upgrade | Lib9c/Action/ItemEnhancement7.cs:241-283 | once the guards have passed and the gold is paid, the state written is the paid state with the enhanced avatar and the filled slot stored over it |
| ItemEnhancement3.PlainValueInternal | Lib9c/Action/ItemEnhancement3.cs:238-252 | the encoding has exactly the keys itemId, materialId, avatarAddress and slotIndex |
| ItemEnhancement3.LoadPlainValueInternal | Lib9c/Action/ItemEnhancement3.cs:254-260 | decoding succeeds exactly when all four entries have their types; each missing key, checked in the order itemId, materialId, avatarAddress, slotIndex, is a missing-key error; a success agrees with every entry of the input |
| ItemEnhancement3.PlainValueRoundTrip | Lib9c/Action/ItemEnhancement3.cs:238-260 | decoding an encoded action gives it back |
| ItemEnhancement3.PlainValueWithoutSlotIndex | Lib9c/Action/ItemEnhancement3.cs:259 | an encoding without slotIndex is refused with a missing-key error for slotIndex |
| ItemEnhancement3.Rehearsal | Lib9c/Action/ItemEnhancement3.cs:43-49 | the rehearsal marks the avatar and slot addresses and the signer's and the Blacksmith's balances; it changes nothing else |
| ItemEnhancement3.ResultOf | Lib9c/Action/ItemEnhancement3.cs:114-118 | the recorded result has the freshly drawn Guid as its id, lists the one material, records the action points spent and a gold amount of 0, and carries the enhanced target: unequipped, one level up and locked until the next block |
| ItemEnhancement3.EnhancedAvatar | Lib9c/Action/ItemEnhancement3.cs:131-219 | the avatar has spent exactly the required action points; its inventory has lost the material and then the target; it has received one enhancement mail, carrying the result and locked until the next block, after its existing mails; its agent, world information and both block fields are unchanged, and the model leaves its quest list alone |
| ItemEnhancement3.StoredSlotAndAvatar | Lib9c/Action/ItemEnhancement3.cs:211-235 | the final writes leave the slot holding the result, locked for one block, and the enhanced avatar stored as one value |
| ItemEnhancement3.StoredPaid | Lib9c/Action/ItemEnhancement3.cs:129-141 | the final writes keep the balances the payment step produced |
| ItemEnhancement3.StoredFrame | Lib9c/Action/ItemEnhancement3.cs:230-235 | the final writes mark exactly the avatar and slot addresses and nothing else |
| ItemEnhancement3.WithinRehearsal | Lib9c/Action/ItemEnhancement3.cs:43-49 | a successful real execution writes exactly the rehearsed addresses and no balance the rehearsal did not mark |
| ItemEnhancement3.ChargedButNotRecorded | Lib9c/Action/ItemEnhancement3.cs:209 | after a success the slot's result records 0 gold, whatever was charged |
| ItemEnhancement3.Execute | Lib9c/Action/ItemEnhancement3.cs:32-236 | a rehearsal returns the rehearsal state; a real run fails exactly when a guard fails, with the first failing guard's error; on success the slot, avatar, payment and frame predicates hold |
| ItemEnhancement3.Enhance | Lib9c/Action/ItemEnhancement3.cs:114-235 | from the action-point check on: fails with the first failing guard's error, otherwise produces the enhanced slot and avatar, the payment and nothing else |
| ItemEnhancement3.Upgrade | Lib9c/Action/ItemEnhancement3.cs:197-235 | once the guards have passed and the gold is paid, the state written is the paid state with the enhanced avatar and the filled slot stored over it |
| RankingBattle3.PlainValueInternal | Lib9c/Action/RankingBattle3.cs:217-232 | the encoding has exactly the six keys avatarAddress, enemyAddress, weeklyArenaAddress, costume_ids, equipment_ids and consumable_ids |
| RankingBattle3.LoadPlainValueInternal | Lib9c/Action/RankingBattle3.cs:234-248 | decoding succeeds exactly when the three address entries are addresses and the three id-list entries are lists of Guids; each missing key, checked in the source's order, is a missing-key error; a success holds exactly the three addresses and the three lists |
| RankingBattle3.PlainValueRoundTrip | Lib9c/Action/RankingBattle3.cs:217-248 | decoding an encoded action gives back the action with its three id lists sorted |
| RankingBattle3.PlainValueStable | Lib9c/Action/RankingBattle3.cs:223-231 | sorting the id lists first does not change the encoding |
| RankingBattle3.PlainValueOrderInsensitive | Lib9c/Action/RankingBattle3.cs:223-231 | two actions whose id lists are permutations of each other encode identically |
| RankingBattle3.Rehearsal | Lib9c/Action/RankingBattle3.cs:38-45 | the rehearsal marks the signer, avatar and weekly-arena addresses and the signer's and weekly arena's balances; it changes nothing else |
| RankingBattle3.AddAllCount | Lib9c/Action/RankingBattle3.cs:190-198 | adding rewards one by one raises each item's count by the number of times it occurs among the rewards |
| RankingBattle3.AddAllKeepsNonFungible | Lib9c/Action/RankingBattle3.cs:190-198 | adding rewards never shrinks the inventory or disturbs an existing non-fungible entry |
| RankingBattle3.ApplyRewards | Lib9c/Action/RankingBattle3.cs:190-198 | the loop adds the rewards in ascending id order; each item's count grows by its multiplicity among the rewards |
| RankingBattle3.WithinRehearsal | Lib9c/Action/RankingBattle3.cs:38-45 | a successful real execution writes only rehearsed addresses and touches no balance the rehearsal did not mark |
| RankingBattle3.RewardsArrive | Lib9c/Action/RankingBattle3.cs:190-206 | in the avatar written back, each item's count is its count after equipping plus its multiplicity among the rewards |
| RankingBattle3.EntryActivated | Lib9c/Action/RankingBattle3.cs:135-138 | the simulator sees the avatar's arena entry as active and otherwise as stored |
| RankingBattle3.Execute | Lib9c/Action/RankingBattle3.cs:34-215 | a rehearsal returns the rehearsal state and no log; a real run fails exactly when a guard fails, with the first failing guard's error and no log; on success the simulator's log is returned, both arena entries and the rewarded avatar are written, and nothing else changes |
| SellCancellation.PlainValueInternal | Lib9c/Action/SellCancellation.cs:57-63 | the encoding has exactly the four keys for the order id, the seller, the sub-type and the tradable id |
| SellCancellation.GetSubType | Lib9c/Action/SellCancellation.cs:69 | decoding succeeds exactly when the entry is a sub-type name; a decoded sub-type is the one whose name the entry holds; a missing entry is a missing-key error |
| SellCancellation.LoadPlainValueInternal | Lib9c/Action/SellCancellation.cs:65-74 | decoding succeeds exactly when the order id is a Guid, the seller an address, the sub-type a sub-type name, and a present tradable id a Guid; a missing order id, seller or sub-type, checked in that order, is a missing-key error; a success holds exactly those three entries; a missing tradable id keeps the prior one and a present one is decoded from its entry |
| SellCancellation.PlainValueRoundTrip | Lib9c/Action/SellCancellation.cs:57-74 | decoding an encoded action gives it back, whatever its prior fields were |
| SellCancellation.PlainValueWithoutTradableId | Lib9c/Action/SellCancellation.cs:70-73 | on a new action, an encoding without the tradable id decodes with the empty Guid as tradable id |
| SellCancellation.Rehearsal | Lib9c/Action/SellCancellation.cs:85-95 | the rehearsal marks the shop shard, inventory, world-information, quest-list, digest-list, item and seller addresses; it marks no balance and changes nothing else |
| SellCancellation.RemoveExpirationMail | Lib9c/Action/SellCancellation.cs:163-168 | without an expiration mail for the order the mailbox is unchanged; otherwise exactly that one mail, the first, is removed |
| SellCancellation.RemoveExpirationMailKeepsOthers | Lib9c/Action/SellCancellation.cs:163-168 | every mail that is not an expiration mail for the order stays in the mailbox |
| SellCancellation.CancelledAvatar | Lib9c/Action/SellCancellation.cs:163-179 | the mailbox loses the expiration mail and gains the cancel mail; both block fields become the current block; every other field of the avatar is untouched |
| SellCancellation.ValidationRejection | Lib9c/Action/SellCancellation.cs:135-144 | the action is refused if and only if both the current and the legacy validation fail |
| SellCancellation.WithinRehearsal | Lib9c/Action/SellCancellation.cs:85-95 | a successful real execution writes only rehearsed addresses and no balance |
| SellCancellation.ExpiredOrderLeavesShop | Lib9c/Action/SellCancellation.cs:149-154 | when the order has expired, the shop shard is left as it was |
| SellCancellation.DigestGone | Lib9c/Action/SellCancellation.cs:156-161 | after a success no digest of the order remains in the seller's list |
| SellCancellation.MailboxChange | Lib9c/Action/SellCancellation.cs:163-176 | the last mail is the cancel mail; the mailbox grows by one, or stays the same size when an expiration mail was removed; every other mail stays |
| SellCancellation.Execute | Lib9c/Action/SellCancellation.cs:76-201 | a rehearsal returns the rehearsal state; a real run fails exactly when a guard fails, with the first failing guard's error; on success the shop, digest list, item and seller are written as cancelled, and the rest of the state stays as it was |
| SellCancellation.Cancel | Lib9c/Action/SellCancellation.cs:146-200 | after validation: fails exactly when the cancellation fails, the shop removal of a listed order fails, or the digest list does not load, with that first error; otherwise writes the cancelled state and nothing else |
| SellCancellation.CancelRejection | Lib9c/Action/SellCancellation.cs:146-159 | the error after validation is the cancellation's own when it fails, then the shop removal's when the order is listed and removal fails; there is none exactly when both succeed and the digest list loads; any other error is the digest list's failed load |
| SellCancellation.UnlistedKeepsDigests | Lib9c/Action/SellCancellation.cs:149-156 | the shop step succeeds exactly when the order has expired or its removal succeeds; it then leaves the digest list readable as before, and the shard holds the reduced shop exactly when the order is still listed |
| SellCancellation.StoredReadsBack | Lib9c/Action/SellCancellation.cs:185-191 | after the final writes the avatar and the reduced digest list can be read back; the returned item can be read back when the seller's address differs from the item address, and the shop shard is untouched when the seller's address differs from the shard address |
| SellCancellation.FinalShop | Lib9c/Action/SellCancellation.cs:146-191 | the state a success leaves satisfies the shop, digest and item predicate |
| SellCancellation.FinalSeller | Lib9c/Action/SellCancellation.cs:163-191 | the state a success leaves holds the cancelled seller |
| SellCancellation.FinalFrame | Lib9c/Action/SellCancellation.cs:149-191 | the state a success leaves differs from the input only at the written addresses, with balances untouched |
| SellCancellation.StoredFrame | Lib9c/Action/SellCancellation.cs:185-191 | the final writes mark exactly the six stored addresses and leave every other address and every balance as before |
| ActivatedAccounts.EncodeAddresses | Lib9c/Model/State/ActivatedAccountsState.cs:57 | each account becomes one address entry, in order |
| ActivatedAccounts.DecodeAddresses | Lib9c/Model/State/ActivatedAccountsState.cs:33-34 | a list decodes if and only if every element is an address, and then element by element |
| ActivatedAccounts.DecodeEncodeAddresses | Lib9c/Model/State/ActivatedAccountsState.cs:33-34 | decoding an encoded address list gives it back |
| ActivatedAccounts.Decode | Lib9c/Model/State/ActivatedAccountsState.cs:30-36 | decoding succeeds exactly when the address entry is an address and the accounts entry is a list of addresses, whatever other keys are present; a missing address or accounts key is a missing-key error; a mistyped address is a wrong-type error, and so is an accounts entry that is not a list or holds a non-address; a success reads the address from its entry, and an account is in the set exactly when the list holds it |
| ActivatedAccounts.DecodeEncoded | Lib9c/Model/State/ActivatedAccountsState.cs:30-36 | decoding a serialised list gives the address and the set of its elements |
| ActivatedAccounts.ActivatedAccountsState.constructor | Lib9c/Model/State/ActivatedAccountsState.cs:15-22 | a new state is empty and lives at the activated-account address |
| ActivatedAccounts.ActivatedAccountsState.FromAccounts | Lib9c/Model/State/ActivatedAccountsState.cs:24-28 | a state built from a set holds that set at the activated-account address |
| ActivatedAccounts.ActivatedAccountsState.Restore | Lib9c/Model/State/ActivatedAccountsState.cs:30-36 | a decoded state holds the address and the accounts it was decoded with |
| ActivatedAccounts.ActivatedAccountsState.AddAccount | Lib9c/Model/State/ActivatedAccountsState.cs:43-46 | returns a fresh state holding the old accounts plus the new one, at the activated-account address; the receiver is unchanged; adding an account already present changes nothing |
| ActivatedAccounts.ActivatedAccountsState.Remove | Lib9c/Model/State/ActivatedAccountsState.cs:48-51 | the receiver holds its old accounts minus the removed one; removing an absent account is a no-op |
| ActivatedAccounts.ActivatedAccountsState.Serialize | Lib9c/Model/State/ActivatedAccountsState.cs:53-62 | the dictionary has exactly the accounts and address keys and lists each account once; decoding it gives back the address and the account set |
| ActivatedAccounts.Deserialize | Lib9c/Model/State/ActivatedAccountsState.cs:30-36 | fails exactly when decoding fails, with the same error; otherwise returns a fresh state holding the decoded address and accounts |

## Left out

- Logging, stopwatches and the exception messages are left out. Exceptions are modelled as `ErrorKind` values.
- `UpdateQuestRewards`, `UpdateFromItemEnhancement`, and the mailbox cleanup inside `UpdateV2`/`UpdateV3` are left out. They live in `AvatarState` and `QuestList`, which are not part of this model. Mail delivery is modelled as appending one mail.
- The base class `AttachmentActionResult` is not modelled. The `itemUsable` and `type_id` entries it adds to a serialised enhancement result are therefore left out.
- `SellCancellation.Result` is left out. Its serialisation needs `ShopItem`, which is not part of this model.
- Game sheets, `CheckObsolete`, `GetRequiredAp` and the `GameConfig` stage requirements are `Env` parameters and are not read from the state.
  - The obsolescence check is modelled as failing past its block index.
  - A combination slot is modelled as usable once its unlock block is reached and its unlock stage is cleared.
- World information is reduced to the last cleared stage id. `IsStageCleared` compares against it.
- The battle simulator's use of the random source is left out. The simulator is a parameter from its input to its output. `RankingBattle3`'s unused entrance fee is not modelled.
- Rewards are fungible items. `AddItem` for a non-fungible reward is not modelled.
- `OrderDigestListState.Remove` is modelled as removing every digest of the order. For the unique digests the shop keeps, this is the same as removing the first.
- The constants behind `ProductIdKey`, `SellerAvatarAddressKey`, `ItemSubTypeKey` and `TradableIdKey` in `SerializeKeys` are not part of this model. Stand-in strings are used.
- `ToEnum<ItemSubType>` is modelled as accepting member names only, not numeric strings.
- Gold is counted in whole units of the gold currency, as `GetGoldCurrency() * requiredNCG` transfers it. Fractional amounts and minting are left out.
- Block indices are unbounded integers. An overflow of `BlockIndex + 1` is not modelled.
- The .NET `ISerializable` plumbing (`GetObjectData` and the `SerializationInfo` constructor) is left out.
- The enumeration order of `ActivatedAccountsState`'s set is left unspecified. `Serialize` may list the accounts in any order.
- ItemEnhancement7.PaymentConserved: requires the signer not to be the Blacksmith. No account signs as the Blacksmith. In this model a transfer to oneself changes no balance, so the claim is stated only for distinct parties. What the real `TransferAsset` does for such a transfer is not part of this model.
- ItemEnhancement7.EnhancedAvatar: `UpdateV3`'s mailbox cleanup, `UpdateFromItemEnhancement` and `UpdateQuestRewards` (ItemEnhancement7.cs:263-267) are not applied. The dropped old mails, the quest progress and the quest reward items are not modelled, so "quest list unchanged" holds of the model only.
- ItemEnhancement3.EnhancedAvatar: `UpdateV2`'s mailbox cleanup, `UpdateFromItemEnhancement` and `UpdateQuestRewards` (ItemEnhancement3.cs:219-223) are not applied. The dropped old mails, the quest progress and the quest reward items are not modelled, so "quest list unchanged" holds of the model only.
- ItemEnhancement7.UpgradeEquipment: items carry no stats, so the stat growth that `Equipment.LevelUp` applies is not modelled. Only the level rises.
- SellCancellation.Execute: the claim that the returned item is stored at its item address holds only when the seller's address differs from that item address. A seller stored at the same address would overwrite the item.
