/**
 * `SellCancellation` (action type `sell_cancellation8`): a seller withdraws an
 * order. The order is validated by the current rule or, failing that, by the
 * legacy one, and cancelled by the matching `Cancel`; the shop shard drops the
 * order while it has not expired; the seller's digest list drops it; the first
 * expiration mail for it is removed and a cancel mail is delivered.
 */
module SellCancellation {
  import opened Wrappers
  import opened Base
  import opened Entities
  import opened World
  import opened PlainValues

  /** The action's fields. */
  datatype Action = Action(orderId: Guid, tradableId: Guid, sellerAvatarAddress: Address, itemSubType: ItemSubType)

  /** The fields of a newly constructed action, before decoding: every Guid is the empty Guid. */
  function Default(seller: Address, subType: ItemSubType): Action
  {
    Action(0, 0, seller, subType)
  }

  // ---------------------------------------------------------------- action serialisation

  /** Keys of the encoding; these stand in for the constants of the repository's `SerializeKeys`. */
  const ProductIdKey := "productId"
  const SellerAvatarAddressKey := "sellerAvatarAddress"
  const ItemSubTypeKey := "itemSubType"
  const TradableIdKey := "tradableId"

  /** `PlainValueInternal`; the sub-type is written as its name. */
  function PlainValueInternal(a: Action): (d: Dict)
    ensures d.Keys == {ProductIdKey, SellerAvatarAddressKey, ItemSubTypeKey, TradableIdKey}
  {
    map[
      ProductIdKey := PGuid(a.orderId),
      SellerAvatarAddressKey := PAddress(a.sellerAvatarAddress),
      ItemSubTypeKey := PText(SubTypeName(a.itemSubType)),
      TradableIdKey := PGuid(a.tradableId)]
  }

  /** The entry under `key` is present and names a sub-type. */
  predicate HasSubType(d: Dict, key: string)
  {
    key in d && d[key].PText? && ParseSubType(d[key].text).Some?
  }

  /** `ToEnum<ItemSubType>`: a text naming a sub-type. */
  function GetSubType(d: Dict, key: string): (r: Result<ItemSubType, DecodeError>)
    ensures r.Success? <==> HasSubType(d, key)
    ensures r.Success? ==> key in d && d[key] == PText(SubTypeName(r.value))
    ensures key !in d ==> r == Failure(KeyNotFound(key))
  {
    if key !in d then Failure(KeyNotFound(key))
    else match d[key]
      case PText(name) =>
        (match ParseSubType(name)
         case Some(t) => Success(t)
         case None => Failure(WrongType(key)))
      case _ => Failure(WrongType(key))
  }

  /**
   * `LoadPlainValueInternal` applied to an action whose fields were `prior`:
   * the tradable id is optional and keeps its prior value when absent.
   */
  function LoadPlainValueInternal(d: Dict, prior: Action): (r: Result<Action, DecodeError>)
    ensures r.Success? <==>
      && HasGuid(d, ProductIdKey) && HasAddress(d, SellerAvatarAddressKey) && HasSubType(d, ItemSubTypeKey)
      && (TradableIdKey in d ==> HasGuid(d, TradableIdKey))
    ensures ProductIdKey !in d ==> r == Failure(KeyNotFound(ProductIdKey))
    ensures HasGuid(d, ProductIdKey) && SellerAvatarAddressKey !in d ==> r == Failure(KeyNotFound(SellerAvatarAddressKey))
    ensures (HasGuid(d, ProductIdKey) && HasAddress(d, SellerAvatarAddressKey) && ItemSubTypeKey !in d)
      ==> r == Failure(KeyNotFound(ItemSubTypeKey))
    ensures r.Success? ==> ProductIdKey in d && SellerAvatarAddressKey in d && ItemSubTypeKey in d
    ensures r.Success? ==>
      && d[ProductIdKey] == PGuid(r.value.orderId)
      && d[SellerAvatarAddressKey] == PAddress(r.value.sellerAvatarAddress)
      && d[ItemSubTypeKey] == PText(SubTypeName(r.value.itemSubType))
    ensures r.Success? ==> TradableIdKey !in d ==> r.value.tradableId == prior.tradableId
    ensures r.Success? ==> TradableIdKey in d ==> d[TradableIdKey] == PGuid(r.value.tradableId)
  {
    match GetGuid(d, ProductIdKey)
    case Failure(e) => Failure(e)
    case Success(orderId) =>
      match GetAddress(d, SellerAvatarAddressKey)
      case Failure(e) => Failure(e)
      case Success(seller) =>
        match GetSubType(d, ItemSubTypeKey)
        case Failure(e) => Failure(e)
        case Success(subType) =>
          if TradableIdKey in d then
            match GetGuid(d, TradableIdKey)
            case Failure(e) => Failure(e)
            case Success(tradableId) => Success(Action(orderId, tradableId, seller, subType))
          else Success(Action(orderId, prior.tradableId, seller, subType))
  }

  /** Decoding an encoded action gives it back, whatever the prior fields. */
  lemma PlainValueRoundTrip(a: Action, prior: Action)
    ensures LoadPlainValueInternal(PlainValueInternal(a), prior) == Success(a)
  {
    ParseSubTypeName(a.itemSubType);
  }

  /** An encoding without the tradable id decodes, on a new action, to the empty Guid. */
  lemma PlainValueWithoutTradableId(a: Action)
    ensures LoadPlainValueInternal(PlainValueInternal(a) - {TradableIdKey}, Default(a.sellerAvatarAddress, a.itemSubType)) ==
      Success(a.(tradableId := 0))
  {
    ParseSubTypeName(a.itemSubType);
  }

  // ---------------------------------------------------------------- addresses and loaders

  function ShardAddress(a: Action): Address
  {
    ShopShardAddress(a.itemSubType, ShardNonce(a.orderId))
  }

  /** The state addresses the action may write. */
  function RehearsalAddresses(a: Action): set<Address>
  {
    var seller := a.sellerAvatarAddress;
    {ShardAddress(a), InventoryAddress(seller), WorldInformationAddress(seller), QuestListAddress(seller),
     DigestListAddress(seller), ItemAddress(a.tradableId), seller}
  }

  /** The rehearsal result: the seven addresses marked, no balance. */
  function Rehearsal(a: Action, s: Snapshot): (r: Snapshot)
    ensures r.balances == s.balances && r.updatedBalances == s.updatedBalances
    ensures r.updatedAddresses == s.updatedAddresses + RehearsalAddresses(a)
    ensures forall x :: GetState(r, x) == (if x in RehearsalAddresses(a) then Some(MarkChanged) else GetState(s, x))
  {
    var seller := a.sellerAvatarAddress;
    var s1 := SetState(s, ShardAddress(a), MarkChanged);
    var s2 := SetState(s1, InventoryAddress(seller), MarkChanged);
    var s3 := SetState(s2, WorldInformationAddress(seller), MarkChanged);
    var s4 := SetState(s3, QuestListAddress(seller), MarkChanged);
    var s5 := SetState(s4, DigestListAddress(seller), MarkChanged);
    var s6 := SetState(s5, ItemAddress(a.tradableId), MarkChanged);
    SetState(s6, seller, MarkChanged)
  }

  function ShopAt(s: Snapshot, a: Address): Option<ShardedShop>
  {
    match GetState(s, a)
    case Some(ShopValue(v)) => Some(v)
    case _ => None
  }

  function OrderAt(s: Snapshot, a: Address): Option<Order>
  {
    match GetState(s, a)
    case Some(OrderValue(v)) => Some(v)
    case _ => None
  }

  function DigestListAt(s: Snapshot, a: Address): Option<OrderDigestList>
  {
    match GetState(s, a)
    case Some(DigestListValue(v)) => Some(v)
    case _ => None
  }

  function TradableAt(s: Snapshot, a: Address): Option<TradableItem>
  {
    match GetState(s, a)
    case Some(TradableValue(v)) => Some(v)
    case _ => None
  }

  // ---------------------------------------------------------------- mailbox

  /** The mailbox without its first expiration mail for `orderId`, if there is one. */
  function RemoveExpirationMail(mails: seq<Mail>, orderId: Guid): (r: seq<Mail>)
    ensures ExpirationMailIndex(mails, orderId) == |mails| ==> r == mails
    ensures ExpirationMailIndex(mails, orderId) < |mails| ==>
      |r| == |mails| - 1 && multiset(r) + multiset{mails[ExpirationMailIndex(mails, orderId)]} == multiset(mails)
  {
    var i := ExpirationMailIndex(mails, orderId);
    if i == |mails| then mails
    else
      assert mails == mails[..i] + [mails[i]] + mails[i + 1..];
      mails[..i] + mails[i + 1..]
  }

  /** Only an expiration mail for `orderId` can go: every other mail stays. */
  lemma RemoveExpirationMailKeepsOthers(mails: seq<Mail>, orderId: Guid)
    ensures forall m :: m in mails && !IsExpirationOf(m, orderId) ==> m in RemoveExpirationMail(mails, orderId)
  {
    var r := RemoveExpirationMail(mails, orderId);
    var i := ExpirationMailIndex(mails, orderId);
    forall m | m in mails && !IsExpirationOf(m, orderId) ensures m in r {
      if i < |mails| {
        assert m in multiset(mails);
        assert m != mails[i];
      }
    }
  }

  /** The avatar after the cancellation: the expiration mail gone, the cancel mail delivered, both block fields set. */
  function CancelledAvatar(a: Action, ctx: Context, avatar: Avatar): (r: Avatar)
    ensures r.mailBox == RemoveExpirationMail(avatar.mailBox, a.orderId) + [CancelOrderMail(a.orderId, ctx.blockIndex, ctx.blockIndex, a.orderId)]
    ensures r.updatedAt == ctx.blockIndex && r.blockIndex == ctx.blockIndex
    ensures r.inventory == avatar.inventory && r.worldInformation == avatar.worldInformation && r.agentAddress == avatar.agentAddress
    ensures r.(mailBox := avatar.mailBox, updatedAt := avatar.updatedAt, blockIndex := avatar.blockIndex) == avatar
  {
    var withoutExpiration := avatar.(mailBox := RemoveExpirationMail(avatar.mailBox, a.orderId));
    AddMail(withoutExpiration, CancelOrderMail(a.orderId, ctx.blockIndex, ctx.blockIndex, a.orderId))
      .(updatedAt := ctx.blockIndex, blockIndex := ctx.blockIndex)
  }

  // ---------------------------------------------------------------- validation

  /** The seller, the shop shard, the order and the digest list, when all four load. */
  function Loaded(a: Action, ctx: Context, s: Snapshot): Option<(Avatar, ShardedShop, Order, OrderDigestList)>
  {
    match LoadAvatarV2(s, ctx.signer, a.sellerAvatarAddress)
    case None => None
    case Some(avatar) =>
      match ShopAt(s, ShardAddress(a))
      case None => None
      case Some(shop) =>
        match OrderAt(s, OrderAddress(a.orderId))
        case None => None
        case Some(order) =>
          match DigestListAt(s, DigestListAddress(a.sellerAvatarAddress))
          case None => None
          case Some(digests) => Some((avatar, shop, order, digests))
  }

  /** The current validation fails, so the legacy validation and `Cancel2` are used. */
  predicate FromPreviousAction(a: Action, env: Env, order: Order, avatar: Avatar)
  {
    env.validateCancelOrder(order, avatar, a.tradableId).Some?
  }

  /** The error of the validation fallback: the legacy rule's, and only when the current rule fails too. */
  function ValidationRejection(a: Action, env: Env, order: Order, avatar: Avatar): (r: Option<ErrorKind>)
    ensures r.Some? <==> env.validateCancelOrder(order, avatar, a.tradableId).Some? && env.validateCancelOrder2(order, avatar, a.tradableId).Some?
  {
    if FromPreviousAction(a, env, order, avatar) then env.validateCancelOrder2(order, avatar, a.tradableId) else None
  }

  /** The error a real execution fails with, or `None` when it succeeds. */
  function Rejection(a: Action, ctx: Context, env: Env, s: Snapshot): Option<ErrorKind>
  {
    match LoadAvatarV2(s, ctx.signer, a.sellerAvatarAddress)
    case None => Some(FailedLoadState)
    case Some(avatar) =>
      if !IsStageCleared(avatar.worldInformation, env.shopStage) then Some(NotEnoughClearedStageLevel)
      else match ShopAt(s, ShardAddress(a))
      case None => Some(FailedLoadState)
      case Some(shop) =>
        match OrderAt(s, OrderAddress(a.orderId))
        case None => Some(FailedLoadState)
        case Some(order) =>
          if ValidationRejection(a, env, order, avatar).Some? then ValidationRejection(a, env, order, avatar)
          else CancelRejection(a, ctx, env, s, avatar, shop, order)
  }

  /**
   * The error after validation: the cancellation's own, then the shop removal's
   * (only while the order is listed), then a digest list that does not load.
   */
  function CancelRejection(a: Action, ctx: Context, env: Env, s: Snapshot, seller: Avatar, shop: ShardedShop, order: Order)
    : (r: Option<ErrorKind>)
    ensures CancelOutcome(a, ctx, env, order, seller).Failure? ==> r == Some(CancelOutcome(a, ctx, env, order, seller).error)
    ensures (CancelOutcome(a, ctx, env, order, seller).Success? && Listed(ctx, order) &&
             env.removeFromShop(shop, order, ctx.blockIndex).Failure?)
      ==> r == Some(env.removeFromShop(shop, order, ctx.blockIndex).error)
    ensures r.None? <==>
      && CancelOutcome(a, ctx, env, order, seller).Success?
      && (Listed(ctx, order) ==> env.removeFromShop(shop, order, ctx.blockIndex).Success?)
      && DigestListAt(s, DigestListAddress(a.sellerAvatarAddress)).Some?
    ensures r.Some? && r.value != FailedLoadState ==>
      CancelOutcome(a, ctx, env, order, seller).Failure? || env.removeFromShop(shop, order, ctx.blockIndex).Failure?
  {
    var outcome := CancelOutcome(a, ctx, env, order, seller);
    if outcome.Failure? then Some(outcome.error)
    else
      var unlisted := Unlisted(a, ctx, env, s, shop, order);
      if unlisted.Failure? then Some(unlisted.error)
      else
        UnlistedKeepsDigests(a, ctx, env, s, shop, order);
        if DigestListAt(unlisted.value, DigestListAddress(a.sellerAvatarAddress)).None? then Some(FailedLoadState)
        else None
  }

  // ---------------------------------------------------------------- effect of a success

  /** The avatar and the item `Cancel` or `Cancel2` gives back, or the error it throws. */
  function CancelOutcome(a: Action, ctx: Context, env: Env, order: Order, avatar: Avatar): Result<(Avatar, TradableItem), ErrorKind>
  {
    if FromPreviousAction(a, env, order, avatar) then env.cancel2(order, avatar, ctx.blockIndex)
    else env.cancel(order, avatar, ctx.blockIndex)
  }

  /** The order is still listed: only then is the shop shard changed and written. */
  predicate Listed(ctx: Context, order: Order)
  {
    ctx.blockIndex < order.expiredBlockIndex
  }

  /** The addresses a successful execution writes. */
  function Written(a: Action, ctx: Context, order: Order): set<Address>
  {
    var seller := a.sellerAvatarAddress;
    {ItemAddress(a.tradableId), DigestListAddress(seller), InventoryAddress(seller), WorldInformationAddress(seller),
     QuestListAddress(seller), seller} + (if Listed(ctx, order) then {ShardAddress(a)} else {})
  }

  /** The shop shard, the digest list and the tradable item after a successful execution. */
  ghost predicate ShopUpdated(a: Action, ctx: Context, env: Env, s: Snapshot, s': Snapshot)
  {
    Loaded(a, ctx, s).Some? &&
    var (avatar, shop, order, digests) := Loaded(a, ctx, s).value;
    && CancelOutcome(a, ctx, env, order, avatar).Success?
    && (Listed(ctx, order) ==> env.removeFromShop(shop, order, ctx.blockIndex).Success?)
    && ShopAt(s', ShardAddress(a)) == Some(if Listed(ctx, order) then env.removeFromShop(shop, order, ctx.blockIndex).value else shop)
    && DigestListAt(s', DigestListAddress(a.sellerAvatarAddress)) == Some(RemoveDigest(digests, order.orderId))
    && (a.sellerAvatarAddress != ItemAddress(a.tradableId) ==>
          TradableAt(s', ItemAddress(a.tradableId)) == Some(CancelOutcome(a, ctx, env, order, avatar).value.1))
  }

  /** The seller after a successful execution, read back in the split layout. */
  ghost predicate SellerUpdated(a: Action, ctx: Context, env: Env, s: Snapshot, s': Snapshot)
  {
    Loaded(a, ctx, s).Some? &&
    var (avatar, _, order, _) := Loaded(a, ctx, s).value;
    && CancelOutcome(a, ctx, env, order, avatar).Success?
    && AvatarV2At(s', a.sellerAvatarAddress) == Some(CancelledAvatar(a, ctx, CancelOutcome(a, ctx, env, order, avatar).value.0))
  }

  /** Exactly the written addresses change; balances do not. */
  ghost predicate OnlyWritten(a: Action, ctx: Context, s: Snapshot, s': Snapshot)
  {
    Loaded(a, ctx, s).Some? &&
    var order := Loaded(a, ctx, s).value.2;
    && s'.balances == s.balances && s'.updatedBalances == s.updatedBalances
    && s'.updatedAddresses == s.updatedAddresses + Written(a, ctx, order)
    && forall x :: x !in Written(a, ctx, order) ==> GetState(s', x) == GetState(s, x)
  }

  // ---------------------------------------------------------------- properties

  /** A real execution writes no more than its rehearsal declared. */
  lemma WithinRehearsal(a: Action, ctx: Context, s: Snapshot, s': Snapshot)
    requires OnlyWritten(a, ctx, s, s')
    ensures s'.updatedAddresses <= Rehearsal(a, s).updatedAddresses
    ensures s'.updatedBalances == Rehearsal(a, s).updatedBalances
  {
  }

  /** An expired order leaves the shop shard as it was. */
  lemma ExpiredOrderLeavesShop(a: Action, ctx: Context, env: Env, s: Snapshot, s': Snapshot)
    requires ShopUpdated(a, ctx, env, s, s')
    requires !Listed(ctx, Loaded(a, ctx, s).value.2)
    ensures ShopAt(s', ShardAddress(a)) == ShopAt(s, ShardAddress(a))
  {
  }

  /** After the cancellation no digest of the order is left. */
  lemma DigestGone(a: Action, ctx: Context, env: Env, s: Snapshot, s': Snapshot)
    requires ShopUpdated(a, ctx, env, s, s')
    ensures forall d :: d in DigestListAt(s', DigestListAddress(a.sellerAvatarAddress)).value.digests ==>
      d.orderId != Loaded(a, ctx, s).value.2.orderId
  {
  }

  /** The seller's mailbox loses at most one mail, an expiration mail for the order, and gains the cancel mail. */
  lemma MailboxChange(a: Action, ctx: Context, avatar: Avatar)
    ensures var before := avatar.mailBox;
      var after := CancelledAvatar(a, ctx, avatar).mailBox;
      && after[|after| - 1] == CancelOrderMail(a.orderId, ctx.blockIndex, ctx.blockIndex, a.orderId)
      && (|after| == |before| + 1 || |after| == |before|)
      && forall m :: m in before && !IsExpirationOf(m, a.orderId) ==> m in after
  {
    RemoveExpirationMailKeepsOthers(avatar.mailBox, a.orderId);
  }

  // ---------------------------------------------------------------- execution

  /** `Execute`: rehearsal, or the guards followed by the cancellation. */
  method Execute(a: Action, ctx: Context, env: Env, s: Snapshot) returns (r: Result<Snapshot, ErrorKind>)
    ensures ctx.rehearsal ==> r == Success(Rehearsal(a, s))
    ensures !ctx.rehearsal ==> (r.Failure? <==> Rejection(a, ctx, env, s).Some?)
    ensures !ctx.rehearsal && r.Failure? ==> r.error == Rejection(a, ctx, env, s).value
    ensures !ctx.rehearsal && r.Success? ==> ShopUpdated(a, ctx, env, s, r.value) && SellerUpdated(a, ctx, env, s, r.value)
    ensures !ctx.rehearsal && r.Success? ==> OnlyWritten(a, ctx, s, r.value)
  {
    if ctx.rehearsal {
      return Success(Rehearsal(a, s));
    }
    var loaded := LoadAvatarV2(s, ctx.signer, a.sellerAvatarAddress);
    if loaded.None? {
      return Failure(FailedLoadState);
    }
    var avatar := loaded.value;
    if !IsStageCleared(avatar.worldInformation, env.shopStage) {
      return Failure(NotEnoughClearedStageLevel);
    }
    var shop := ShopAt(s, ShardAddress(a));
    if shop.None? {
      return Failure(FailedLoadState);
    }
    var orderState := OrderAt(s, OrderAddress(a.orderId));
    if orderState.None? {
      return Failure(FailedLoadState);
    }
    var order := orderState.value;
    var fromPreviousAction := false;
    var invalid := env.validateCancelOrder(order, avatar, a.tradableId);
    if invalid.Some? {
      invalid := env.validateCancelOrder2(order, avatar, a.tradableId);
      if invalid.Some? {
        return Failure(invalid.value);
      }
      fromPreviousAction := true;
    }
    r := Cancel(a, ctx, env, s, avatar, shop.value, order, fromPreviousAction);
  }

  /** The part of `Execute` after validation: cancel, unlist, drop the digest, update the mailbox, write back. */
  method Cancel(a: Action, ctx: Context, env: Env, s: Snapshot, seller: Avatar, shop: ShardedShop, order: Order, fromPreviousAction: bool)
    returns (r: Result<Snapshot, ErrorKind>)
    requires LoadAvatarV2(s, ctx.signer, a.sellerAvatarAddress) == Some(seller)
    requires ShopAt(s, ShardAddress(a)) == Some(shop) && OrderAt(s, OrderAddress(a.orderId)) == Some(order)
    requires fromPreviousAction == FromPreviousAction(a, env, order, seller)
    ensures r.Failure? <==> CancelRejection(a, ctx, env, s, seller, shop, order).Some?
    ensures r.Failure? ==> r.error == CancelRejection(a, ctx, env, s, seller, shop, order).value
    ensures r.Success? ==> ShopUpdated(a, ctx, env, s, r.value) && SellerUpdated(a, ctx, env, s, r.value)
    ensures r.Success? ==> OnlyWritten(a, ctx, s, r.value)
  {
    var states := s;
    var cancelled := if fromPreviousAction then env.cancel2(order, seller, ctx.blockIndex) else env.cancel(order, seller, ctx.blockIndex);
    if cancelled.Failure? {
      return Failure(cancelled.error);
    }
    var avatar := cancelled.value.0;
    var sellItem := cancelled.value.1;
    if ctx.blockIndex < order.expiredBlockIndex {
      var shardedShop := env.removeFromShop(shop, order, ctx.blockIndex);
      if shardedShop.Failure? {
        return Failure(shardedShop.error);
      }
      states := SetState(states, ShardAddress(a), ShopValue(shardedShop.value));
    }
    assert Unlisted(a, ctx, env, s, shop, order) == Success(states);
    UnlistedKeepsDigests(a, ctx, env, s, shop, order);
    var rawList := DigestListAt(states, DigestListAddress(a.sellerAvatarAddress));
    if rawList.None? {
      return Failure(FailedLoadState);
    }
    var digestList := RemoveDigest(rawList.value, order.orderId);
    var expiration := ExpirationMailIndex(avatar.mailBox, a.orderId);
    if expiration < |avatar.mailBox| {
      avatar := avatar.(mailBox := avatar.mailBox[..expiration] + avatar.mailBox[expiration + 1..]);
    }
    avatar := AddMail(avatar, CancelOrderMail(a.orderId, ctx.blockIndex, ctx.blockIndex, a.orderId));
    avatar := avatar.(updatedAt := ctx.blockIndex, blockIndex := ctx.blockIndex);
    assert avatar == CancelledAvatar(a, ctx, cancelled.value.0);
    assert Loaded(a, ctx, s) == Some((seller, shop, order, rawList.value));
    assert Cancellable(a, ctx, env, s);
    FinalShop(a, ctx, env, s);
    FinalSeller(a, ctx, env, s);
    FinalFrame(a, ctx, env, s);
    r := Success(Stored(a, states, sellItem, digestList, avatar));
    assert r.value == Final(a, ctx, env, s);
  }

  /** The state after the shop shard write, which happens only while the order is listed; the removal's error otherwise. */
  function Unlisted(a: Action, ctx: Context, env: Env, s: Snapshot, shop: ShardedShop, order: Order): Result<Snapshot, ErrorKind>
  {
    if !Listed(ctx, order) then Success(s)
    else match env.removeFromShop(shop, order, ctx.blockIndex)
      case Failure(e) => Failure(e)
      case Success(reduced) => Success(SetState(s, ShardAddress(a), ShopValue(reduced)))
  }

  /** The shop write does not touch the digest list, and marks the shard when it happens. */
  lemma UnlistedKeepsDigests(a: Action, ctx: Context, env: Env, s: Snapshot, shop: ShardedShop, order: Order)
    ensures Unlisted(a, ctx, env, s, shop, order).Success? <==>
      !Listed(ctx, order) || env.removeFromShop(shop, order, ctx.blockIndex).Success?
    ensures Unlisted(a, ctx, env, s, shop, order).Success? ==>
      DigestListAt(Unlisted(a, ctx, env, s, shop, order).value, DigestListAddress(a.sellerAvatarAddress)) ==
      DigestListAt(s, DigestListAddress(a.sellerAvatarAddress))
    ensures Unlisted(a, ctx, env, s, shop, order).Success? ==>
      ShopAt(Unlisted(a, ctx, env, s, shop, order).value, ShardAddress(a)) ==
      if Listed(ctx, order) then Some(env.removeFromShop(shop, order, ctx.blockIndex).value) else ShopAt(s, ShardAddress(a))
  {
  }

  /** The final writes, in the order the action makes them. */
  function Stored(a: Action, states: Snapshot, item: TradableItem, digests: OrderDigestList, avatar: Avatar): Snapshot
  {
    var seller := a.sellerAvatarAddress;
    var s1 := SetState(states, ItemAddress(a.tradableId), TradableValue(item));
    var s2 := SetState(s1, DigestListAddress(seller), DigestListValue(digests));
    SetAvatarV2(s2, seller, avatar)
  }

  /** Everything loads, the cancellation succeeds and so does the shop removal. */
  predicate Cancellable(a: Action, ctx: Context, env: Env, s: Snapshot)
  {
    Loaded(a, ctx, s).Some? &&
    var (avatar, shop, order, _) := Loaded(a, ctx, s).value;
    CancelOutcome(a, ctx, env, order, avatar).Success? && Unlisted(a, ctx, env, s, shop, order).Success?
  }

  /** The state a successful execution leaves. */
  function Final(a: Action, ctx: Context, env: Env, s: Snapshot): Snapshot
    requires Cancellable(a, ctx, env, s)
  {
    var (avatar, shop, order, digests) := Loaded(a, ctx, s).value;
    var (cancelledAvatar, item) := CancelOutcome(a, ctx, env, order, avatar).value;
    Stored(a, Unlisted(a, ctx, env, s, shop, order).value, item, RemoveDigest(digests, order.orderId), CancelledAvatar(a, ctx, cancelledAvatar))
  }

  /** The final writes can be read back; the shop shard is left as `states` had it. */
  lemma StoredReadsBack(a: Action, states: Snapshot, item: TradableItem, digests: OrderDigestList, avatar: Avatar)
    ensures AvatarV2At(Stored(a, states, item, digests, avatar), a.sellerAvatarAddress) == Some(avatar)
    ensures DigestListAt(Stored(a, states, item, digests, avatar), DigestListAddress(a.sellerAvatarAddress)) == Some(digests)
    ensures a.sellerAvatarAddress != ItemAddress(a.tradableId) ==>
      TradableAt(Stored(a, states, item, digests, avatar), ItemAddress(a.tradableId)) == Some(item)
    ensures a.sellerAvatarAddress != ShardAddress(a) ==>
      ShopAt(Stored(a, states, item, digests, avatar), ShardAddress(a)) == ShopAt(states, ShardAddress(a))
  {
    DerivedDiffersFromParent(a.sellerAvatarAddress, OrderDigestListKey);
  }

  lemma FinalShop(a: Action, ctx: Context, env: Env, s: Snapshot)
    requires Cancellable(a, ctx, env, s)
    ensures ShopUpdated(a, ctx, env, s, Final(a, ctx, env, s))
  {
    var (avatar, shop, order, digests) := Loaded(a, ctx, s).value;
    var (cancelledAvatar, item) := CancelOutcome(a, ctx, env, order, avatar).value;
    UnlistedKeepsDigests(a, ctx, env, s, shop, order);
    StoredReadsBack(a, Unlisted(a, ctx, env, s, shop, order).value, item, RemoveDigest(digests, order.orderId), CancelledAvatar(a, ctx, cancelledAvatar));
  }

  lemma FinalSeller(a: Action, ctx: Context, env: Env, s: Snapshot)
    requires Cancellable(a, ctx, env, s)
    ensures SellerUpdated(a, ctx, env, s, Final(a, ctx, env, s))
  {
    var (avatar, shop, order, digests) := Loaded(a, ctx, s).value;
    var (cancelledAvatar, item) := CancelOutcome(a, ctx, env, order, avatar).value;
    StoredReadsBack(a, Unlisted(a, ctx, env, s, shop, order).value, item, RemoveDigest(digests, order.orderId), CancelledAvatar(a, ctx, cancelledAvatar));
  }

  lemma FinalFrame(a: Action, ctx: Context, env: Env, s: Snapshot)
    requires Cancellable(a, ctx, env, s)
    ensures OnlyWritten(a, ctx, s, Final(a, ctx, env, s))
  {
    var (avatar, shop, order, digests) := Loaded(a, ctx, s).value;
    var (cancelledAvatar, item) := CancelOutcome(a, ctx, env, order, avatar).value;
    var states := Unlisted(a, ctx, env, s, shop, order).value;
    var final := Stored(a, states, item, RemoveDigest(digests, order.orderId), CancelledAvatar(a, ctx, cancelledAvatar));
    StoredFrame(a, states, item, RemoveDigest(digests, order.orderId), CancelledAvatar(a, ctx, cancelledAvatar));
    assert final == Final(a, ctx, env, s);
    var w := Written(a, ctx, order);
    assert final.updatedAddresses == s.updatedAddresses + w;
    forall x | x !in w
      ensures GetState(final, x) == GetState(s, x)
    {
      assert GetState(final, x) == GetState(states, x);
    }
  }
  /** The final writes mark the six addresses and change nothing else. */
  lemma StoredFrame(a: Action, states: Snapshot, item: TradableItem, digests: OrderDigestList, avatar: Avatar)
    ensures var r := Stored(a, states, item, digests, avatar);
      var seller := a.sellerAvatarAddress;
      var w := {ItemAddress(a.tradableId), DigestListAddress(seller), InventoryAddress(seller), WorldInformationAddress(seller),
                QuestListAddress(seller), seller};
      && r.balances == states.balances && r.updatedBalances == states.updatedBalances
      && r.updatedAddresses == states.updatedAddresses + w
      && forall x :: x !in w ==> GetState(r, x) == GetState(states, x)
  {
  }
}
