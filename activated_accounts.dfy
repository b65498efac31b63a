/**
 * `ActivatedAccountsState`: the set of activated accounts, kept at the fixed
 * address `Addresses.ActivatedAccount`. `AddAccount` returns a new state and
 * leaves the receiver alone; `Remove` changes the receiver in place.
 */
module ActivatedAccounts {
  import opened Wrappers
  import opened Base
  import opened PlainValues

  /** Each address serialised, in order. */
  function EncodeAddresses(xs: seq<Address>): (r: seq<PlainValue>)
    ensures |r| == |xs|
    ensures forall i :: 0 <= i < |xs| ==> r[i] == PAddress(xs[i])
  {
    if xs == [] then [] else [PAddress(xs[0])] + EncodeAddresses(xs[1..])
  }

  /** `ToList(a => a.ToAddress())`: every element must be an address. */
  function DecodeAddresses(items: seq<PlainValue>, key: string): (r: Result<seq<Address>, DecodeError>)
    ensures r.Success? <==> forall i :: 0 <= i < |items| ==> items[i].PAddress?
    ensures r.Success? ==> |r.value| == |items| && forall i :: 0 <= i < |items| ==> items[i] == PAddress(r.value[i])
    ensures r.Failure? ==> r.error == WrongType(key)
  {
    if items == [] then Success([])
    else match items[0]
      case PAddress(a) =>
        (match DecodeAddresses(items[1..], key)
         case Success(rest) => Success([a] + rest)
         case Failure(e) => Failure(e))
      case _ => Failure(WrongType(key))
  }

  /** Decoding an encoded address list gives the list back. */
  lemma {:induction false} DecodeEncodeAddresses(xs: seq<Address>, key: string)
    ensures DecodeAddresses(EncodeAddresses(xs), key) == Success(xs)
  {
    if xs != [] {
      assert EncodeAddresses(xs)[1..] == EncodeAddresses(xs[1..]);
      DecodeEncodeAddresses(xs[1..], key);
      assert [xs[0]] + xs[1..] == xs;
    }
  }

  /** The serialised form: an address list under `accounts`, joined with the base state's `address`. */
  function Encoded(address: Address, accounts: seq<Address>): Dict
  {
    map["accounts" := PList(EncodeAddresses(accounts)), "address" := PAddress(address)]
  }

  /**
   * The deserialising constructor: the base state's address first, then the
   * account list, whose elements must all be addresses; duplicates collapse.
   */
  function Decode(d: Dict): (r: Result<(Address, set<Address>), DecodeError>)
    ensures r.Success? <==>
      && HasAddress(d, "address") && "accounts" in d && d["accounts"].PList?
      && forall i :: 0 <= i < |d["accounts"].items| ==> d["accounts"].items[i].PAddress?
    ensures "address" !in d ==> r == Failure(KeyNotFound("address"))
    ensures "address" in d && !d["address"].PAddress? ==> r == Failure(WrongType("address"))
    ensures HasAddress(d, "address") && "accounts" in d && r.Failure? ==> r == Failure(WrongType("accounts"))
    ensures "address" in d && d["address"].PAddress? && "accounts" !in d ==> r == Failure(KeyNotFound("accounts"))
    ensures r.Success? ==> "address" in d && d["address"] == PAddress(r.value.0) && "accounts" in d && d["accounts"].PList?
    ensures r.Success? ==> forall x :: x in r.value.1 <==> PAddress(x) in d["accounts"].items
  {
    match GetAddress(d, "address")
    case Failure(e) => Failure(e)
    case Success(address) =>
      if "accounts" !in d then Failure(KeyNotFound("accounts"))
      else match d["accounts"]
        case PList(items) =>
          (match DecodeAddresses(items, "accounts")
           case Success(xs) =>
             assert forall x :: PAddress(x) in items ==> x in xs by {
               forall x | PAddress(x) in items ensures x in xs {
                 var i :| 0 <= i < |items| && items[i] == PAddress(x);
                 assert xs[i] == x;
               }
             }
             Success((address, set x | x in xs))
           case Failure(e) => Failure(e))
        case _ => Failure(WrongType("accounts"))
  }

  /** Decoding a serialised list recovers the address and the set of its elements. */
  lemma DecodeEncoded(address: Address, accounts: seq<Address>)
    ensures Decode(Encoded(address, accounts)) == Success((address, set x | x in accounts))
  {
    DecodeEncodeAddresses(accounts, "accounts");
  }

  class ActivatedAccountsState {
    /** The state's address; every state built here, but not every decoded one, uses `ActivatedAccount`. */
    const address: Address
    var accounts: set<Address>

    /** The empty state. */
    constructor ()
      ensures address == ActivatedAccount && accounts == {}
    {
      address := ActivatedAccount;
      accounts := {};
    }

    /** A state holding `accounts`. */
    constructor FromAccounts(accounts: set<Address>)
      ensures address == ActivatedAccount && this.accounts == accounts
    {
      address := ActivatedAccount;
      this.accounts := accounts;
    }

    /** A state as decoded: the address is the one the dictionary holds. */
    constructor Restore(address: Address, accounts: set<Address>)
      ensures this.address == address && this.accounts == accounts
    {
      this.address := address;
      this.accounts := accounts;
    }

    /** A new state with `account` added; adding an account already present changes nothing. */
    method AddAccount(account: Address) returns (r: ActivatedAccountsState)
      ensures fresh(r)
      ensures r.address == ActivatedAccount
      ensures r.accounts == accounts + {account}
      ensures account in accounts ==> r.accounts == accounts
    {
      r := new ActivatedAccountsState.FromAccounts(accounts + {account});
    }

    /** Drops `account` in place; removing an absent account changes nothing. */
    method Remove(account: Address)
      modifies this
      ensures accounts == old(accounts) - {account}
      ensures account !in old(accounts) ==> accounts == old(accounts)
    {
      accounts := accounts - {account};
    }

    /**
     * `Serialize`: the accounts in the set's enumeration order, which is left
     * unspecified, each exactly once; decoding gives the state back.
     */
    method Serialize() returns (d: Dict)
      ensures d.Keys == {"accounts", "address"} && d["accounts"].PList? && |d["accounts"].items| == |accounts|
      ensures Decode(d) == Success((address, accounts))
    {
      var rest := accounts;
      var list: seq<Address> := [];
      while rest != {}
        invariant rest <= accounts
        invariant forall x :: x in accounts <==> x in rest || x in list
        invariant forall i :: 0 <= i < |list| ==> list[i] !in rest
        invariant |list| + |rest| == |accounts|
        decreases |rest|
      {
        var x :| x in rest;
        list := list + [x];
        rest := rest - {x};
      }
      DecodeEncoded(address, list);
      assert (set x | x in list) == accounts;
      d := Encoded(address, list);
    }
  }

  /** `ActivatedAccountsState(Dictionary)`: a fresh state from a serialised one, or the decoding error. */
  method Deserialize(d: Dict) returns (r: Result<ActivatedAccountsState, DecodeError>)
    ensures r.Failure? <==> Decode(d).Failure?
    ensures r.Failure? ==> r.error == Decode(d).error
    ensures r.Success? ==> fresh(r.value) && (r.value.address, r.value.accounts) == Decode(d).value
  {
    var decoded := Decode(d);
    if decoded.Failure? {
      return Failure(decoded.error);
    }
    var state := new ActivatedAccountsState.Restore(decoded.value.0, decoded.value.1);
    r := Success(state);
  }
}
