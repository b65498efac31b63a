/**
 * The self-describing value tree an action's fields are encoded into
 * (`PlainValueInternal`) and decoded from (`LoadPlainValueInternal`). Leaves are
 * typed: a Guid or an address stands for its byte-string encoding.
 */
module PlainValues {
  import opened Wrappers
  import opened Base

  datatype PlainValue =
    | PInt(i: int)
    | PText(text: string)
    | PGuid(guid: Guid)
    | PAddress(address: Address)
    | PList(items: seq<PlainValue>)
    | PDict(entries: map<string, PlainValue>)

  type Dict = map<string, PlainValue>

  /** Why a decoding failed: a required key is absent, a value has the wrong shape, or an integer does not fit. */
  datatype DecodeError =
    | KeyNotFound(key: string)
    | WrongType(key: string)
    | Overflow(key: string)

  /** The entry under `key` is present and is a Guid. */
  predicate HasGuid(d: Dict, key: string)
  {
    key in d && d[key].PGuid?
  }

  /** The entry under `key` is present and is an address. */
  predicate HasAddress(d: Dict, key: string)
  {
    key in d && d[key].PAddress?
  }

  /** The entry under `key` is present and is an integer that fits a C# `int`. */
  predicate HasInt32(d: Dict, key: string)
  {
    key in d && d[key].PInt? && -0x8000_0000 <= d[key].i < 0x8000_0000
  }

  /** The entry under `key` is present and is a list of Guids. */
  predicate HasGuidList(d: Dict, key: string)
  {
    key in d && d[key].PList? && forall i :: 0 <= i < |d[key].items| ==> d[key].items[i].PGuid?
  }

  /** `plainValue[key].ToGuid()`. */
  function GetGuid(d: Dict, key: string): (r: Result<Guid, DecodeError>)
    ensures r.Success? <==> key in d && d[key].PGuid?
    ensures r.Success? ==> d[key] == PGuid(r.value)
    ensures key !in d ==> r == Failure(KeyNotFound(key))
  {
    if key !in d then Failure(KeyNotFound(key))
    else match d[key]
      case PGuid(g) => Success(g)
      case _ => Failure(WrongType(key))
  }

  /** `plainValue[key].ToAddress()`. */
  function GetAddress(d: Dict, key: string): (r: Result<Address, DecodeError>)
    ensures r.Success? <==> key in d && d[key].PAddress?
    ensures r.Success? ==> d[key] == PAddress(r.value)
    ensures key !in d ==> r == Failure(KeyNotFound(key))
  {
    if key !in d then Failure(KeyNotFound(key))
    else match d[key]
      case PAddress(a) => Success(a)
      case _ => Failure(WrongType(key))
  }

  /** An integer narrowed to a C# `int`: a value outside its range overflows. */
  function ToInt32(v: PlainValue, key: string): (r: Result<Int32, DecodeError>)
    ensures r.Success? <==> v.PInt? && -0x8000_0000 <= v.i < 0x8000_0000
    ensures r.Success? ==> v == PInt(r.value)
  {
    match v
    case PInt(i) => if -0x8000_0000 <= i < 0x8000_0000 then Success(i) else Failure(Overflow(key))
    case _ => Failure(WrongType(key))
  }

  /** `plainValue[key].ToInteger()`. */
  function GetInt32(d: Dict, key: string): (r: Result<Int32, DecodeError>)
    ensures r.Success? <==> key in d && d[key].PInt? && -0x8000_0000 <= d[key].i < 0x8000_0000
    ensures r.Success? ==> d[key] == PInt(r.value)
    ensures key !in d ==> r == Failure(KeyNotFound(key))
  {
    if key !in d then Failure(KeyNotFound(key)) else ToInt32(d[key], key)
  }

  /** `plainValue[key].ToBigInteger()`. */
  function GetInteger(d: Dict, key: string): (r: Result<int, DecodeError>)
    ensures r.Success? <==> key in d && d[key].PInt?
    ensures r.Success? ==> d[key] == PInt(r.value)
  {
    if key !in d then Failure(KeyNotFound(key))
    else match d[key]
      case PInt(i) => Success(i)
      case _ => Failure(WrongType(key))
  }

  /** The key `OrderBy(g => g)` sorts Guids by. */
  function GuidKey(g: Guid): int
  {
    g
  }

  /** Each Guid serialised, in order. */
  function EncodeGuids(gs: seq<Guid>): (r: seq<PlainValue>)
    ensures |r| == |gs|
    ensures forall i :: 0 <= i < |gs| ==> r[i] == PGuid(gs[i])
  {
    if gs == [] then [] else [PGuid(gs[0])] + EncodeGuids(gs[1..])
  }

  /** `Select(e => e.ToGuid())` over a list: every element must be a Guid. */
  function DecodeGuids(items: seq<PlainValue>, key: string): (r: Result<seq<Guid>, DecodeError>)
    ensures r.Success? <==> forall i :: 0 <= i < |items| ==> items[i].PGuid?
    ensures r.Success? ==> |r.value| == |items| && forall i :: 0 <= i < |items| ==> items[i] == PGuid(r.value[i])
    ensures r.Success? ==> items == EncodeGuids(r.value)
    ensures r.Failure? ==> r.error == WrongType(key)
  {
    if items == [] then Success([])
    else match items[0]
      case PGuid(g) =>
        (match DecodeGuids(items[1..], key)
         case Success(rest) =>
           assert EncodeGuids([g] + rest)[1..] == EncodeGuids(rest) by {
             assert ([g] + rest)[1..] == rest;
           }
           assert items == [items[0]] + items[1..];
           Success([g] + rest)
         case Failure(e) => Failure(e))
      case _ => Failure(WrongType(key))
  }

  /** Decoding an encoded Guid list gives the list back. */
  lemma {:induction false} DecodeEncodeGuids(gs: seq<Guid>, key: string)
    ensures DecodeGuids(EncodeGuids(gs), key) == Success(gs)
  {
    if gs != [] {
      assert EncodeGuids(gs)[1..] == EncodeGuids(gs[1..]);
      DecodeEncodeGuids(gs[1..], key);
      assert [gs[0]] + gs[1..] == gs;
    }
  }

  /** An entry holding an encoded Guid list is read back as that list. */
  lemma GetEncodedGuidList(d: Dict, key: string, gs: seq<Guid>)
    requires key in d && d[key] == PList(EncodeGuids(gs))
    ensures GetGuidList(d, key) == Success(gs)
  {
    DecodeEncodeGuids(gs, key);
  }

  /** `(List) plainValue[key]` followed by `Select(e => e.ToGuid())`. */
  function GetGuidList(d: Dict, key: string): (r: Result<seq<Guid>, DecodeError>)
    ensures r.Success? <==> HasGuidList(d, key)
    ensures r.Success? ==> key in d && d[key] == PList(EncodeGuids(r.value))
    ensures key !in d ==> r == Failure(KeyNotFound(key))
  {
    if key !in d then Failure(KeyNotFound(key))
    else match d[key]
      case PList(items) => DecodeGuids(items, key)
      case _ => Failure(WrongType(key))
  }
}
