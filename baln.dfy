/** The BALN token proxy: three write operations (`transfer`, `swap`,
    `stake`) and three read queries. */
module Baln {
  import opened JsValues
  import opened Contracts

  /** `this.address = addresses[this.nid].baln`. */
  function New(book: AddressBook, nid: nat): (r: Result<Contract>)
    ensures r.Ok? <==> nid in book
    ensures r.Err? ==> r.error == NetworkMissing(nid)
    ensures r.Ok? ==> r.value.nid == nid && r.value.book == book
    ensures r.Ok? && "baln" in book[nid] ==> r.value.address == Str(book[nid]["baln"])
    ensures r.Ok? && "baln" !in book[nid] ==> r.value.address == Undefined
  {
    NewContract(book, nid, "baln")
  }

  /** `transfer(to, value, data?)`: a write call whose `_value` is hex-encoded
      once and whose `_data` is hex-encoded only when `data` is truthy. */
  function Transfer(c: Contract, to: Value, value: Value, data: Value): (p: Payload)
    ensures p.path == WriteCall && p.to == c.address && p.name == "transfer"
    ensures p.params.Keys == {"_to", "_value", "_data"}
    ensures p.params["_to"] == to && p.params["_value"] == ToHex(value)
    ensures Truthy(data) ==> p.params["_data"] == ToHex(data)
    ensures !Truthy(data) ==> p.params["_data"] == data
    ensures DecodeTransfer(p) == Some((to, value, data))
  {
    TransferRoundTrip(c, to, value, data);
    TransferPayload(c, to, value, data)
  }

  /** `swap(value, outputSymbol, minimumReceive)`: a transfer of `value` to
      the DEX carrying the serialised `_swap` request. */
  function Swap(c: Contract, value: real, outputSymbol: string, minimumReceive: real): (p: Payload)
    requires Constructed(c)
    ensures p.path == WriteCall && p.to == c.address
    ensures DecodeTransfer(p) == Some((Address(c, "dex"), Num(value), Stringify(SwapData(c, outputSymbol, minimumReceive))))
    ensures p.params["_data"] == ToHex(Stringify(SwapData(c, outputSymbol, minimumReceive)))
    ensures HexLayers(p.params["_value"]) == 1
  {
    Transfer(c, Address(c, "dex"), Num(value), Stringify(SwapData(c, outputSymbol, minimumReceive)))
  }

  /** The output symbol is lower-cased before the lookup, so its case does
      not matter. */
  lemma SwapIgnoresCase(c: Contract, value: real, outputSymbol: string, minimumReceive: real)
    requires Constructed(c)
    ensures Swap(c, value, outputSymbol, minimumReceive) == Swap(c, value, Lower(outputSymbol), minimumReceive)
  {
    SwapDataIgnoresCase(c, outputSymbol, minimumReceive);
  }

  /** `swap(v, "SICX", m)` and `swap(v, "sicx", m)` build one payload. */
  lemma SwapSicxSpellings(c: Contract, value: real, minimumReceive: real)
    requires Constructed(c)
    ensures Swap(c, value, "SICX", minimumReceive) == Swap(c, value, "sicx", minimumReceive)
  {
    assert Lower("SICX") == "sicx";
    SwapIgnoresCase(c, value, "SICX", minimumReceive);
  }

  /** `stake(value)`: a write call with the single parameter `_value`. */
  function Stake(c: Contract, value: real): (p: Payload)
    ensures p.path == WriteCall && p.to == c.address && p.name == "stake"
    ensures p.params.Keys == {"_value"} && "_to" !in p.params && "_data" !in p.params
    ensures p.params["_value"] == ToHex(Num(value))
  {
    Write(c, "stake", map["_value" := ToHex(Num(value))])
  }

  /** `detailsBalanceOf(owner)`: a read call; the owner is passed unchanged. */
  function DetailsBalanceOf(c: Contract, owner: string): (p: Payload)
    ensures p.path == ReadCall && p.to == c.address && p.name == "detailsBalanceOf"
    ensures p.params.Keys == {"_owner"} && p.params["_owner"] == Str(owner)
  {
    Read(c, "detailsBalanceOf", map["_owner" := Str(owner)])
  }

  /** `stakedBalanceOfAt(account, day)`: a read call; the day is hex-encoded,
      the account is not. */
  function StakedBalanceOfAt(c: Contract, account: string, day: int): (p: Payload)
    ensures p.path == ReadCall && p.to == c.address && p.name == "stakedBalanceOfAt"
    ensures p.params.Keys == {"_account", "_day"}
    ensures p.params["_account"] == Str(account) && p.params["_day"] == ToHex(Num(day as real))
  {
    Read(c, "stakedBalanceOfAt", map["_account" := Str(account), "_day" := ToHex(Num(day as real))])
  }

  /** `totalStakedBalanceOfAt(day)`: a read call with the day hex-encoded. */
  function TotalStakedBalanceOfAt(c: Contract, day: int): (p: Payload)
    ensures p.path == ReadCall && p.to == c.address && p.name == "totalStakedBalanceOfAt"
    ensures p.params.Keys == {"_day"} && p.params["_day"] == ToHex(Num(day as real))
  {
    Read(c, "totalStakedBalanceOfAt", map["_day" := ToHex(Num(day as real))])
  }
}
