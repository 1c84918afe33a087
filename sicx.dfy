/** The sICX token proxy.  Every operation is a `transfer`, so every one
    ends in the write path. */
module Sicx {
  import opened JsValues
  import opened Contracts
  import Baln

  /** `this.address = addresses[this.nid].sicx`. */
  function New(book: AddressBook, nid: nat): (r: Result<Contract>)
    ensures r.Ok? <==> nid in book
    ensures r.Err? ==> r.error == NetworkMissing(nid)
    ensures r.Ok? ==> r.value.nid == nid && r.value.book == book
    ensures r.Ok? && "sicx" in book[nid] ==> r.value.address == Str(book[nid]["sicx"])
    ensures r.Ok? && "sicx" !in book[nid] ==> r.value.address == Undefined
  {
    NewContract(book, nid, "sicx")
  }

  /** `transfer(to, value, data?)`, written out again in this proxy. */
  function Transfer(c: Contract, to: Value, value: Value, data: Value): (p: Payload)
    ensures p.path == WriteCall && p.to == c.address && p.name == "transfer"
    ensures p.params.Keys == {"_to", "_value", "_data"}
    ensures p.params["_to"] == to && p.params["_value"] == ToHex(value)
    ensures Truthy(data) ==> p.params["_data"] == ToHex(data)
    ensures !Truthy(data) ==> p.params["_data"] == data
    ensures DecodeTransfer(p) == Some((to, value, data))
  {
    TransferRoundTrip(c, to, value, data);
    TransferPayload(c, to, value, data)
  }

  /** The sICX proxy builds the same transfer payload as the BALN proxy. */
  lemma TransferMatchesBaln(c: Contract, to: Value, value: Value, data: Value)
    ensures Transfer(c, to, value, data) == Baln.Transfer(c, to, value, data)
  {
  }

  /** `depositAndBorrow(value)`: a transfer to the loans contract carrying
      `{ _asset: '', _amount: 0 }`. */
  function DepositAndBorrow(c: Contract, value: real): (p: Payload)
    requires Constructed(c)
    ensures p.path == WriteCall && p.to == c.address
    ensures DecodeTransfer(p) == Some((Address(c, "loans"), Num(value),
                                      Stringify(Obj([("_asset", Str("")), ("_amount", Num(0.0))]))))
    ensures p.params["_data"] == ToHex(Stringify(Obj([("_asset", Str("")), ("_amount", Num(0.0))])))
    ensures HexLayers(p.params["_value"]) == 1 && HexLayers(p.params["_data"]) == 1
  {
    Transfer(c, Address(c, "loans"), Num(value), Stringify(Obj([("_asset", Str("")), ("_amount", Num(0.0))])))
  }

  /** `swap(value, outputSymbol, minimumReceive)`: a transfer to the DEX
      carrying the serialised `_swap` request. */
  function Swap(c: Contract, value: real, outputSymbol: string, minimumReceive: real): (p: Payload)
    requires Constructed(c)
    ensures p.path == WriteCall && p.to == c.address
    ensures DecodeTransfer(p) == Some((Address(c, "dex"), Num(value), Stringify(SwapData(c, outputSymbol, minimumReceive))))
    ensures p.params["_data"] == ToHex(Stringify(SwapData(c, outputSymbol, minimumReceive)))
    ensures HexLayers(p.params["_value"]) == 1
  {
    Transfer(c, Address(c, "dex"), Num(value), Stringify(SwapData(c, outputSymbol, minimumReceive)))
  }

  /** The output symbol is lower-cased before the lookup. */
  lemma SwapIgnoresCase(c: Contract, value: real, outputSymbol: string, minimumReceive: real)
    requires Constructed(c)
    ensures Swap(c, value, outputSymbol, minimumReceive) == Swap(c, value, Lower(outputSymbol), minimumReceive)
  {
    SwapDataIgnoresCase(c, outputSymbol, minimumReceive);
  }

  /** `swapToICX(value)`: a transfer to the DEX carrying `{ method: '_swap_icx' }`
      and no `params`. */
  function SwapToIcx(c: Contract, value: real): (p: Payload)
    requires Constructed(c)
    ensures p.path == WriteCall && p.to == c.address
    ensures DecodeTransfer(p) == Some((Address(c, "dex"), Num(value), Stringify(Obj([("method", Str("_swap_icx"))]))))
    ensures p.params["_data"] == ToHex(Stringify(Obj([("method", Str("_swap_icx"))])))
    ensures HexLayers(p.params["_value"]) == 1
  {
    Transfer(c, Address(c, "dex"), Num(value), Stringify(Obj([("method", Str("_swap_icx"))])))
  }

  /** `unstake(value)`: a transfer to the staking contract carrying
      `{ method: 'unstake' }`.  The value handed to `transfer` is already
      hex-encoded, so `_value` is hex-encoded twice. */
  function Unstake(c: Contract, value: real): (p: Payload)
    requires Constructed(c)
    ensures p.path == WriteCall && p.to == c.address
    ensures DecodeTransfer(p) == Some((Address(c, "staking"), ToHex(Num(value)), Stringify(Obj([("method", Str("unstake"))]))))
    ensures p.params["_data"] == ToHex(Stringify(Obj([("method", Str("unstake"))])))
    ensures p.params["_value"] == ToHex(ToHex(Num(value))) && HexLayers(p.params["_value"]) == 2
  {
    assert HexLayers(ToHex(Num(value))) == 1;
    Transfer(c, Address(c, "staking"), ToHex(Num(value)), Stringify(Obj([("method", Str("unstake"))])))
  }

  /** Unstaking differs from a plain transfer of the same amount to the
      same contract with the same data only in the extra hex layer. */
  lemma UnstakeIsNotPlainTransfer(c: Contract, value: real)
    requires Constructed(c)
    ensures var u := Unstake(c, value);
            var plain := Transfer(c, Address(c, "staking"), Num(value), Stringify(Obj([("method", Str("unstake"))])));
            && u.path == plain.path && u.to == plain.to && u.name == plain.name
            && u.params.Keys == plain.params.Keys
            && u.params["_to"] == plain.params["_to"] && u.params["_data"] == plain.params["_data"]
            && u.params["_value"] == ToHex(plain.params["_value"])
            && u != plain
  {
    var plain := Transfer(c, Address(c, "staking"), Num(value), Stringify(Obj([("method", Str("unstake"))])));
    assert HexLayers(plain.params["_value"]) == 1;
  }
}
