/** What the BALN and sICX contract proxies share: the address table, the
    contract object fixed at construction, the two call paths and the
    `transfer` payload shape that both proxies build in the same way. */
module Contracts {
  import opened JsValues

  /** `addresses`: network id -> role name (`baln`, `sicx`, `dex`, ...) -> address. */
  type AddressBook = map<nat, map<string, string>>

  /** `addresses[nid]` is `undefined`, so reading a role of it throws a TypeError. */
  datatype LookupError = NetworkMissing(nid: nat)

  datatype Result<+T> = Ok(value: T) | Err(error: LookupError)

  /** The read path (`paramsBuilder` then `call`) or the write path
      (`transactionParamsBuilder` then `callICONPlugins`). */
  datatype Path = ReadCall | WriteCall

  /** What a proxy operation hands to the SDK: the path, the contract
      address it targets, and the `{ method, params }` record given to the
      builder.  `_data: undefined` is a present key whose value is `Undefined`. */
  datatype Payload = Payload(path: Path, to: Value, name: string, params: map<string, Value>)

  /** A constructed proxy: the table it reads, its network id and its own
      address, assigned once by the constructor. */
  datatype Contract = Contract(book: AddressBook, nid: nat, address: Value)

  /** A proxy exists only when its constructor did not throw. */
  predicate Constructed(c: Contract) {
    c.nid in c.book
  }

  /** `addresses[nid][role]`: a TypeError when the network is absent,
      `undefined` when only the role is. */
  function Resolve(book: AddressBook, nid: nat, role: string): (r: Result<Value>)
    ensures r.Err? <==> nid !in book
    ensures r.Err? ==> r.error == NetworkMissing(nid)
    ensures r.Ok? ==> (r.value.Str? <==> role in book[nid])
    ensures r.Ok? && role in book[nid] ==> r.value == Str(book[nid][role])
    ensures r.Ok? && role !in book[nid] ==> r.value == Undefined
  {
    if nid in book then Ok(Prop(book[nid], role)) else Err(NetworkMissing(nid))
  }

  /** With `{ 1: { baln: "cxAAA" } }`: the known role resolves, an unknown
      role reads as `undefined` rather than failing, and an unknown network
      fails. */
  lemma ResolveScenario()
    ensures Resolve(map[1 := map["baln" := "cxAAA"]], 1, "baln") == Ok(Str("cxAAA"))
    ensures Resolve(map[1 := map["baln" := "cxAAA"]], 1, "missing") == Ok(Undefined)
    ensures Resolve(map[1 := map["baln" := "cxAAA"]], 99, "baln") == Err(NetworkMissing(99))
  {
  }

  /** The constructor of a proxy for `role`: `this.address = addresses[this.nid][role]`. */
  function NewContract(book: AddressBook, nid: nat, role: string): (r: Result<Contract>)
    ensures r.Ok? <==> nid in book
    ensures r.Err? ==> r.error == NetworkMissing(nid)
    ensures r.Ok? ==> Constructed(r.value) && r.value.book == book && r.value.nid == nid
    ensures r.Ok? ==> Resolve(book, nid, role) == Ok(r.value.address)
  {
    match Resolve(book, nid, role)
    case Err(e) => Err(e)
    case Ok(a) => Ok(Contract(book, nid, a))
  }

  /** `addresses[this.nid][role]` read from a constructed proxy. */
  function Address(c: Contract, role: string): (r: Value)
    requires Constructed(c)
    ensures Resolve(c.book, c.nid, role) == Ok(r)
  {
    Prop(c.book[c.nid], role)
  }

  /** `this.transactionParamsBuilder({ method, params })` handed to `callICONPlugins`. */
  function Write(c: Contract, name: string, params: map<string, Value>): (p: Payload)
    ensures p.path == WriteCall && p.to == c.address
    ensures p.name == name && p.params == params
  {
    Payload(WriteCall, c.address, name, params)
  }

  /** `this.paramsBuilder({ method, params })` handed to `call`. */
  function Read(c: Contract, name: string, params: map<string, Value>): (p: Payload)
    ensures p.path == ReadCall && p.to == c.address
    ensures p.name == name && p.params == params
  {
    Payload(ReadCall, c.address, name, params)
  }

  /** The `transfer` payload both proxies build:
      `{ _to: to, _value: toHex(value), _data: data && toHex(data) }`. */
  function TransferPayload(c: Contract, to: Value, value: Value, data: Value): (p: Payload)
    ensures p.path == WriteCall && p.to == c.address && p.name == "transfer"
    ensures p.params.Keys == {"_to", "_value", "_data"}
    ensures p.params["_to"] == to && p.params["_value"] == ToHex(value)
    ensures Truthy(data) ==> p.params["_data"] == ToHex(data)
    ensures !Truthy(data) ==> p.params["_data"] == data
  {
    Write(c, "transfer", map["_to" := to, "_value" := ToHex(value), "_data" := And(data, ToHex(data))])
  }

  /** The `_data` field of a transfer, undone: a hex-encoded truthy value, or
      the falsy value passed through. */
  function DecodeData(d: Value): Value {
    if d.ToHex? && Truthy(d.arg) then d.arg else d
  }

  /** Reads back `(to, value, data)` from a write payload of method `transfer`. */
  function DecodeTransfer(p: Payload): Option<(Value, Value, Value)> {
    if p.path == WriteCall && p.name == "transfer"
       && p.params.Keys == {"_to", "_value", "_data"} && p.params["_value"].ToHex?
    then Some((p.params["_to"], p.params["_value"].arg, DecodeData(p.params["_data"])))
    else None
  }

  /** The transfer payload loses nothing: its arguments can be read back,
      whether `data` was hex-encoded or passed through. */
  lemma TransferRoundTrip(c: Contract, to: Value, value: Value, data: Value)
    ensures DecodeTransfer(TransferPayload(c, to, value, data)) == Some((to, value, data))
  {
    var p := TransferPayload(c, to, value, data);
    assert p.params.Keys == {"_to", "_value", "_data"};
    if !Truthy(data) {
      assert !data.ToHex?;
    }
  }

  /** Two transfers build the same payload only from the same arguments. */
  lemma TransferInjective(c: Contract, to: Value, value: Value, data: Value,
                          to': Value, value': Value, data': Value)
    requires TransferPayload(c, to, value, data) == TransferPayload(c, to', value', data')
    ensures to == to' && value == value' && data == data'
  {
    TransferRoundTrip(c, to, value, data);
    TransferRoundTrip(c, to', value', data');
  }

  /** The `_swap` request both proxies serialise:
      `{ method: '_swap', params: { toToken: addresses[nid][lower(symbol)], minimumReceive: m.toFixed() } }`. */
  function SwapData(c: Contract, outputSymbol: string, minimumReceive: real): (d: Value)
    requires Constructed(c)
    ensures d.Obj? && |d.fields| == 2 && d.fields[0] == ("method", Str("_swap"))
    ensures d.fields[1].0 == "params" && d.fields[1].1.Obj? && |d.fields[1].1.fields| == 2
    ensures d.fields[1].1.fields[0].0 == "toToken"
            && Resolve(c.book, c.nid, Lower(outputSymbol)) == Ok(d.fields[1].1.fields[0].1)
    ensures d.fields[1].1.fields[1] == ("minimumReceive", ToFixed(minimumReceive))
  {
    Obj([("method", Str("_swap")),
         ("params", Obj([("toToken", Address(c, Lower(outputSymbol))),
                         ("minimumReceive", ToFixed(minimumReceive))]))])
  }

  /** The swap request names the same token whatever the case of the symbol. */
  lemma SwapDataIgnoresCase(c: Contract, outputSymbol: string, minimumReceive: real)
    requires Constructed(c)
    ensures SwapData(c, outputSymbol, minimumReceive) == SwapData(c, Lower(outputSymbol), minimumReceive)
  {
    LowerIdempotent(outputSymbol);
  }
}
