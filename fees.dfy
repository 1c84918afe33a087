/** The fees slice and its polling hook.  On every tick with an account
    bound, the raw `address -> amount` map returned by the dividends
    contract is turned into `address -> CurrencyAmount`, and that map
    replaces the stored one. */
module Fees {
  import opened JsValues

  /** `CurrencyAmount.fromRawAmount(currency, raw)`, kept uninterpreted.
      `currency` is `None` when the address is not a supported token. */
  datatype Amount<C> = FromRawAmount(currency: Option<C>, raw: string)

  /** `SUPPORTED_TOKENS_MAP_BY_ADDRESS[address]`. */
  function TokenAt<C>(tokens: map<string, C>, address: string): (r: Option<C>)
    ensures r.Some? <==> address in tokens
    ensures r.Some? ==> r.value == tokens[address]
  {
    if address in tokens then Some(tokens[address]) else None
  }

  /** The entry the reduce stores for `address`. */
  function FeeEntry<C>(data: map<string, string>, tokens: map<string, C>, address: string): (e: Amount<C>)
    requires address in data
    ensures e.raw == data[address]
    ensures e.currency.Some? <==> address in tokens
    ensures address in tokens ==> e.currency == Some(tokens[address])
  {
    FromRawAmount(TokenAt(tokens, address), data[address])
  }

  /** The map the reduce builds: one entry per key of the raw data. */
  function BuildFees<C>(data: map<string, string>, tokens: map<string, C>): (fees: map<string, Amount<C>>)
    ensures fees.Keys == data.Keys
    ensures forall address :: address in fees ==> fees[address] == FeeEntry(data, tokens, address)
  {
    map address | address in data :: FeeEntry(data, tokens, address)
  }

  /** The `Object.keys(data).reduce(...)` of the polling callback: an
      accumulator filled in place, one key at a time. */
  method ReduceFees<C>(data: map<string, string>, tokens: map<string, C>) returns (fees: map<string, Amount<C>>)
    ensures fees.Keys == data.Keys
    ensures forall address :: address in fees ==> fees[address] == FromRawAmount(TokenAt(tokens, address), data[address])
    ensures fees == BuildFees(data, tokens)
  {
    fees := map[];
    var remaining := data.Keys;
    while remaining != {}
      invariant remaining <= data.Keys
      invariant fees.Keys == data.Keys - remaining
      invariant forall address :: address in fees ==> fees[address] == FeeEntry(data, tokens, address)
      decreases remaining
    {
      var address :| address in remaining;
      fees := fees[address := FromRawAmount(TokenAt(tokens, address), data[address])];
      remaining := remaining - {address};
    }
  }

  /** One tick of the polling callback on the stored map: without an
      account nothing changes; with one the stored map is replaced. */
  function Tick<C>(fees: map<string, Amount<C>>, account: Option<string>,
                   data: map<string, string>, tokens: map<string, C>): (next: map<string, Amount<C>>)
    ensures !AccountBound(account) ==> next == fees
    ensures AccountBound(account) ==> next.Keys == data.Keys
    ensures AccountBound(account) ==> next == BuildFees(data, tokens)
  {
    if AccountBound(account) then BuildFees(data, tokens) else fees
  }

  /** `setFees` replaces the map: after a tick with an account, nothing of
      the previous fees survives, not even entries for addresses the new
      data does not mention. */
  lemma TickReplaces<C>(fees: map<string, Amount<C>>, fees': map<string, Amount<C>>, account: string,
                        data: map<string, string>, tokens: map<string, C>)
    requires account != ""
    ensures Tick(fees, Some(account), data, tokens) == Tick(fees', Some(account), data, tokens)
    ensures forall address :: address in fees && address !in data ==>
              address !in Tick(fees, Some(account), data, tokens)
  {
  }

  /** Account `A1` bound and raw data `{ X: "0x10" }`: `fees["X"]` becomes
      the amount for `0x10`; a later tick without an account keeps it. */
  lemma PollScenario<C>(fees: map<string, Amount<C>>, tokens: map<string, C>)
    ensures var after := Tick(fees, Some("A1"), map["X" := "0x10"], tokens);
            after.Keys == {"X"} && after["X"] == FromRawAmount(TokenAt(tokens, "X"), "0x10")
            && Tick(after, None, map["Y" := "0x20"], tokens) == after
  {
  }

  /** The fees slice of the store. */
  class FeesStore<C> {
    var fees: map<string, Amount<C>>

    constructor (fees: map<string, Amount<C>>)
      ensures this.fees == fees
    {
      this.fees := fees;
    }

    /** `useUnclaimedFees`: the stored map itself. */
    function UnclaimedFees(): (r: map<string, Amount<C>>)
      reads this
      ensures r == fees
    {
      fees
    }

    /** One run of the `useFetchUnclaimedDividends` interval callback, with
        the result of `getUnclaimedDividends` given as `data`. */
    method FetchUnclaimedDividends(account: Option<string>, data: map<string, string>, tokens: map<string, C>)
      modifies this
      ensures fees == Tick(old(fees), account, data, tokens)
    {
      if AccountBound(account) {
        var built := ReduceFees(data, tokens);
        fees := built;
      }
    }
  }
}
