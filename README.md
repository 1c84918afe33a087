# Balanced network interface: contract payloads, collateral and fees slices, pair catalog

A Dafny model of the parts of the Balanced front-end that carry checkable logic:

- **Contract proxies** (`BALN`, `sICX`). Each operation builds one call payload from its
  arguments and the address table (network id -> role -> address), then sends it down the
  read path (`paramsBuilder` + `call`) or the write path (`transactionParamsBuilder` +
  `callICONPlugins`). A payload is modelled as `Contracts.Payload`: the path, the contract
  address, the method name and the params record. `IconConverter.toHex`, `JSON.stringify`
  and `BigNumber.toFixed` are kept uninterpreted. Their applications are free terms
  (`ToHex(v)`, `Stringify(v)`, `ToFixed(n)`). Every equality proved between such terms
  holds for every implementation of those encoders; inequalities and round trips between
  distinct terms do not (see "## Left out"). It also means the number of hex layers around a value
  can be counted (`JsValues.HexLayers`).
- **Collateral slice** (`store/collateral/hooks.ts`). Deposited sICX converted to ICX, the
  total, and the two linked input fields, where the field not typed into holds
  `total - typed`. Amounts are BigNumber decimals, modelled exactly as `real`. The slice is
  a class (`Collateral.CollateralStore`). Its dispatching hooks are methods that record the
  actions they dispatch.
- **Fees slice** (`store/fees/hooks.ts`). The interval callback reduces the raw
  `address -> amount` map into `address -> CurrencyAmount`. It then replaces the stored map,
  but only when an account is bound. `Fees.ReduceFees` is the in-place reduce, proved
  against `Fees.BuildFees`. `Fees.FeesStore` holds the stored map.
- **Pair catalog** (`constants/pairs.ts`). The constant `SUPPORTED_PAIRS_INFO`, with its
  facts proved by computation.

JavaScript details that the model makes explicit:

- Truthiness: `data && toHex(data)` is `JsValues.And`.
- Property reads of a missing key give `undefined`.
- `toLowerCase` before the address lookup.
- The already hex-encoded value that `unstake` passes to `transfer`.

An unknown role is not an error: `addresses[nid][role]` yields `undefined`, and that value
is passed on as the address (`Contracts.Resolve`, `Contracts.ResolveScenario`); only an
unknown network throws (a TypeError from reading a property of `undefined`).

## Model

| member | source | states |
|---|---|---|
| Contracts.Resolve | src/packages/BalancedJs/contracts/BALN.ts:11 | `addresses[nid][role]` fails exactly when the network is absent; otherwise it is the address string when the role is present and `undefined` when it is not |
| Contracts.ResolveScenario | src/packages/BalancedJs/contracts/BALN.ts:11 | with `{1: {baln: "cxAAA"}}`: `(1, baln)` gives `"cxAAA"`, `(1, missing)` gives `undefined`, `(99, baln)` fails with the missing network |
| Contracts.NewContract | src/packages/BalancedJs/contracts/BALN.ts:9-12 | construction succeeds exactly when the network is in the table, and the proxy's address is then the resolved role address, fixed for the proxy's life |
| Contracts.TransferPayload | src/packages/BalancedJs/contracts/BALN.ts:24-31 | a write call `transfer` to the proxy's own address with exactly the keys `_to`, `_value`, `_data`; `_to` as given, `_value` hex-encoded once, `_data` hex-encoded when truthy and passed through unchanged when falsy (the same builder as sICX.ts:35-42) |
| Contracts.TransferRoundTrip | src/packages/BalancedJs/contracts/BALN.ts:23-34 | the transfer payload can be decoded back to `(to, value, data)`, whether `data` was hex-encoded (truthy) or passed through (falsy) |
| Contracts.TransferInjective | src/packages/BalancedJs/contracts/BALN.ts:23-34 | two transfers build the same payload only from the same `to`, `value` and `data` |
| Contracts.SwapData | src/packages/BalancedJs/contracts/BALN.ts:15-18 | the `_swap` request is `{method: '_swap', params: {toToken, minimumReceive}}` in that order, where `toToken` is what `addresses[nid][lower(symbol)]` resolves to and `minimumReceive` is `toFixed` of the minimum (the same literal as sICX.ts:20-23) |
| Contracts.SwapDataIgnoresCase | src/packages/BalancedJs/contracts/BALN.ts:15-18 | the `_swap` request is the same for a symbol and its lower-cased form |
| JsValues.And | src/packages/BalancedJs/contracts/BALN.ts:29 | `a && b` is `b` when `a` is truthy and `a` itself otherwise |
| JsValues.AccountBound | src/store/collateral/hooks.ts:65 | `if (account)`: an account is bound exactly when it is present and not the empty string (the same guard as store/fees/hooks.ts:21) |
| JsValues.Lower | src/packages/BalancedJs/contracts/BALN.ts:17 | lower-casing keeps the length and maps each character through ASCII `toLowerCase` |
| JsValues.LowerIdempotent | src/packages/BalancedJs/contracts/BALN.ts:17 | lower-casing an already lower-cased symbol changes nothing |
| Baln.New | src/packages/BalancedJs/contracts/BALN.ts:9-12 | the BALN proxy exists exactly when the network is known; its address is `addresses[nid].baln`, or `undefined` when that role is absent |
| Baln.Transfer | src/packages/BalancedJs/contracts/BALN.ts:23-34 | a write call `transfer` to the proxy's address with exactly `_to`, `_value`, `_data`; `_value` is hex-encoded once; `_data` is hex-encoded when truthy and passed through otherwise; the arguments decode back |
| Baln.Swap | src/packages/BalancedJs/contracts/BALN.ts:14-21 | a write transfer to `addresses[nid].dex` of `value`, whose data is the serialised `_swap` request, hex-encoded once |
| Baln.SwapIgnoresCase | src/packages/BalancedJs/contracts/BALN.ts:17 | `swap` builds the same payload for an output symbol and its lower-cased form |
| Baln.SwapSicxSpellings | src/packages/BalancedJs/contracts/BALN.ts:17 | `swap(v, "SICX", m)` and `swap(v, "sicx", m)` build the same payload |
| Baln.Stake | src/packages/BalancedJs/contracts/BALN.ts:36-45 | a write call `stake` whose only param is `_value = toHex(value)`; no `_to`, no `_data` |
| Baln.DetailsBalanceOf | src/packages/BalancedJs/contracts/BALN.ts:47-56 | a read call `detailsBalanceOf` whose only param is the owner, unencoded |
| Baln.StakedBalanceOfAt | src/packages/BalancedJs/contracts/BALN.ts:58-68 | a read call with `_account` unencoded and `_day` hex-encoded |
| Baln.TotalStakedBalanceOfAt | src/packages/BalancedJs/contracts/BALN.ts:70-79 | a read call whose only param is the hex-encoded `_day` |
| Sicx.New | src/packages/BalancedJs/contracts/sICX.ts:9-12 | the sICX proxy exists exactly when the network is known; its address is `addresses[nid].sicx`, or `undefined` when that role is absent |
| Sicx.Transfer | src/packages/BalancedJs/contracts/sICX.ts:34-45 | the same write `transfer` payload shape as BALN's: `_value` hex-encoded once, `_data` hex-encoded only when truthy, arguments decodable |
| Sicx.TransferMatchesBaln | src/packages/BalancedJs/contracts/sICX.ts:34-45 | the sICX and BALN proxies build identical transfer payloads from identical arguments |
| Sicx.DepositAndBorrow | src/packages/BalancedJs/contracts/sICX.ts:14-17 | a write transfer to `addresses[nid].loans` carrying `{_asset: '', _amount: 0}`, value and data each hex-encoded once |
| Sicx.Swap | src/packages/BalancedJs/contracts/sICX.ts:19-26 | a write transfer to `addresses[nid].dex` carrying the `_swap` request built from the lower-cased symbol and `minimumReceive.toFixed()` |
| Sicx.SwapIgnoresCase | src/packages/BalancedJs/contracts/sICX.ts:22 | the sICX swap payload does not depend on the case of the output symbol |
| Sicx.SwapToIcx | src/packages/BalancedJs/contracts/sICX.ts:28-32 | a write transfer to `addresses[nid].dex` of `value` hex-encoded once, whose `_data` is `toHex(JSON.stringify({method: '_swap_icx'}))`, with no params |
| Sicx.Unstake | src/packages/BalancedJs/contracts/sICX.ts:47-53 | a write transfer to `addresses[nid].staking` whose `_data` is `toHex(JSON.stringify({method: 'unstake'}))` and whose `_value` is `toHex(toHex(value))`, two hex layers |
| Sicx.UnstakeIsNotPlainTransfer | src/packages/BalancedJs/contracts/sICX.ts:47-53 | against a plain transfer of the same value to the same contract with the same data, the unstake payload has the same path, target, method, keys, `_to` and `_data`, and a `_value` wrapped in one more hex layer, so the two differ |
| Collateral.TypedAmount | src/store/collateral/hooks.ts:140-141 | `typedValue \|\| '0'`: zero when nothing is typed, the typed amount otherwise |
| Collateral.DependentField | src/store/collateral/hooks.ts:134 | the dependent field is never the independent one, so it is the other of LEFT and RIGHT |
| Collateral.DepositedAmountInICX | src/store/collateral/hooks.ts:111-119 | the source formula: deposited sICX times the sICX/ICX ratio (no contract of its own; its properties are stated through `FieldsSumToTotal` and `CollateralStore.Total`) |
| Collateral.TotalICXAmount | src/store/collateral/hooks.ts:121-130 | the source formula: the deposited amount in ICX plus the available balance (no contract of its own; stated through `FieldsSumToTotal` and `CollateralStore.Total`) |
| Collateral.ParsedAmounts | src/store/collateral/hooks.ts:139-142 | both fields are present; the independent field holds the typed amount (0 when empty); the dependent field holds total minus that; LEFT + RIGHT = total |
| Collateral.CollateralInputAmount | src/store/collateral/hooks.ts:132-145 | the LEFT entry: the typed amount when LEFT is independent, total minus the typed amount when RIGHT is |
| Collateral.FieldsSumToTotal | src/store/collateral/hooks.ts:139-142 | the two fields add up to deposited * ratio + balance whichever field was typed into |
| Collateral.CollateralInputAmountInUSD | src/store/collateral/hooks.ts:147-154 | the input amount times the ICX/USD ratio, in both field cases |
| Collateral.AdjustAction | src/store/collateral/hooks.ts:91-104 | `adjust` is chosen exactly when `isAdjust` holds and `cancel` exactly when it does not |
| Collateral.StakedICXValue | src/store/collateral/hooks.ts:52-54 | zero when the position result has no `assets`, otherwise the converted sICX amount |
| Collateral.CollateralStore.Total | src/store/collateral/hooks.ts:121-130 | the total read off the slice is deposited * ratio + balance |
| Collateral.CollateralStore.InputAmount | src/store/collateral/hooks.ts:132-145 | the input amount read off the slice is the typed amount or the rest of the slice's total |
| Collateral.CollateralStore.DispatchDepositedAmount | src/store/collateral/hooks.ts:14-23 | replaces the deposited amount, dispatches one `changeDepositedAmount`, leaves the rest of the slice unchanged |
| Collateral.CollateralStore.DispatchBalance | src/store/collateral/hooks.ts:25-34 | replaces the balance, dispatches one `changeBalance`, leaves the rest of the slice unchanged |
| Collateral.CollateralStore.CollateralAdjust | src/store/collateral/hooks.ts:91-104 | dispatches exactly one action, `adjust` or `cancel`, according to `isAdjust` |
| Collateral.CollateralStore.FetchCollateralInfo | src/store/collateral/hooks.ts:41-69 | without an account nothing is dispatched and nothing changes; with one, the deposited amount (0 without assets) and then the converted balance are dispatched and stored |
| Fees.TokenAt | src/store/fees/hooks.ts:24 | `SUPPORTED_TOKENS_MAP_BY_ADDRESS[address]`: a token exactly when the address is in the map, and then the mapped token |
| Fees.FeeEntry | src/store/fees/hooks.ts:24-25 | the entry stored for an address carries the raw amount of that address and its token, which is present exactly when the address is a supported token |
| Fees.BuildFees | src/store/fees/hooks.ts:23-27 | the fees map has exactly the raw data's keys, each mapped to `fromRawAmount(token at that address, raw amount at that address)` |
| Fees.ReduceFees | src/store/fees/hooks.ts:23-27 | the in-place reduce over the keys builds exactly that map |
| Fees.Tick | src/store/fees/hooks.ts:20-29 | without an account the fees are unchanged; with one the new fees have exactly the raw data's keys and are the map `BuildFees` reduces from it, whatever they were before |
| Fees.TickReplaces | src/store/fees/hooks.ts:29 | with an account the result does not depend on the previous fees, and no previous entry absent from the new data survives |
| Fees.PollScenario | src/store/fees/hooks.ts:16-31 | account bound and raw `{X: "0x10"}` give fees `{X: fromRawAmount(token X, "0x10")}`; a later tick without an account keeps them |
| Fees.FeesStore.UnclaimedFees | src/store/fees/hooks.ts:12-14 | the selector returns the stored map itself |
| Fees.FeesStore.FetchUnclaimedDividends | src/store/fees/hooks.ts:16-31 | one interval callback moves the stored fees by exactly one `Tick` |
| Pairs.IdsFreshFromDistinct | src/constants/pairs.ts:13-129 | checking each entry against the later ones on its chain implies pairwise distinct ids per chain |
| Pairs.IdsUniquePerChain | src/constants/pairs.ts:13-129 | within each chain the catalog's pair ids are pairwise distinct |
| Pairs.AllWellFormed | src/constants/pairs.ts:15-128 | every entry's name is `base + "/" + quote` and its base differs from its quote |
| Pairs.ChainCounts | src/constants/pairs.ts:14-128 | only chain ids 1 and 3 occur, with 8 pairs on chain 1 and 7 on chain 3 |
| Pairs.RewardsOnlyOnIncentivisedPairs | src/constants/pairs.ts:21-106 | `rewards` is present exactly on the sICX/ICX, sICX/bnUSD, BALN/bnUSD and BALN/sICX entries |

## Left out

- The encoders `IconConverter.toHex`, `JSON.stringify` and `BigNumber.toFixed` have no source here. They are uninterpreted terms. So the model does not show that `JSON.stringify` drops a `toToken: undefined` field, and it cannot state a JSON-then-hex round trip.
- The IRC2 base class is not part of this model: `transactionParamsBuilder`, `paramsBuilder`, `callICONPlugins` and `call` are absent. A payload records what each operation hands them, plus the proxy's address.
- `CurrencyAmount.fromRawAmount` is an uninterpreted term (`Fees.Amount`). `convertLoopToIcx` is a function parameter. Neither has source here.
- Contracts.TransferRoundTrip: rests on the encoders being free terms; it holds for an injective `toHex` that never returns its own argument, not for every implementation of it.
- Contracts.TransferInjective: rests on `toHex` being injective, as above.
- Sicx.UnstakeIsNotPlainTransfer: rests on `toHex(v)` never being `v` itself, as above.
- Fees.Tick: `fromRawAmount` is taken as never throwing. An address outside the token map gets an entry with no currency. A `fromRawAmount` that rejects an `undefined` currency would end the callback before `setFees` and leave the fees unchanged; the model has no such run.
- Fees.FeeEntry: builds the no-currency entry for an unsupported address instead of failing, for the reason given for Fees.Tick.
- Fees.FeesStore.FetchUnclaimedDividends: always stores the built map when an account is bound, for the reason given for Fees.Tick.
- JsValues.Lower: only ASCII letters are lower-cased. JavaScript's `toLowerCase` also maps non-ASCII letters; contract symbols are ASCII.
- Network calls are not modelled: `Promise.all`, `getAccountPositions`, `getBalance().execute()` and `getUnclaimedDividends`. Their results are method parameters, so the methods model only a fetch that completes. A rejected `getUnclaimedDividends` (store/fees/hooks.ts:22) or `Promise.all` (store/collateral/hooks.ts:48-51) ends the run before any dispatch and leaves the slice as it was; the model has no such run.
- The `changeDepositedAmount`, `changeBalance` and `setFees` reducers are not in the source (store/collateral/hooks.ts:19, 30; store/fees/hooks.ts:29). The model takes each as replacing its one field of the slice with the dispatched value, which is what `DispatchDepositedAmount`, `DispatchBalance`, `FetchCollateralInfo` and `FetchUnclaimedDividends` state.
- Timing is not modelled: the 5000 ms `useInterval` timer, overlapping polls that finish out of order, and the effect re-running when `transactions` changes. This is concurrency and timing, not sequential logic.
- Collateral.StakedICXValue: the `sICX` entry is taken as already parsed from hexadecimal. `parseInt` goes through a float64 number, so its precision loss is not modelled. Nor is the `NaN` that a missing `sICX` key produces.
- Collateral.TypedAmount: `typedValue` is an optional exact decimal. Non-numeric text, which BigNumber reads as `NaN`, is not modelled.
- Collateral.CollateralStore.CollateralAdjust: the source does not show the `adjust` and `cancel` reducers. Only which action is dispatched is modelled, not what the reducer does to the slice.
- The `type` action and `useCollateralType` are not modelled: the reducer is not shown, so the input fields are plain fields of the store.
- The read-only selectors `useAvailableAmount`, `useDepositedAmount` and `useCollateralState` are the store's fields themselves.
- React memoisation and re-rendering are not modelled: `useCallback`, `useMemo`, `useEffect` and `useSelector`.
- `rewards` is a JS float. Only its presence is used. The exact decimal literals are kept as `real`, without float rounding.
- Negative amounts are not validated. The code does not validate them either.
- `src/app/containers/Claim/Loadable.tsx` only lazy-loads a component and holds no logic.
