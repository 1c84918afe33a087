/** The collateral slice: the sICX deposited as collateral, the ICX
    balance still available, the two linked input fields of the collateral
    panel, and the hooks that read and update them.  Amounts and ratios are
    BigNumber decimals, modelled exactly as `real`. */
module Collateral {
  import opened JsValues

  /** The two input fields of the collateral panel. */
  datatype Field = LEFT | RIGHT

  /** The actions the hooks dispatch to the collateral slice. */
  datatype Action =
    | ChangeDepositedAmount(depositedAmount: real)
    | ChangeBalance(balance: real)
    | Adjust
    | Cancel

  /** The part of `getAccountPositions()` the fetch reads: `assets`, when
      present, with its `sICX` entry already parsed from hexadecimal. */
  datatype Assets = Assets(sICX: nat)
  datatype PositionResult = PositionResult(assets: Option<Assets>)

  /** The field that is computed from the other: never the one typed into. */
  function DependentField(independentField: Field): (d: Field)
    ensures d != independentField
  {
    if independentField == LEFT then RIGHT else LEFT
  }

  /** `new BigNumber(typedValue || '0')`: an empty input reads as zero. */
  function TypedAmount(typedValue: Option<real>): (r: real)
    ensures typedValue.None? ==> r == 0.0
    ensures typedValue.Some? ==> r == typedValue.value
  {
    if typedValue.Some? then typedValue.value else 0.0
  }

  /** `useDepositedAmountInICX`: deposited sICX converted to ICX. */
  function DepositedAmountInICX(depositedAmount: real, sICXICXratio: real): real {
    depositedAmount * sICXICXratio
  }

  /** `useTotalICXAmount`: deposited collateral in ICX plus the available balance. */
  function TotalICXAmount(depositedAmount: real, sICXICXratio: real, balance: real): real {
    DepositedAmountInICX(depositedAmount, sICXICXratio) + balance
  }

  /** The `parsedAmount` record of `useCollateralInputAmount`: the typed
      field holds the typed amount and the other holds the rest of the total. */
  function ParsedAmounts(independentField: Field, typedValue: Option<real>, total: real): (m: map<Field, real>)
    ensures m.Keys == {LEFT, RIGHT}
    ensures independentField in m && DependentField(independentField) in m
    ensures m[independentField] == TypedAmount(typedValue)
    ensures m[DependentField(independentField)] == total - TypedAmount(typedValue)
    ensures m[LEFT] + m[RIGHT] == total
  {
    map[independentField := TypedAmount(typedValue),
        DependentField(independentField) := total - TypedAmount(typedValue)]
  }

  /** `useCollateralInputAmount`: the LEFT entry of the parsed amounts. */
  function CollateralInputAmount(independentField: Field, typedValue: Option<real>, total: real): (r: real)
    ensures independentField == LEFT ==> r == TypedAmount(typedValue)
    ensures independentField == RIGHT ==> r == total - TypedAmount(typedValue)
  {
    ParsedAmounts(independentField, typedValue, total)[LEFT]
  }

  /** The two fields always add up to the total, whichever one was typed into. */
  lemma FieldsSumToTotal(independentField: Field, typedValue: Option<real>,
                         depositedAmount: real, sICXICXratio: real, balance: real)
    ensures var total := TotalICXAmount(depositedAmount, sICXICXratio, balance);
            var m := ParsedAmounts(independentField, typedValue, total);
            m[LEFT] + m[RIGHT] == depositedAmount * sICXICXratio + balance
  {
  }

  /** `useCollateralInputAmountInUSD`: the input amount priced in USD. */
  function CollateralInputAmountInUSD(independentField: Field, typedValue: Option<real>, total: real,
                                      ICXUSDratio: real): (r: real)
    ensures independentField == LEFT ==> r == TypedAmount(typedValue) * ICXUSDratio
    ensures independentField == RIGHT ==> r == (total - TypedAmount(typedValue)) * ICXUSDratio
  {
    CollateralInputAmount(independentField, typedValue, total) * ICXUSDratio
  }

  /** The action `useCollateralAdjust` dispatches for `isAdjust`. */
  function AdjustAction(isAdjust: bool): (a: Action)
    ensures a == Adjust <==> isAdjust
    ensures a == Cancel <==> !isAdjust
  {
    if isAdjust then Adjust else Cancel
  }

  /** The deposited amount the fetch derives from the position result:
      zero when there are no `assets`. */
  function StakedICXValue(result: PositionResult, loopToIcx: real -> real): (r: real)
    ensures result.assets.None? ==> r == 0.0
    ensures result.assets.Some? ==> r == loopToIcx(result.assets.value.sICX as real)
  {
    match result.assets
    case None => 0.0
    case Some(a) => loopToIcx(a.sICX as real)
  }

  /** The collateral slice of the store, with the log of actions dispatched
      to it.  `changeDepositedAmount` and `changeBalance` replace their field;
      what `adjust` and `cancel` do to the slice is not part of this model,
      only that they are dispatched. */
  class CollateralStore {
    var balance: real
    var depositedAmount: real
    var independentField: Field
    var typedValue: Option<real>
    var dispatched: seq<Action>

    constructor (balance: real, depositedAmount: real, independentField: Field, typedValue: Option<real>)
      ensures this.balance == balance && this.depositedAmount == depositedAmount
      ensures this.independentField == independentField && this.typedValue == typedValue
      ensures dispatched == []
    {
      this.balance := balance;
      this.depositedAmount := depositedAmount;
      this.independentField := independentField;
      this.typedValue := typedValue;
      dispatched := [];
    }

    /** `useTotalICXAmount` read against the current slice. */
    function Total(sICXICXratio: real): (t: real)
      reads this
      ensures t == depositedAmount * sICXICXratio + balance
    {
      TotalICXAmount(depositedAmount, sICXICXratio, balance)
    }

    /** `useCollateralInputAmount` read against the current slice. */
    function InputAmount(sICXICXratio: real): (r: real)
      reads this
      ensures independentField == LEFT ==> r == TypedAmount(typedValue)
      ensures independentField == RIGHT ==> r + TypedAmount(typedValue) == Total(sICXICXratio)
    {
      CollateralInputAmount(independentField, typedValue, Total(sICXICXratio))
    }

    /** The callback of `useChangeDepositedAmount`. */
    method DispatchDepositedAmount(amount: real)
      modifies this
      ensures depositedAmount == amount
      ensures dispatched == old(dispatched) + [ChangeDepositedAmount(amount)]
      ensures balance == old(balance)
      ensures independentField == old(independentField) && typedValue == old(typedValue)
    {
      depositedAmount := amount;
      dispatched := dispatched + [ChangeDepositedAmount(amount)];
    }

    /** The callback of `useChangeBalance`. */
    method DispatchBalance(amount: real)
      modifies this
      ensures balance == amount
      ensures dispatched == old(dispatched) + [ChangeBalance(amount)]
      ensures depositedAmount == old(depositedAmount)
      ensures independentField == old(independentField) && typedValue == old(typedValue)
    {
      balance := amount;
      dispatched := dispatched + [ChangeBalance(amount)];
    }

    /** The callback of `useCollateralAdjust`: exactly one action, `adjust`
        or `cancel`. */
    method CollateralAdjust(isAdjust: bool)
      modifies this`dispatched
      ensures dispatched == old(dispatched) + [AdjustAction(isAdjust)]
    {
      dispatched := dispatched + [AdjustAction(isAdjust)];
    }

    /** One run of the effect in `useFetchCollateralInfo`, with the two
        network results given as inputs: nothing happens without an account;
        otherwise the deposited amount and then the balance are replaced. */
    method FetchCollateralInfo(account: Option<string>, positions: PositionResult, rawBalance: real,
                               loopToIcx: real -> real)
      modifies this
      ensures !AccountBound(account) ==>
                balance == old(balance) && depositedAmount == old(depositedAmount) && dispatched == old(dispatched)
      ensures AccountBound(account) ==>
                depositedAmount == StakedICXValue(positions, loopToIcx) && balance == loopToIcx(rawBalance)
      ensures AccountBound(account) ==>
                dispatched == old(dispatched) + [ChangeDepositedAmount(StakedICXValue(positions, loopToIcx)),
                                                 ChangeBalance(loopToIcx(rawBalance))]
      ensures independentField == old(independentField) && typedValue == old(typedValue)
    {
      if AccountBound(account) {
        var stakedICXVal := StakedICXValue(positions, loopToIcx);
        var unStakedVal := loopToIcx(rawBalance);
        DispatchDepositedAmount(stakedICXVal);
        DispatchBalance(unStakedVal);
      }
    }
  }
}
