/**
 * `ForeignExchangeForward` as the newer header declares it: a base notional
 * amount, a contract all-in `ExchangeRate` and a direction, with the
 * arguments and results records its pricing engines exchange.
 */
module FxForwardInstrument {
  import opened Common
  import opened Time
  import opened Currencies
  import opened ExchangeRates
  import opened FxForwardContract

  /** Which currency the holder sells on the delivery date. */
  datatype ForwardType = SellBaseBuyTermForward | BuyBaseSellTermForward

  /** The direction the constructor assumes when none is given. */
  const DefaultForwardType: ForwardType := SellBaseBuyTermForward

  /** The stored state of the instrument. */
  datatype ForeignExchangeForward = ForeignExchangeForward(
    deliveryDate: Date,
    baseNotionalAmount: Money,
    contractAllInRate: ExchangeRate,
    forwardType: ForwardType,
    foreignExchangeTerms: FxTerms,
    termCurrency: Currency)
  {
    /** `baseSign()`: the sign of the base leg for the holder. */
    function BaseSign(): (s: real)
      ensures s == -1.0 <==> forwardType.SellBaseBuyTermForward?
      ensures s == 1.0 <==> forwardType.BuyBaseSellTermForward?
    {
      if forwardType == SellBaseBuyTermForward then -1.0 else 1.0
    }

    /** `isExpired()` against the evaluation date. */
    function IsExpired(evaluationDate: Date): (expired: bool)
      ensures expired <==> evaluationDate > deliveryDate
      ensures expired ==> evaluationDate >= deliveryDate + 1
    {
      deliveryDate < evaluationDate
    }

    function BaseCurrency(): (c: Currency)
      ensures c == baseNotionalAmount.currency
    {
      baseNotionalAmount.currency
    }

    /** `contractNotionalAmountTerm()`: the base notional put through the contract rate. */
    function ContractNotionalAmountTerm(): (m: Result<Money, FxError>)
      requires Invertible(contractAllInRate)
      ensures m == Exchange(contractAllInRate, baseNotionalAmount)
      ensures !contractAllInRate.Quotes(BaseCurrency()) && contractAllInRate.DirectRate? ==> m.Failure?
    {
      Exchange(contractAllInRate, baseNotionalAmount)
    }
  }

  /** The pricing-engine arguments. */
  datatype Arguments = Arguments(
    deliveryDate: Date,
    baseNotionalAmount: Money,
    contractAllInRate: ExchangeRate,
    forwardType: ForwardType,
    dayCounter: DayCounter,
    calendar: Calendar,
    businessDayConvention: BusinessDayConvention,
    settlementDays: nat)
  {
    /** `arguments::baseSign()`. */
    function BaseSign(): (s: real)
      ensures s == -1.0 <==> forwardType.SellBaseBuyTermForward?
      ensures s == 1.0 <==> forwardType.BuyBaseSellTermForward?
    {
      if forwardType == SellBaseBuyTermForward then -1.0 else 1.0
    }
  }

  /** The instrument and the arguments carrying its direction agree on the sign, which is a unit either way. */
  lemma BaseSignsAgree(instrument: ForeignExchangeForward, arguments: Arguments)
    requires arguments.forwardType == instrument.forwardType
    ensures arguments.BaseSign() == instrument.BaseSign()
    ensures instrument.BaseSign() * instrument.BaseSign() == 1.0
  {
  }

  /**
   * A contract is live through its delivery date and expired from the next
   * date on, and stays expired as the evaluation date moves forward.
   */
  lemma ExpiryIsMonotone(instrument: ForeignExchangeForward, evaluationDate: Date, later: Date)
    requires evaluationDate <= later
    ensures !instrument.IsExpired(instrument.deliveryDate)
    ensures instrument.IsExpired(instrument.deliveryDate + 1)
    ensures instrument.IsExpired(evaluationDate) ==> instrument.IsExpired(later)
  {
  }

  /**
   * With a direct contract rate quoted from the base currency, the term
   * notional is the base notional times the rate in the term currency, and
   * the rate takes it back to the base notional.
   */
  lemma ContractNotionalRoundTrip(instrument: ForeignExchangeForward)
    requires instrument.contractAllInRate.DirectRate? && instrument.contractAllInRate.rate != 0.0
    requires instrument.contractAllInRate.source == instrument.BaseCurrency()
    requires instrument.contractAllInRate.source != instrument.contractAllInRate.target
    ensures var r := instrument.contractAllInRate;
            var m := instrument.ContractNotionalAmountTerm();
            && m.Success?
            && m.value == Money(instrument.baseNotionalAmount.value * r.rate, r.target)
            && Exchange(r, m.value) == Success(instrument.baseNotionalAmount)
  {
    DirectExchangeRoundTrip(instrument.contractAllInRate, instrument.baseNotionalAmount.value);
  }

  /** The results record. */
  class Results {
    var fairForwardPoints: real
    var forwardNetValueBase: Money
    var forwardNetValueTerm: Money
    var presentNetValueBase: Money
    var presentNetValueTerm: Money
    /** The fields of the `Instrument::results` base. */
    var value: real
    var errorEstimate: real
    var valuationDate: Date

    /** Every field at its Null or empty value. */
    predicate Cleared()
      reads this
    {
      && fairForwardPoints == NullReal
      && forwardNetValueBase == EmptyMoney && forwardNetValueTerm == EmptyMoney
      && presentNetValueBase == EmptyMoney && presentNetValueTerm == EmptyMoney
      && value == NullReal && errorEstimate == NullReal && valuationDate == NullDate
    }

    constructor ()
      ensures Cleared()
    {
      fairForwardPoints := NullReal;
      forwardNetValueBase, forwardNetValueTerm := EmptyMoney, EmptyMoney;
      presentNetValueBase, presentNetValueTerm := EmptyMoney, EmptyMoney;
      value, errorEstimate, valuationDate := NullReal, NullReal, NullDate;
    }

    /** `reset()`: the forward points to Null, the four amounts to empty Money, then the base fields. */
    method Reset()
      modifies this
      ensures Cleared()
    {
      fairForwardPoints := NullReal;
      forwardNetValueBase := EmptyMoney;
      forwardNetValueTerm := EmptyMoney;
      presentNetValueBase := EmptyMoney;
      presentNetValueTerm := EmptyMoney;
      value := NullReal;
      errorEstimate := NullReal;
      valuationDate := NullDate;
    }
  }
}
