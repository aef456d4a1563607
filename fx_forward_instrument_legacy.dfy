/**
 * `ForeignExchangeForward` as the older header declares it: no direction,
 * real-valued notional inspectors, and a results record holding one forward
 * value and the valuation currency. It is the version the forward-points
 * engine prices.
 */
module FxForwardInstrumentLegacy {
  import opened Common
  import opened Time
  import opened Currencies
  import opened ExchangeRates
  import opened FxForwardContract

  /** The stored state of the instrument. */
  datatype ForeignExchangeForward = ForeignExchangeForward(
    deliveryDate: Date,
    baseNotionalAmount: Money,
    termNotionalAmount: Money,
    contractAllInRate: ExchangeRate,
    foreignExchangeTerms: FxTerms,
    termCurrency: Currency)
  {
    /** `isExpired()` against the evaluation date. */
    function IsExpired(evaluationDate: Date): (expired: bool)
      ensures expired <==> evaluationDate > deliveryDate
      ensures expired ==> evaluationDate >= deliveryDate + 1
    {
      deliveryDate < evaluationDate
    }

    function BaseCurrency(): (c: Currency)
      ensures c == baseNotionalAmount.currency
    {
      baseNotionalAmount.currency
    }

    function ContractAllInRate(): (r: ExchangeRate)
      ensures r == contractAllInRate
    {
      contractAllInRate
    }

    function NotionalAmountBase(): (v: real)
      ensures v == baseNotionalAmount.value
    {
      baseNotionalAmount.value
    }

    /** `notionalAmountTerm()`: the value of the base notional put through the contract rate. */
    function NotionalAmountTerm(): (v: Result<real, FxError>)
      requires Invertible(contractAllInRate)
      ensures v.Success? <==> Exchange(contractAllInRate, baseNotionalAmount).Success?
      ensures v.Success? ==> v.value == Exchange(contractAllInRate, baseNotionalAmount).value.value
    {
      match Exchange(contractAllInRate, baseNotionalAmount)
      case Success(m) => Success(m.value)
      case Failure(e) => Failure(e)
    }
  }

  /**
   * For a direct contract rate quoted from the base currency, the term
   * notional is the one the out-of-line constructor stores: base notional
   * times rate.
   */
  lemma NotionalAmountTermIsBaseTimesRate(instrument: ForeignExchangeForward, contract: FxForwardContract.ForeignExchangeForward)
    requires instrument.contractAllInRate.DirectRate? && instrument.contractAllInRate.rate != 0.0
    requires instrument.contractAllInRate.source == instrument.BaseCurrency()
    requires contract.notionalAmountBase == instrument.NotionalAmountBase()
    requires contract.contractAllInRate == instrument.contractAllInRate.rate
    requires contract.notionalAmountTerm == contract.notionalAmountBase * contract.contractAllInRate
    ensures instrument.NotionalAmountTerm().Success?
    ensures instrument.NotionalAmountTerm().value == contract.notionalAmountTerm
  {
    DirectLeg(instrument.contractAllInRate, instrument.baseNotionalAmount);
  }

  /** A contract is live through its delivery date and stays expired once it is. */
  lemma ExpiryIsMonotone(instrument: ForeignExchangeForward, evaluationDate: Date, later: Date)
    requires evaluationDate <= later
    ensures !instrument.IsExpired(instrument.deliveryDate)
    ensures instrument.IsExpired(instrument.deliveryDate + 1)
    ensures instrument.IsExpired(evaluationDate) ==> instrument.IsExpired(later)
  {
  }

  /** The pricing-engine arguments. */
  datatype Arguments = Arguments(
    deliveryDate: Date,
    baseNotionalAmount: Money,
    contractAllInRate: ExchangeRate,
    dayCounter: DayCounter,
    calendar: Calendar,
    businessDayConvention: BusinessDayConvention,
    settlementDays: nat)

  /** Default-constructed arguments, before an instrument fills them in. */
  const EmptyArguments: Arguments :=
    Arguments(NullDate, EmptyMoney, DefaultExchangeRate, OtherDayCounter(""), OtherCalendar(""), Following, 0)

  /** The results record. */
  class Results {
    var valuationCurrency: Currency
    var forwardValue: Money
    /** The fields of the `Instrument::results` base. */
    var value: real
    var errorEstimate: real
    var valuationDate: Date

    constructor ()
      ensures valuationCurrency == EmptyCurrency && forwardValue == EmptyMoney
      ensures value == NullReal && errorEstimate == NullReal && valuationDate == NullDate
    {
      valuationCurrency := EmptyCurrency;
      forwardValue := EmptyMoney;
      value, errorEstimate, valuationDate := NullReal, NullReal, NullDate;
    }

    /** `reset()`: the forward value to empty Money, then the base fields; the valuation currency stays. */
    method Reset()
      modifies this
      ensures forwardValue == EmptyMoney
      ensures value == NullReal && errorEstimate == NullReal && valuationDate == NullDate
      ensures valuationCurrency == old(valuationCurrency)
    {
      forwardValue := EmptyMoney;
      value := NullReal;
      errorEstimate := NullReal;
      valuationDate := NullDate;
    }
  }
}
