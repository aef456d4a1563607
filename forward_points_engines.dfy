/**
 * The flat-quote `ForwardPointsEngine`: values an (older-header) FX forward
 * from one spot rate and one forward-points quote, discounting on a yield
 * curve.
 */
module ForwardPointsEngines {
  import opened Common
  import opened Time
  import opened Currencies
  import opened ExchangeRates
  import opened ForwardExchangeRates
  import opened YieldCurves
  import opened FxForwardInstrumentLegacy

  datatype EngineError = EmptyDiscountCurve

  /** The engine's forward rate: between the contract rate's currencies, at spot plus points. */
  function EngineForwardRate(contractAllInRate: ExchangeRate, spotExchangeRate: real, forwardPoints: real): (r: ExchangeRate)
    ensures r.DirectRate?
    ensures r.source == contractAllInRate.source && r.target == contractAllInRate.target
    ensures forwardPoints == 0.0 ==> r.rate == spotExchangeRate
    ensures forwardPoints > 0.0 ==> r.rate > spotExchangeRate
  {
    DirectRate(contractAllInRate.source, contractAllInRate.target, AllInRate(spotExchangeRate, forwardPoints))
  }

  /** The undiscounted value: the base notional times the gap between the market and the contract rate. */
  function ForwardValue(baseNotionalAmount: Money, forwardRate: real, contractRate: real): (m: Money)
    ensures m.currency == baseNotionalAmount.currency
    ensures m.value == 0.0 <==> baseNotionalAmount.value == 0.0 || forwardRate == contractRate
  {
    baseNotionalAmount.Times(forwardRate - contractRate)
  }

  /** For a positive notional the forward value has the sign of the rate gap. */
  lemma ForwardValueSign(baseNotionalAmount: Money, forwardRate: real, contractRate: real)
    requires baseNotionalAmount.value > 0.0
    ensures ForwardValue(baseNotionalAmount, forwardRate, contractRate).value > 0.0 <==> forwardRate > contractRate
    ensures ForwardValue(baseNotionalAmount, forwardRate, contractRate).value < 0.0 <==> forwardRate < contractRate
  {
    var gap := forwardRate - contractRate;
    if gap > 0.0 {
      assert baseNotionalAmount.value * gap > 0.0;
    } else if gap < 0.0 {
      assert baseNotionalAmount.value * gap < 0.0;
    }
  }

  /** A discount factor in (0, 1] keeps the sign of the forward value and does not enlarge it. */
  lemma DiscountedValueBounds(discount: real, forwardValue: real, discounted: real)
    requires 0.0 < discount <= 1.0 && discounted == discount * forwardValue
    ensures discounted == 0.0 <==> forwardValue == 0.0
    ensures forwardValue > 0.0 ==> 0.0 < discounted <= forwardValue
    ensures forwardValue < 0.0 ==> forwardValue <= discounted < 0.0
  {
    if forwardValue > 0.0 {
      assert discount * forwardValue <= 1.0 * forwardValue;
    } else if forwardValue < 0.0 {
      assert discount * forwardValue >= 1.0 * forwardValue;
    }
  }

  /**
   * The numbers of the FX forward valuation example: 10000 EUR at a
   * contract rate of 1.1389 against a spot of 1.1351 and 45 points, a
   * forward rate of 1.1396 and a forward value of 7 EUR.
   */
  lemma ValuationExample()
    ensures AllInRate(1.1351, 45.0) == 1.1396
    ensures ForwardValue(Money(10000.0, Currency("EUR")), AllInRate(1.1351, 45.0), 1.1389)
            == Money(7.0, Currency("EUR"))
  {
    assert AllInRate(1.1351, 45.0) == 1.1396;
    assert 10000.0 * (1.1396 - 1.1389) == 7.0;
  }

  class ForwardPointsEngine {
    const valuationCurrency: Currency
    const spotExchangeRate: real
    const forwardPoints: real
    const discountCurve: CurveHandle
    /** Filled in by the instrument before `calculate`. */
    var arguments: Arguments
    const results: Results

    constructor (valuationCurrency: Currency, spotExchangeRate: real, forwardPoints: real, discountCurve: CurveHandle)
      ensures this.valuationCurrency == valuationCurrency
      ensures this.spotExchangeRate == spotExchangeRate && this.forwardPoints == forwardPoints
      ensures this.discountCurve == discountCurve
      ensures arguments == EmptyArguments && fresh(results)
    {
      this.valuationCurrency := valuationCurrency;
      this.spotExchangeRate := spotExchangeRate;
      this.forwardPoints := forwardPoints;
      this.discountCurve := discountCurve;
      arguments := EmptyArguments;
      results := new Results();
    }

    /** The discount factor from the curve's reference date to the delivery date. */
    function DiscountToDelivery(yearFraction: (DayCounter, Date, Date) -> real): real
      requires discountCurve.Some?
      reads this
    {
      var curve := discountCurve.value;
      curve.discount(yearFraction(arguments.dayCounter, curve.referenceDate, arguments.deliveryDate))
    }

    /**
     * `calculate()`: fails on an empty curve handle before writing anything;
     * otherwise stores the valuation currency, the curve's reference date,
     * the forward value and its discounted value, and a zero error estimate.
     */
    method Calculate(yearFraction: (DayCounter, Date, Date) -> real) returns (err: Option<EngineError>)
      modifies results
      ensures err.Some? <==> discountCurve.None?
      ensures err.Some? ==> unchanged(results)
      ensures err.None? ==>
                var curve := discountCurve.value;
                var timeToDelivery := yearFraction(arguments.dayCounter, curve.referenceDate, arguments.deliveryDate);
                var forwardRate := EngineForwardRate(arguments.contractAllInRate, spotExchangeRate, forwardPoints);
                && results.valuationCurrency == valuationCurrency
                && results.valuationDate == curve.referenceDate
                && results.forwardValue == ForwardValue(arguments.baseNotionalAmount, forwardRate.rate,
                                                        arguments.contractAllInRate.rate)
                && results.value == curve.discount(timeToDelivery) * results.forwardValue.value
                && results.errorEstimate == 0.0
      ensures err.None? && 0.0 < DiscountToDelivery(yearFraction) <= 1.0 ==>
                && (results.value == 0.0 <==> results.forwardValue.value == 0.0)
                && (results.forwardValue.value > 0.0 ==> 0.0 < results.value <= results.forwardValue.value)
                && (results.forwardValue.value < 0.0 ==> results.forwardValue.value <= results.value < 0.0)
    {
      if discountCurve.None? {
        return Some(EmptyDiscountCurve);
      }
      var curve := discountCurve.value;
      var valuationDate := curve.referenceDate;
      var deliveryDate := arguments.deliveryDate;
      var timeToDelivery := yearFraction(arguments.dayCounter, valuationDate, deliveryDate);
      var allInRate := arguments.contractAllInRate;
      var discount := curve.discount(timeToDelivery);
      var fwdExchangeRate := DirectRate(allInRate.source, allInRate.target, spotExchangeRate + forwardPoints / 10000.0);
      var forwardValue := arguments.baseNotionalAmount.Times(fwdExchangeRate.rate - allInRate.rate);

      results.valuationCurrency := valuationCurrency;
      results.valuationDate := valuationDate;
      results.forwardValue := forwardValue;
      results.value := discount * forwardValue.value;
      results.errorEstimate := 0.0;
      if 0.0 < discount <= 1.0 {
        DiscountedValueBounds(discount, results.forwardValue.value, results.value);
      }
      return None;
    }
  }
}
