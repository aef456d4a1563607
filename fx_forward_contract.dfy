/**
 * The out-of-line definitions of the FX forward contract: the `FxTerms`
 * constructors with their per-currency-pair defaults, and the
 * `ForeignExchangeForward` constructors and calculations as this file
 * writes them (base and term currency, a base notional amount and a plain
 * all-in rate).
 */
module FxForwardContract {
  import opened Time
  import opened Currencies
  import opened YieldCurves

  /** The market conventions of a currency pair. */
  datatype FxTerms = FxTerms(dayCounter: DayCounter, calendar: Calendar,
                             businessDayConvention: BusinessDayConvention, settlementDays: nat)

  const DefaultTerms: FxTerms := FxTerms(Actual360, NullCalendar, Following, 2)

  const EurUsdTerms: FxTerms := FxTerms(Actual365Fixed, JointCalendar(Target, UnitedStatesNyse), Following, 2)

  predicate IsEurUsd(baseCurrency: Currency, termCurrency: Currency) {
    baseCurrency.code == "EUR" && termCurrency.code == "USD"
  }

  /** The terms `FxTerms(base, term)` settles on. */
  function PairTerms(baseCurrency: Currency, termCurrency: Currency): FxTerms {
    if IsEurUsd(baseCurrency, termCurrency) then EurUsdTerms else DefaultTerms
  }

  /** `FxTerms(base, term)`: the defaults, overwritten for EUR/USD. */
  method TermsForPair(baseCurrency: Currency, termCurrency: Currency) returns (terms: FxTerms)
    ensures terms == PairTerms(baseCurrency, termCurrency)
  {
    var dayCounter: DayCounter := Actual360;
    var calendar: Calendar := NullCalendar;
    var convention := Following;
    var settlementDays: nat := 2;
    if baseCurrency.code == "EUR" && termCurrency.code == "USD" {
      dayCounter := Actual365Fixed;
      calendar := JointCalendar(Target, UnitedStatesNyse);
      convention := Following;
      settlementDays := 2;
    }
    terms := FxTerms(dayCounter, calendar, convention, settlementDays);
  }

  /**
   * Only the ordered pair EUR/USD departs from the defaults, and only in day
   * counter and calendar: USD/EUR keeps the defaults.
   */
  lemma PairTermsOverrideOnlyEurUsd(baseCurrency: Currency, termCurrency: Currency)
    ensures PairTerms(baseCurrency, termCurrency).businessDayConvention == Following
    ensures PairTerms(baseCurrency, termCurrency).settlementDays == 2
    ensures PairTerms(baseCurrency, termCurrency) != DefaultTerms <==> IsEurUsd(baseCurrency, termCurrency)
    ensures PairTerms(baseCurrency, termCurrency).dayCounter == Actual365Fixed <==> IsEurUsd(baseCurrency, termCurrency)
    ensures PairTerms(Currency("USD"), Currency("EUR")) == DefaultTerms
  {
    assert !IsEurUsd(Currency("USD"), Currency("EUR")) by {
      assert Currency("USD").code[0] != "EUR"[0];
    }
  }

  class ForeignExchangeForward {
    const deliveryDate: Date
    const baseCurrency: Currency
    const termCurrency: Currency
    const contractAllInRate: real
    const notionalAmountBase: real
    const notionalAmountTerm: real
    /** The conventions handed to the `Forward` base. */
    const terms: FxTerms
    var underlyingSpotValue: real
    var underlyingIncome: real

    /** The constructor with explicit terms: the term notional is the base notional at the contract rate. */
    constructor (deliveryDate: Date, baseCurrency: Currency, termCurrency: Currency,
                 baseNotionalAmount: real, contractAllInRate: real, terms: FxTerms)
      ensures this.deliveryDate == deliveryDate && this.terms == terms
      ensures this.baseCurrency == baseCurrency && this.termCurrency == termCurrency
      ensures this.contractAllInRate == contractAllInRate && notionalAmountBase == baseNotionalAmount
      ensures notionalAmountTerm == baseNotionalAmount * contractAllInRate
      ensures notionalAmountTerm == 0.0 <==> baseNotionalAmount == 0.0 || contractAllInRate == 0.0
      ensures contractAllInRate != 0.0 ==> notionalAmountTerm / contractAllInRate == baseNotionalAmount
    {
      this.deliveryDate := deliveryDate;
      this.baseCurrency := baseCurrency;
      this.termCurrency := termCurrency;
      this.contractAllInRate := contractAllInRate;
      this.notionalAmountBase := baseNotionalAmount;
      this.notionalAmountTerm := baseNotionalAmount * contractAllInRate;
      this.terms := terms;
    }

    /** The constructor without terms: the explicit one with the currency pair's terms. */
    constructor WithPairTerms(deliveryDate: Date, baseCurrency: Currency, termCurrency: Currency,
                              baseNotionalAmount: real, contractAllInRate: real)
      ensures this.deliveryDate == deliveryDate && terms == PairTerms(baseCurrency, termCurrency)
      ensures this.baseCurrency == baseCurrency && this.termCurrency == termCurrency
      ensures this.contractAllInRate == contractAllInRate && notionalAmountBase == baseNotionalAmount
      ensures notionalAmountTerm == baseNotionalAmount * contractAllInRate
      ensures notionalAmountTerm == 0.0 <==> baseNotionalAmount == 0.0 || contractAllInRate == 0.0
      ensures contractAllInRate != 0.0 ==> notionalAmountTerm / contractAllInRate == baseNotionalAmount
    {
      var pairTerms := TermsForPair(baseCurrency, termCurrency);
      this.deliveryDate := deliveryDate;
      this.baseCurrency := baseCurrency;
      this.termCurrency := termCurrency;
      this.contractAllInRate := contractAllInRate;
      this.notionalAmountBase := baseNotionalAmount;
      this.notionalAmountTerm := baseNotionalAmount * contractAllInRate;
      this.terms := pairTerms;
    }

    /** `spotValue()`: the contract has no spot value of its own. */
    function SpotValue(): (v: real)
      ensures v == 0.0
    {
      0.0
    }

    /** `spotIncome(curve)`: no income, whatever the curve. */
    function SpotIncome(incomeDiscountCurve: CurveHandle): (v: real)
      ensures v == 0.0
    {
      0.0
    }

    /** `performCalculations`, up to the `Forward` base's own step. */
    method PerformCalculations()
      modifies this
      ensures underlyingSpotValue == SpotValue() && underlyingIncome == 0.0
    {
      underlyingSpotValue := SpotValue();
      underlyingIncome := 0.0;
    }
  }
}
