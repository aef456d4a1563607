/**
 * The spot `ExchangeRate` the forward rates are built on: a rate from a
 * source to a target currency, quoted directly or derived by chaining two
 * other rates. Only the behaviour the forward-exchange code relies on is
 * modelled: applying a rate to an amount, chaining and inversion.
 */
module ExchangeRates {
  import opened Common
  import opened Currencies

  datatype RateType = Direct | Derived

  /** The failures raised by the rate algebra. */
  datatype FxError = IncompatibleCurrency | NotChainable | TenorMismatch

  datatype ExchangeRate =
    | DirectRate(source: Currency, target: Currency, rate: real)
    | DerivedRate(source: Currency, target: Currency, rate: real,
                  first: ExchangeRate, second: ExchangeRate)
  {
    function Type(): RateType {
      if DirectRate? then Direct else Derived
    }

    /** Whether an amount in `c` can be put to this rate as one leg of a chain. */
    predicate Quotes(c: Currency) {
      c == source || c == target
    }
  }

  /** `ExchangeRate()`: empty currencies and a Null rate. */
  const DefaultExchangeRate: ExchangeRate := DirectRate(EmptyCurrency, EmptyCurrency, NullReal)

  /** Every directly quoted rate inside `r` can be divided by. */
  predicate Invertible(r: ExchangeRate) {
    match r
    case DirectRate(_, _, rate) => rate != 0.0
    case DerivedRate(_, _, _, first, second) => Invertible(first) && Invertible(second)
  }

  /** `ExchangeRate::exchange`: converts `amount` through `r`. */
  function Exchange(r: ExchangeRate, amount: Money): (m: Result<Money, FxError>)
    requires Invertible(r)
    ensures r.DirectRate? && !r.Quotes(amount.currency) ==> m == Failure(IncompatibleCurrency)
    ensures r.DerivedRate? && !r.first.Quotes(amount.currency) && !r.second.Quotes(amount.currency)
            ==> m == Failure(IncompatibleCurrency)
    ensures r.DirectRate? && m.Success? && amount.currency == r.source ==> m.value.currency == r.target
    ensures r.DirectRate? && m.Success? && amount.currency != r.source ==> m.value.currency == r.source
  {
    match r
    case DirectRate(source, target, rate) =>
      if amount.currency == source then Success(Money(amount.value * rate, target))
      else if amount.currency == target then Success(Money(amount.value / rate, source))
      else Failure(IncompatibleCurrency)
    case DerivedRate(_, _, _, first, second) =>
      if first.Quotes(amount.currency) then
        match Exchange(first, amount)
        case Success(m) => Exchange(second, m)
        case Failure(e) => Failure(e)
      else if second.Quotes(amount.currency) then
        match Exchange(second, amount)
        case Success(m) => Exchange(first, m)
        case Failure(e) => Failure(e)
      else Failure(IncompatibleCurrency)
  }

  /** The four ways two rates can share a currency, in the order `chain` tests them. */
  datatype ChainCase = SourceSource | SourceTarget | TargetSource | TargetTarget

  /** The first shared-currency pattern of `r1` and `r2`, if any. */
  function Pairing(r1: ExchangeRate, r2: ExchangeRate): Option<ChainCase> {
    if r1.source == r2.source then Some(SourceSource)
    else if r1.source == r2.target then Some(SourceTarget)
    else if r1.target == r2.source then Some(TargetSource)
    else if r1.target == r2.target then Some(TargetTarget)
    else None
  }

  /** The divisors of `Combine` are non-zero. */
  predicate CombineDefined(c: ChainCase, x1: real, x2: real) {
    match c
    case SourceSource => x1 != 0.0
    case SourceTarget => x1 * x2 != 0.0
    case TargetSource => true
    case TargetTarget => x2 != 0.0
  }

  /** How a chained rate is obtained from its two legs' rates in each case. */
  function Combine(c: ChainCase, x1: real, x2: real): real
    requires CombineDefined(c, x1, x2)
  {
    match c
    case SourceSource => x2 / x1
    case SourceTarget => 1.0 / (x1 * x2)
    case TargetSource => x1 * x2
    case TargetTarget => x1 / x2
  }

  /** The source and target of the chained rate in each case: the currencies not shared. */
  function ChainedCurrencies(c: ChainCase, r1: ExchangeRate, r2: ExchangeRate): (Currency, Currency) {
    match c
    case SourceSource => (r1.target, r2.target)
    case SourceTarget => (r1.target, r2.source)
    case TargetSource => (r1.source, r2.target)
    case TargetTarget => (r1.source, r2.source)
  }

  /** `chain` divides only when the legs share a currency. */
  predicate ChainDefined(r1: ExchangeRate, r2: ExchangeRate) {
    Pairing(r1, r2).Some? ==> CombineDefined(Pairing(r1, r2).value, r1.rate, r2.rate)
  }

  /** `ExchangeRate::chain`: the derived rate between the two currencies the legs do not share. */
  function Chain(r1: ExchangeRate, r2: ExchangeRate): (r: Result<ExchangeRate, FxError>)
    requires ChainDefined(r1, r2)
    ensures r.Failure? <==> r1.source != r2.source && r1.source != r2.target
                            && r1.target != r2.source && r1.target != r2.target
    ensures r.Failure? ==> r.error == NotChainable
    ensures r.Success? ==> r.value.DerivedRate? && r.value.first == r1 && r.value.second == r2
    ensures r.Success? && r1.source == r2.source ==>
              r.value.source == r1.target && r.value.target == r2.target && r.value.rate * r1.rate == r2.rate
    ensures r.Success? && r1.target == r2.source && r1.source != r2.source && r1.source != r2.target ==>
              r.value.source == r1.source && r.value.target == r2.target && r.value.rate == r1.rate * r2.rate
    ensures r.Success? && r1.source != r2.source && r1.source == r2.target ==>
              r.value.source == r1.target && r.value.target == r2.source && r.value.rate * (r1.rate * r2.rate) == 1.0
    ensures r.Success? && r1.source != r2.source && r1.source != r2.target && r1.target != r2.source
            && r1.target == r2.target ==>
              r.value.source == r1.source && r.value.target == r2.source && r.value.rate * r2.rate == r1.rate
  {
    match Pairing(r1, r2)
    case None => Failure(NotChainable)
    case Some(c) =>
      var (s, t) := ChainedCurrencies(c, r1, r2);
      Success(DerivedRate(s, t, Combine(c, r1.rate, r2.rate), r1, r2))
  }

  /** `ExchangeRate::inverse`: swaps the currencies and takes the reciprocal rate. */
  function Inverse(r: ExchangeRate): (i: ExchangeRate)
    requires r.rate != 0.0
    ensures i.source == r.target && i.target == r.source
    ensures i.rate * r.rate == 1.0
    ensures i.Type() == r.Type()
  {
    match r
    case DirectRate(s, t, rate) => DirectRate(t, s, 1.0 / rate)
    case DerivedRate(s, t, rate, first, second) => DerivedRate(t, s, 1.0 / rate, first, second)
  }

  /** Inverting twice gives back the rate. */
  lemma InverseInvolutive(r: ExchangeRate)
    requires r.rate != 0.0
    ensures Inverse(r).rate != 0.0 && Inverse(Inverse(r)) == r
  {
  }

  /** A direct rate applied to a source amount and then to the result gives the amount back. */
  lemma DirectExchangeRoundTrip(r: ExchangeRate, v: real)
    requires r.DirectRate? && r.rate != 0.0 && r.source != r.target
    ensures Exchange(r, Money(v, r.source)) == Success(Money(v * r.rate, r.target))
    ensures Exchange(r, Exchange(r, Money(v, r.source)).value) == Success(Money(v, r.source))
  {
    var there := Exchange(r, Money(v, r.source));
    assert there.Success? && there.value == Money(v * r.rate, r.target);
    var back := Exchange(r, there.value);
    assert back.Success? && back.value.value == v * r.rate / r.rate;
    assert v * r.rate / r.rate == v;
  }

  /** What a direct leg gives for an amount it quotes. */
  lemma DirectLeg(r: ExchangeRate, m: Money)
    requires r.DirectRate? && r.rate != 0.0 && r.Quotes(m.currency)
    ensures Exchange(r, m).Success?
    ensures m.currency == r.source ==> Exchange(r, m).value == Money(m.value * r.rate, r.target)
    ensures m.currency != r.source ==> Exchange(r, m).value == Money(m.value / r.rate, r.source)
  {
  }

  /** A two-leg derived rate applies its legs in turn. */
  lemma DerivedLegs(c: ExchangeRate, m: Money)
    requires c.DerivedRate? && Invertible(c)
    ensures c.first.Quotes(m.currency) && Exchange(c.first, m).Success? ==>
              Exchange(c, m) == Exchange(c.second, Exchange(c.first, m).value)
    ensures !c.first.Quotes(m.currency) && c.second.Quotes(m.currency) && Exchange(c.second, m).Success? ==>
              Exchange(c, m) == Exchange(c.first, Exchange(c.second, m).value)
  {
  }

  /** The two legs of a chain are direct rates between distinct currencies. */
  predicate DirectTriangle(r1: ExchangeRate, r2: ExchangeRate) {
    && r1.DirectRate? && r2.DirectRate? && r1.rate != 0.0 && r2.rate != 0.0
    && r1.source != r1.target && r2.source != r2.target
  }

  /**
   * A rate derived from two direct legs converts an amount in its source
   * currency at its own rate.
   */
  lemma ChainedExchangeAtChainedRate(r1: ExchangeRate, r2: ExchangeRate, v: real)
    requires DirectTriangle(r1, r2) && Chain(r1, r2).Success?
    ensures Invertible(Chain(r1, r2).value)
    ensures var c := Chain(r1, r2).value;
            var m := Exchange(c, Money(v, c.source));
            m.Success? && m.value == Money(v * c.rate, c.target)
  {
    var c := Chain(r1, r2).value;
    var a := Money(v, c.source);
    DerivedLegs(c, a);
    match Pairing(r1, r2).value
    case SourceSource => ChainedSourceSource(r1, r2, v);
    case SourceTarget => ChainedSourceTarget(r1, r2, v);
    case TargetSource => ChainedTargetSource(r1, r2, v);
    case TargetTarget => ChainedTargetTarget(r1, r2, v);
  }

  lemma ChainedSourceSource(r1: ExchangeRate, r2: ExchangeRate, v: real)
    requires DirectTriangle(r1, r2) && Pairing(r1, r2) == Some(SourceSource)
    ensures var c := Chain(r1, r2).value;
            var mid := Exchange(r1, Money(v, c.source));
            mid.Success? && Exchange(r2, mid.value).Success?
            && Exchange(r2, mid.value).value == Money(v * c.rate, c.target)
  {
    var c := Chain(r1, r2).value;
    DirectLeg(r1, Money(v, c.source));
    var mid := Money(v / r1.rate, r1.source);
    DirectLeg(r2, mid);
    assert v / r1.rate * r2.rate == v * (r2.rate / r1.rate);
  }

  lemma ChainedSourceTarget(r1: ExchangeRate, r2: ExchangeRate, v: real)
    requires DirectTriangle(r1, r2) && Pairing(r1, r2) == Some(SourceTarget)
    ensures var c := Chain(r1, r2).value;
            var mid := Exchange(r1, Money(v, c.source));
            mid.Success? && Exchange(r2, mid.value).Success?
            && Exchange(r2, mid.value).value == Money(v * c.rate, c.target)
  {
    var c := Chain(r1, r2).value;
    DirectLeg(r1, Money(v, c.source));
    var mid := Money(v / r1.rate, r1.source);
    DirectLeg(r2, mid);
    DivideTwice(v, r1.rate, r2.rate);
  }

  lemma ChainedTargetSource(r1: ExchangeRate, r2: ExchangeRate, v: real)
    requires DirectTriangle(r1, r2) && Pairing(r1, r2) == Some(TargetSource)
    ensures var c := Chain(r1, r2).value;
            var mid := Exchange(r1, Money(v, c.source));
            mid.Success? && Exchange(r2, mid.value).Success?
            && Exchange(r2, mid.value).value == Money(v * c.rate, c.target)
  {
    var c := Chain(r1, r2).value;
    DirectLeg(r1, Money(v, c.source));
    var mid := Money(v * r1.rate, r1.target);
    DirectLeg(r2, mid);
    assert v * r1.rate * r2.rate == v * (r1.rate * r2.rate);
  }

  lemma ChainedTargetTarget(r1: ExchangeRate, r2: ExchangeRate, v: real)
    requires DirectTriangle(r1, r2) && Pairing(r1, r2) == Some(TargetTarget)
    ensures var c := Chain(r1, r2).value;
            var mid := Exchange(r1, Money(v, c.source));
            mid.Success? && Exchange(r2, mid.value).Success?
            && Exchange(r2, mid.value).value == Money(v * c.rate, c.target)
  {
    var c := Chain(r1, r2).value;
    DirectLeg(r1, Money(v, c.source));
    var mid := Money(v * r1.rate, r1.target);
    DirectLeg(r2, mid);
    assert v * r1.rate / r2.rate == v * (r1.rate / r2.rate);
  }

  lemma DivideTwice(v: real, a: real, b: real)
    requires a != 0.0 && b != 0.0
    ensures a * b != 0.0 && v / a / b == v * (1.0 / (a * b))
  {
    var q := v / a / b;
    assert q * b == v / a;
    assert q * b * a == v;
    assert q * (a * b) == v;
  }
}
